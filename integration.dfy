/** Properties that span the client pages and the server routes: what the
    server makes of the bodies the pages send, and what the pages make of
    the server's answers. */
module Integration {
  import opened Common
  import opened Multipart
  import opened DonationSchema
  import opened UserSchema
  import opened Store
  import DonationRoutes
  import DonateDashboard
  import LoginRoutes
  import LoginPage
  import DonateForm
  import SignupPage
  import Text

  /** The dashboard shows "Expired" for a food exactly when the available
      listing drops it: both compare the same expiry time with `now`, the
      dashboard with `<=` and the listing with a strict `>`. */
  lemma CountdownAgreesWithListing(d: Donation, f: FoodItem, now: Millis)
    ensures DonateDashboard.GetCountdown(d.createdAt, f.expiryDuration, now).Expired?
            <==> !DonationRoutes.Unexpired(f, d.createdAt, now)
  {
  }

  /** A single food that has not expired is all a donation keeps. */
  lemma OnlyFoodFresh(d: Donation, now: Millis)
    requires |d.foods| == 1 && DonationRoutes.Unexpired(d.foods[0], d.createdAt, now)
    ensures DonationRoutes.FreshFoods(d.foods, d.createdAt, now) == d.foods
  {
    var kept := DonationRoutes.FreshFoods(d.foods, d.createdAt, now);
    assert d.foods[0] in kept;
    assert forall g :: g in kept ==> g == d.foods[0];
  }

  /** A single food that has expired leaves a donation with none. */
  lemma OnlyFoodExpired(d: Donation, now: Millis)
    requires |d.foods| == 1 && !DonationRoutes.Unexpired(d.foods[0], d.createdAt, now)
    ensures DonationRoutes.FreshFoods(d.foods, d.createdAt, now) == []
  {
    var kept := DonationRoutes.FreshFoods(d.foods, d.createdAt, now);
    assert forall g :: g in kept ==> g in d.foods && g == d.foods[0];
  }

  /** A stored donation with no available food contributes nothing to the
      listing: ids are unique, so nothing listed carries its id. */
  lemma NothingListedFrom(db: Database, now: Millis, d: Donation)
    requires db.Valid() && d in db.donations
    requires DonationRoutes.FreshFoods(d.foods, d.createdAt, now) == []
    ensures forall x :: x in DonationRoutes.AllDonations(db, now) ==> x.id != d.id
  {
    var i :| 0 <= i < |db.donations| && db.donations[i] == d;
    forall x | x in DonationRoutes.AllDonations(db, now)
      ensures x.id != d.id
    {
      DonationRoutes.AllDonationsSound(db, now, x);
      var e :| e in db.donations && DonationRoutes.IsPending(e) && x == DonationRoutes.WithFreshFoods(e, now);
      assert e != d;
      var j :| 0 <= j < |db.donations| && db.donations[j] == e;
      assert i != j;
    }
  }

  /** A Pending donation whose only food keeps for two hours is listed,
      with that food, when it is created, and three hours later nothing in
      the listing comes from it. */
  lemma ListedThenExpired(db: Database, d: Donation)
    requires db.Valid() && d in db.donations && d.status == DonationStatus.Pending
    requires |d.foods| == 1 && d.foods[0].expiryDuration == 2
    ensures d in DonationRoutes.AllDonations(db, d.createdAt)
    ensures forall x :: x in DonationRoutes.AllDonations(db, d.createdAt + 3 * Hour) ==> x.id != d.id
  {
    var f := d.foods[0];
    assert DonationRoutes.Unexpired(f, d.createdAt, d.createdAt);
    OnlyFoodFresh(d, d.createdAt);
    assert DonationRoutes.WithFreshFoods(d, d.createdAt) == d;
    assert f in d.foods;
    DonationRoutes.AllDonationsListing(db, d.createdAt, d);
    var later := d.createdAt + 3 * Hour;
    assert !DonationRoutes.Unexpired(f, d.createdAt, later);
    OnlyFoodExpired(d, later);
    NothingListedFrom(db, later, d);
  }

  /** The body the add-donation route reads from multipart entries: each
      field as the body parser presents it. A repeated "foods" field is an
      array of strings, i.e. of primitives. `parseId` casts the userId
      text; fields the forms never repeat are taken as missing when
      repeated. */
  function BodyFromEntries(entries: seq<Entry>, parseId: string -> Option<Id>): (b: DonationRoutes.DonationBody)
    ensures FieldOf(entries, "foods").Repeated? ==>
              b.foods == Some(DonationRoutes.FoodsArray(seq(|FieldOf(entries, "foods").texts|, _ => DonationRoutes.Primitive)))
  {
    var userId := match FieldOf(entries, "userId")
      case Single(t) => if t != "" then parseId(t) else None
      case _ => None;
    var foods := match FieldOf(entries, "foods")
      case Absent => None
      case Single(t) => Some(DonationRoutes.FoodsText(t))
      case Repeated(ts) => Some(DonationRoutes.FoodsArray(seq(|ts|, _ => DonationRoutes.Primitive)));
    var location := match FieldOf(entries, "location")
      case Single(t) => Some(DonationRoutes.LocationText(t))
      case _ => None;
    DonationRoutes.DonationBody(userId, foods, location)
  }

  /** A donation with two or more foods sent from the Donate form is never
      saved: its "foods" field arrives as an array of JSON strings, whose
      elements are read as objects without properties, so no food has a
      name and validation fails, whatever the photos, ids and location. */
  lemma RepeatedFoodsNeverSaved(userId: Option<string>, locationJson: string, foods: seq<DonateForm.FoodDraft>,
                                stringify: DonateForm.FoodJson -> string, files: seq<string>,
                                parseId: string -> Option<Id>,
                                parseFoods: string -> Option<DonationRoutes.ParsedFoods>,
                                parseLocation: string -> Option<LocationDoc>, id: Id, now: Millis)
    requires |foods| >= 2
    ensures var entries := DonateForm.DonationEntries(userId, locationJson, foods, stringify);
            var p := DonationRoutes.Prepare(BodyFromEntries(entries, parseId), files, parseFoods, parseLocation);
            !DonationRoutes.Saved(p, id, now).Ok?
  {
    var entries := DonateForm.DonationEntries(userId, locationJson, foods, stringify);
    var head := [TextEntry("userId", JsString(userId)), TextEntry("location", locationJson)];
    var rest := DonateForm.FoodEntries(foods, stringify);
    TextsUnderAppend(head, rest, "foods");
    DonateForm.FoodEntriesContent(foods, stringify);
    assert TextsUnder(head, "foods") == [];
    assert |TextsUnder(entries, "foods")| == |foods|;
    var body := BodyFromEntries(entries, parseId);
    var p := DonationRoutes.Prepare(body, files, parseFoods, parseLocation);
    if p.Built? {
      var values := DonationRoutes.FoodValues(body.foods.value, parseFoods).value;
      var docs := DonationRoutes.NormaliseAll(values).value;
      assert values[0] == DonationRoutes.Primitive;
      assert docs[0].name == None;
      DonationRoutes.WithPhotosAt(docs, files, 0);
      assert p.foods[0].name == None;
      assert CastFood(p.foods[0]).None?;
    }
  }

  /** The names multer gives the uploaded photos, in upload order: the file
      names the add-donation route receives. */
  function ServerNames(photos: seq<File>, serverName: File -> string): (r: seq<string>)
    ensures |r| == |photos|
  {
    seq(|photos|, k requires 0 <= k < |photos| => serverName(photos[k]))
  }

  /** Photos shift onto earlier foods: when the first food of the Donate
      form has no photo and the second has one, the server attaches the
      second food's photo to the first food. */
  lemma PhotoShift(foods: seq<DonateForm.FoodDraft>, docs: seq<FoodDoc>, serverName: File -> string)
    requires |foods| >= 2 && |docs| >= 1
    requires foods[0].photo.None? && foods[1].photo.Some?
    ensures var files := ServerNames(DonateForm.Photos(foods), serverName);
            DonationRoutes.WithPhotos(docs, files)[0].photo
              == Some(DonationRoutes.UploadPath(serverName(foods[1].photo.value)))
  {
    var photos := DonateForm.Photos(foods);
    assert photos == DonateForm.Photos(foods[1..]);
    assert foods[1..][0] == foods[1];
    assert photos[0] == foods[1].photo.value;
    DonationRoutes.WithPhotosAt(docs, ServerNames(photos, serverName), 0);
  }

  /** After a successful login through the real route the login page never
      opens the admin or the public dashboard: the route only answers with
      a stored role, and no stored role is "others" or "public". */
  lemma LoginNeverOpensAdminDashboard(users: seq<User>, form: LoginPage.LoginForm, matches: (string, string) -> bool)
    requires LoginRoutes.DistinctUsernames(users)
    ensures var res := LoginRoutes.Login(users, LoginPage.BodyOf(form), matches);
            res.Ok? ==> LoginPage.DashboardFor(LoginPage.DataOf(res.value).role) in {"/volunteer-dashboard", "/dashboard"}
  {
    var body := LoginPage.BodyOf(form);
    var res := LoginRoutes.Login(users, body, matches);
    if res.Ok? {
      var i :| 0 <= i < |users| && LoginRoutes.Selects(users[i], body.username.value, body.role.value)
                                && res.value == LoginRoutes.ReplyFor(users[i]);
      LoginPage.StoredRoleDashboards(users[i].role);
    }
  }

  /** The body the signup route reads. Only JSON and URL-encoded parsers are
      installed, so a multipart body leaves `req.body` empty whatever it
      holds. */
  function SignupBodyFromMultipart(entries: seq<Entry>): (b: LoginRoutes.SignupBody)
    ensures LoginRoutes.SignupMissing(b)
  {
    LoginRoutes.SignupBody(None, None, None, None, None)
  }

  /** Signing up from the signup page is always answered 400 and adds no
      user, whatever was typed in. */
  method SignupFromPage(db: Database, screen: SignupPage.SignupScreen, stringify: SignupPage.VolunteerForm -> string,
                        hash: string -> string)
    returns (res: Response<LoginRoutes.UserReply>)
    requires db.Valid()
    modifies db
    ensures db.Valid()
    ensures res == Err(400, "All fields are required")
    ensures db.users == old(db.users)
  {
    var entries := screen.Submit(stringify);
    res := LoginRoutes.Signup(db, SignupBodyFromMultipart(entries), hash);
  }

  /** A user who signs up through the corrected route can then log in with
      the same username, password and role, and gets the reply signup
      gave. */
  method SignupThenLogin(db: Database, body: LoginRoutes.SignupBody, hash: string -> string,
                         matches: (string, string) -> bool)
    returns (signup: Response<LoginRoutes.UserReply>, login: Response<LoginRoutes.UserReply>)
    requires db.Valid()
    requires forall p :: matches(p, hash(p))
    requires !LoginRoutes.SignupMissing(body)
    modifies db
    ensures signup.Ok? ==> login == Ok(200, signup.value)
  {
    signup := LoginRoutes.SignupWithAccessLevel(db, body, hash);
    if signup.Ok? {
      var role := ParseRole(body.role.value).value;
      var u := LoginRoutes.Registered(old(db.nextId), body, role, hash);
      assert db.users == old(db.users) + [u];
      assert matches(body.password.value, u.password);
      assert RoleName(role) == body.role.value;
      LoginRoutes.LoginAfterInsert(old(db.users), u, body.username.value, body.password.value, matches);
    }
    LoginRoutes.ValidUsernames(db);
    login := LoginRoutes.Login(db.users, LoginRoutes.LoginBody(body.username, body.password, body.role), matches);
  }
}
