/** The donor-side routes of Server/Routes/donationRoutes.js: creating a
    donation from a form submission (`POST /add-donation`), listing a donor's
    donations (`GET /user-donations/:userId`) and listing the donations still
    available (`GET /all-donations`). JSON.parse is a parameter; upload
    file names are given as multer assigned them. */
module DonationRoutes {
  import opened Common
  import opened DonationSchema
  import opened Store

  /** The properties of one submitted food that the route reads; each may be
      undefined. */
  datatype FoodPayload = FoodPayload(
    name: Option<string>,
    quantity: Option<int>,
    unit: Option<string>,
    status: Option<string>,
    expiryDuration: Option<int>)

  /** One element of the submitted foods list as JavaScript sees it: null or
      undefined, a primitive such as a string (every property of which reads
      as undefined), or an object. */
  datatype FoodValue = Nullish | Primitive | Object(fields: FoodPayload)

  /** What JSON.parse makes of a foods string: an array, or a single value. */
  datatype ParsedFoods = JsonArray(items: seq<FoodValue>) | JsonValue(item: FoodValue)

  /** `req.body.foods`: a string, an array (for a multipart form, the array of
      strings sent when the field is repeated), or an object (JSON body). */
  datatype FoodsField = FoodsText(text: string) | FoodsArray(items: seq<FoodValue>) | FoodsObject(fields: FoodPayload)

  /** `req.body.location`: a string to be parsed, or an object. */
  datatype LocationField = LocationText(text: string) | LocationObject(doc: LocationDoc)

  /** The body fields the route reads; None stands for a missing or falsy
      value. */
  datatype DonationBody = DonationBody(userId: Option<Id>, foods: Option<FoodsField>, location: Option<LocationField>)

  /** `!userId || !foods || !location`. */
  predicate MissingField(b: DonationBody)
    ensures !MissingField(b) ==>
              && b.userId.Some? && b.foods.Some? && b.foods != Some(FoodsText(""))
              && b.location.Some? && b.location != Some(LocationText(""))
  {
    || b.userId.None?
    || b.foods.None? || b.foods == Some(FoodsText(""))
    || b.location.None? || b.location == Some(LocationText(""))
  }

  /** Lines 31-42: a string is parsed (None when JSON.parse throws) and a
      value that is not an array becomes a one-element list. */
  function FoodValues(f: FoodsField, parseFoods: string -> Option<ParsedFoods>): (r: Option<seq<FoodValue>>)
    ensures r.None? <==> f.FoodsText? && parseFoods(f.text).None?
    ensures f.FoodsArray? ==> r == Some(f.items)
    ensures f.FoodsObject? ==> r == Some([Object(f.fields)])
    ensures f.FoodsText? && r.Some? ==>
              (match parseFoods(f.text).value
               case JsonArray(items) => r.value == items
               case JsonValue(v) => r.value == [v])
  {
    match f
    case FoodsArray(items) => Some(items)
    case FoodsObject(fields) => Some([Object(fields)])
    case FoodsText(text) =>
      match parseFoods(text)
      case None => None
      case Some(JsonArray(items)) => Some(items)
      case Some(JsonValue(v)) => Some([v])
  }

  /** Lines 45-47: a location string is parsed; None when JSON.parse throws. */
  function LocationOf(l: LocationField, parseLocation: string -> Option<LocationDoc>): (r: Option<LocationDoc>)
    ensures r.None? <==> l.LocationText? && parseLocation(l.text).None?
    ensures l.LocationObject? ==> r == Some(l.doc)
    ensures l.LocationText? && r.Some? ==> r == parseLocation(l.text)
  {
    match l
    case LocationText(text) => parseLocation(text)
    case LocationObject(doc) => Some(doc)
  }

  /** The properties of a food value; every one is undefined on a primitive. */
  function Fields(v: FoodValue): FoodPayload
    requires !v.Nullish?
  {
    if v.Object? then v.fields else FoodPayload(None, None, None, None, None)
  }

  /** Lines 50-57 for one food: name, quantity and unit copied, photo null,
      status defaulting to "Pending" and expiryDuration to 0 when falsy.
      None when the value is null or undefined (reading a property throws). */
  function Normalise(v: FoodValue): (r: Option<FoodDoc>)
    ensures r.Some? <==> !v.Nullish?
    ensures r.Some? ==>
      var p := Fields(v);
      && r.value.name == p.name && r.value.quantity == p.quantity && r.value.unit == p.unit
      && r.value.photo == None
      && r.value.status == OrElse(p.status, "Pending")
      && r.value.expiryDuration == Some(p.expiryDuration.GetOr(0))
  {
    if v.Nullish? then None
    else
      var p := Fields(v);
      Some(FoodDoc(p.name, p.quantity, p.unit, None, OrElse(p.status, "Pending"), Some(p.expiryDuration.GetOr(0))))
  }

  /** Lines 50-57: the foods list mapped item by item, keeping length and
      order; None when some item is null or undefined. */
  function NormaliseAll(vs: seq<FoodValue>): (r: Option<seq<FoodDoc>>)
    ensures r.Some? <==> forall k :: 0 <= k < |vs| ==> !vs[k].Nullish?
    ensures r.Some? ==> |r.value| == |vs| && forall k :: 0 <= k < |vs| ==> Normalise(vs[k]) == Some(r.value[k])
  {
    if vs == [] then Some([])
    else if vs[0].Nullish? then None
    else
      match NormaliseAll(vs[1..])
      case Some(ds) => Some([Normalise(vs[0]).value] + ds)
      case None =>
        assert exists k :: 0 <= k < |vs| && vs[k].Nullish? by {
          var j :| 0 <= j < |vs[1..]| && vs[1..][j].Nullish?;
          assert vs[j + 1].Nullish?;
        }
        None
  }

  /** Where a stored upload is served from. */
  function UploadPath(filename: string): (r: string)
    ensures |r| == |filename| + 8 && r[..8] == "uploads/" && r[8..] == filename
  {
    "uploads/" + filename
  }

  /** Lines 60-64 as a value: the k-th uploaded file becomes the photo of the
      k-th food. */
  function WithPhotos(docs: seq<FoodDoc>, files: seq<string>): (r: seq<FoodDoc>)
    ensures |r| == |docs|
  {
    if docs == [] || files == [] then docs
    else [docs[0].(photo := Some(UploadPath(files[0])))] + WithPhotos(docs[1..], files[1..])
  }

  /** The k-th food gets the k-th file when there is one and keeps its photo
      otherwise; files beyond the number of foods are dropped and the list
      keeps its length. */
  lemma {:induction false} WithPhotosAt(docs: seq<FoodDoc>, files: seq<string>, k: nat)
    requires k < |docs|
    ensures |WithPhotos(docs, files)| == |docs|
    ensures WithPhotos(docs, files)[k] ==
              if k < |files| then docs[k].(photo := Some(UploadPath(files[k]))) else docs[k]
  {
    if docs != [] && files != [] {
      if k > 0 {
        WithPhotosAt(docs[1..], files[1..], k - 1);
      }
    }
  }

  /** Lines 60-64: each uploaded file, in upload order, is written into the
      photo of the food at the same index, when there is such a food. */
  method AttachPhotos(foodsList: seq<FoodDoc>, files: seq<string>) returns (r: seq<FoodDoc>)
    ensures r == WithPhotos(foodsList, files)
  {
    r := foodsList;
    var idx := 0;
    while idx < |files|
      invariant 0 <= idx <= |files|
      invariant |r| == |foodsList|
      invariant forall k :: 0 <= k < |r| ==>
                  r[k] == if k < idx then foodsList[k].(photo := Some(UploadPath(files[k]))) else foodsList[k]
    {
      if idx < |r| {
        r := r[idx := r[idx].(photo := Some(UploadPath(files[idx])))];
      }
      idx := idx + 1;
    }
    forall k | 0 <= k < |r|
      ensures r[k] == WithPhotos(foodsList, files)[k]
    {
      WithPhotosAt(foodsList, files, k);
    }
  }

  /** How the route's checks end before anything is saved: an error answer,
      an exception (answered 500), or the foods list and location ready to be
      saved. */
  datatype Prepared = Rejected(code: nat, message: string) | Thrown | Built(userId: Id, foods: seq<FoodDoc>, location: LocationDoc)

  /** Lines 24-64 as a value. */
  function Prepare(body: DonationBody, files: seq<string>,
                   parseFoods: string -> Option<ParsedFoods>,
                   parseLocation: string -> Option<LocationDoc>): (p: Prepared)
    ensures p == Rejected(400, "All fields are required") <==> MissingField(body)
    ensures p == Rejected(400, "Invalid foods format") <==>
              !MissingField(body) && FoodValues(body.foods.value, parseFoods).None?
    ensures p.Rejected? ==> p.code == 400
    ensures p.Thrown? <==>
              && !MissingField(body) && FoodValues(body.foods.value, parseFoods).Some?
              && (|| LocationOf(body.location.value, parseLocation).None?
                  || NormaliseAll(FoodValues(body.foods.value, parseFoods).value).None?)
    ensures p.Built? ==>
              var values := FoodValues(body.foods.value, parseFoods).value;
              && p.userId == body.userId.value
              && p.location == LocationOf(body.location.value, parseLocation).value
              && p.foods == WithPhotos(NormaliseAll(values).value, files)
              && |p.foods| == |values|
  {
    if MissingField(body) then Rejected(400, "All fields are required")
    else match FoodValues(body.foods.value, parseFoods)
      case None => Rejected(400, "Invalid foods format")
      case Some(values) =>
        match (LocationOf(body.location.value, parseLocation), NormaliseAll(values))
        case (Some(location), Some(docs)) =>
          Built(body.userId.value, WithPhotos(docs, files), location)
        case _ => Thrown
  }

  /** The answer for a prepared submission once the schema has validated it:
      the new donation, or 500 when validation fails. */
  function Saved(p: Prepared, id: Id, now: Millis): (res: Response<Donation>)
    ensures res.Ok? <==> p.Built? && CastFoods(p.foods).Some? && CastLocation(p.location).Some?
    ensures res.Ok? ==> res == Ok(201, NewDonation(id, p.userId, CastFoods(p.foods).value, CastLocation(p.location).value, now))
    ensures p.Rejected? ==> res == Err(p.code, p.message)
    ensures (p.Thrown? || (p.Built? && !res.Ok?)) ==> res == Err(500, "Server error")
  {
    match p
    case Rejected(code, message) => Err(code, message)
    case Thrown => Err(500, "Server error")
    case Built(userId, docs, loc) =>
      match (CastFoods(docs), CastLocation(loc))
      case (Some(foods), Some(location)) => Ok(201, NewDonation(id, userId, foods, location, now))
      case _ => Err(500, "Server error")
  }

  /** `POST /add-donation`: checks the body, normalises the foods, attaches
      the uploads and saves a new Pending donation created at `now`. Only a
      201 answer adds a document. */
  method AddDonation(db: Database, body: DonationBody, files: seq<string>, now: Millis,
                     parseFoods: string -> Option<ParsedFoods>,
                     parseLocation: string -> Option<LocationDoc>)
    returns (res: Response<Donation>)
    requires db.Valid()
    modifies db
    ensures db.Valid()
    ensures res == Saved(Prepare(body, files, parseFoods, parseLocation), old(db.nextId), now)
    ensures res.Ok? ==> db.donations == old(db.donations) + [res.value]
    ensures !res.Ok? ==> db.donations == old(db.donations)
    ensures db.receives == old(db.receives) && db.users == old(db.users)
  {
    if MissingField(body) {
      return Err(400, "All fields are required");
    }
    var foods := FoodValues(body.foods.value, parseFoods);
    if foods.None? {
      return Err(400, "Invalid foods format");
    }
    var location := LocationOf(body.location.value, parseLocation);
    if location.None? {
      return Err(500, "Server error");
    }
    var docs := NormaliseAll(foods.value);
    if docs.None? {
      return Err(500, "Server error");
    }
    var foodsList := AttachPhotos(docs.value, files);
    var items := CastFoods(foodsList);
    var place := CastLocation(location.value);
    if items.None? || place.None? {
      return Err(500, "Server error");
    }
    var d := db.InsertDonation(body.userId.value, items.value, place.value, now);
    res := Ok(201, d);
  }

  /** The query `{ userId }`. */
  function OwnedBy(userId: Id): Donation -> bool {
    (d: Donation) => d.userId == userId
  }

  /** `GET /user-donations/:userId`: exactly that donor's donations, newest
      first. */
  function UserDonations(db: Database, userId: Id): (r: seq<Donation>)
    reads db
    ensures NewestFirst(r)
    ensures multiset(r) == multiset(Filter(db.donations, OwnedBy(userId)))
    ensures forall d :: d in r <==> d in db.donations && d.userId == userId
  {
    var mine := Filter(db.donations, OwnedBy(userId));
    FilterMembers(db.donations, OwnedBy(userId));
    var r := SortNewestFirst(mine);
    SameMembers(r, mine);
    r
  }

  /** Lines 102-106: a food is still available while its expiry time lies
      strictly after `now`. */
  predicate Unexpired(f: FoodItem, createdAt: Millis, now: Millis) {
    ExpiresAt(createdAt, f.expiryDuration) > now
  }

  /** The `.filter` callback of lines 102-106 for one donation. */
  function AvailableAt(createdAt: Millis, now: Millis): FoodItem -> bool {
    (f: FoodItem) => Unexpired(f, createdAt, now)
  }

  /** The foods of a donation that are still available, in their order. */
  function FreshFoods(foods: seq<FoodItem>, createdAt: Millis, now: Millis): (r: seq<FoodItem>)
    ensures |r| <= |foods|
    ensures forall f :: f in r <==> f in foods && Unexpired(f, createdAt, now)
  {
    FilterMembers(foods, AvailableAt(createdAt, now));
    Filter(foods, AvailableAt(createdAt, now))
  }

  /** The available foods of a concatenation are those of each part, in
      that order: the foods kept keep their relative order. */
  lemma FreshFoodsAppend(a: seq<FoodItem>, b: seq<FoodItem>, createdAt: Millis, now: Millis)
    ensures FreshFoods(a + b, createdAt, now) == FreshFoods(a, createdAt, now) + FreshFoods(b, createdAt, now)
  {
    FilterAppend(a, b, AvailableAt(createdAt, now));
  }

  /** A donation with only its available foods; every other field is kept. */
  function WithFreshFoods(d: Donation, now: Millis): (r: Donation)
    ensures r.(foods := d.foods) == d
    ensures forall f :: f in r.foods <==> f in d.foods && Unexpired(f, d.createdAt, now)
  {
    d.(foods := FreshFoods(d.foods, d.createdAt, now))
  }

  /** Lines 100-112: each donation cut down to its available foods, and the
      ones left with none dropped. */
  function KeepAvailable(ds: seq<Donation>, now: Millis): (r: seq<Donation>)
    ensures |r| <= |ds|
    ensures forall x :: x in r ==> |x.foods| > 0
  {
    if ds == [] then [] else ListedAs(ds[0], now) + KeepAvailable(ds[1..], now)
  }

  /** What one donation contributes to the listing. */
  function ListedAs(d: Donation, now: Millis): (r: seq<Donation>)
    ensures r == [] || r == [WithFreshFoods(d, now)]
    ensures r != [] <==> exists f :: f in d.foods && Unexpired(f, d.createdAt, now)
  {
    var kept := WithFreshFoods(d, now);
    assert |kept.foods| > 0 ==> kept.foods[0] in kept.foods;
    if |kept.foods| > 0 then [kept] else []
  }

  predicate IsPending(d: Donation) {
    d.status == DonationStatus.Pending
  }

  /** `GET /all-donations` at time `now`: the Pending donations, in store
      order, each with only its available foods, those with none left out. */
  function AllDonations(db: Database, now: Millis): (r: seq<Donation>)
    reads db
    ensures |r| <= |db.donations|
    ensures forall x :: x in r ==> |x.foods| > 0
  {
    KeepAvailable(Filter(db.donations, IsPending), now)
  }

  /** The listing works donation by donation: the result for a concatenation
      is the concatenation of the results, so relative order is kept. */
  lemma {:induction false} KeepAvailableAppend(a: seq<Donation>, b: seq<Donation>, now: Millis)
    ensures KeepAvailable(a + b, now) == KeepAvailable(a, now) + KeepAvailable(b, now)
  {
    if a == [] {
      assert a + b == b;
    } else {
      assert (a + b)[0] == a[0];
      assert (a + b)[1..] == a[1..] + b;
      KeepAvailableAppend(a[1..], b, now);
    }
  }

  /** What the listing does with a single donation. */
  lemma KeepAvailableOne(d: Donation, now: Millis)
    ensures KeepAvailable([d], now) ==
              if |FreshFoods(d.foods, d.createdAt, now)| > 0 then [WithFreshFoods(d, now)] else []
  {
  }

  /** Every listed donation is some input donation with exactly its
      available foods, and it has at least one. */
  lemma {:induction false} KeepAvailableSound(ds: seq<Donation>, now: Millis, x: Donation)
    requires x in KeepAvailable(ds, now)
    ensures exists e :: e in ds && x == WithFreshFoods(e, now)
    ensures |x.foods| > 0
    ensures forall f :: f in x.foods ==> Unexpired(f, x.createdAt, now)
  {
    if ds != [] {
      var d := WithFreshFoods(ds[0], now);
      if |d.foods| > 0 && x == d {
        assert ds[0] in ds;
      } else {
        KeepAvailableSound(ds[1..], now, x);
        var e :| e in ds[1..] && x == WithFreshFoods(e, now);
        assert e in ds;
      }
    }
  }

  /** Every input donation with an available food is listed. */
  lemma {:induction false} KeepAvailableComplete(ds: seq<Donation>, now: Millis, e: Donation)
    requires e in ds && |FreshFoods(e.foods, e.createdAt, now)| > 0
    ensures WithFreshFoods(e, now) in KeepAvailable(ds, now)
  {
    if ds[0] != e {
      KeepAvailableComplete(ds[1..], now, e);
    }
  }

  /** A donation is listed at time `now` exactly when it is Pending and has a
      food whose expiry lies after `now`; it is listed with exactly those
      foods. In particular a donation whose foods have all expired is never
      listed. */
  lemma AllDonationsListing(db: Database, now: Millis, e: Donation)
    requires e in db.donations
    ensures WithFreshFoods(e, now) in AllDonations(db, now) <==>
              IsPending(e) && exists f :: f in e.foods && Unexpired(f, e.createdAt, now)
  {
    var pending := Filter(db.donations, IsPending);
    FilterMembers(db.donations, IsPending);
    var kept := FreshFoods(e.foods, e.createdAt, now);
    if IsPending(e) && exists f :: f in e.foods && Unexpired(f, e.createdAt, now) {
      var f :| f in e.foods && Unexpired(f, e.createdAt, now);
      assert f in kept;
      KeepAvailableComplete(pending, now, e);
    }
    if WithFreshFoods(e, now) in AllDonations(db, now) {
      var x := WithFreshFoods(e, now);
      KeepAvailableSound(pending, now, x);
      var e' :| e' in pending && x == WithFreshFoods(e', now);
      assert e'.status == e.status;
      assert x.foods[0] in kept;
    }
  }

  /** Every donation in the listing is Pending and comes from the store with
      its other fields unchanged, and each of its foods is unexpired. */
  lemma AllDonationsSound(db: Database, now: Millis, x: Donation)
    requires x in AllDonations(db, now)
    ensures exists e :: e in db.donations && IsPending(e) && x == WithFreshFoods(e, now)
    ensures |x.foods| > 0 && forall f :: f in x.foods ==> Unexpired(f, x.createdAt, now)
  {
    FilterMembers(db.donations, IsPending);
    KeepAvailableSound(Filter(db.donations, IsPending), now, x);
  }

  /** The listing follows store order: listing the store is listing any
      prefix of it followed by listing the rest. */
  lemma AllDonationsInStoreOrder(db: Database, now: Millis, k: nat)
    requires k <= |db.donations|
    ensures AllDonations(db, now) ==
              KeepAvailable(Filter(db.donations[..k], IsPending), now)
              + KeepAvailable(Filter(db.donations[k..], IsPending), now)
  {
    assert db.donations == db.donations[..k] + db.donations[k..];
    FilterAppend(db.donations[..k], db.donations[k..], IsPending);
    KeepAvailableAppend(Filter(db.donations[..k], IsPending), Filter(db.donations[k..], IsPending), now);
  }
}
