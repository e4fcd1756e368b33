/** The login screen of Rescue-connect/src/login.jsx: the form state, the
    session keys written into localStorage after a successful login, and
    the dashboard chosen by role. `fetch` is left out: the page is given the
    answer's `ok` flag and its JSON body. */
module LoginPage {
  import opened Common
  import opened UserSchema
  import LoginRoutes
  import Text

  /** The three controlled inputs of the form. */
  datatype LoginForm = LoginForm(username: string, password: string, role: string)

  /** The names of the form's inputs. */
  predicate IsInput(name: string) {
    name == "username" || name == "password" || name == "role"
  }

  /** The form before any input: empty strings and role "general". */
  const InitialForm := LoginForm("", "", "general")

  /** `handleChange` for the input called `name`: that field takes `value`
      and the other two are kept. */
  function Changed(f: LoginForm, name: string, value: string): (r: LoginForm)
    requires IsInput(name)
    ensures Field(r, name) == value
    ensures forall other :: IsInput(other) && other != name ==> Field(r, other) == Field(f, other)
  {
    match name
    case "username" => f.(username := value)
    case "password" => f.(password := value)
    case _ => f.(role := value)
  }

  /** `formData[name]`. */
  function Field(f: LoginForm, name: string): string
    requires IsInput(name)
  {
    if name == "username" then f.username
    else if name == "password" then f.password
    else f.role
  }

  /** A later change to the same input wins, and changes to different inputs
      can be made in either order. */
  lemma ChangesCommute(f: LoginForm, a: string, v: string, b: string, w: string)
    requires IsInput(a) && IsInput(b)
    ensures a == b ==> Changed(Changed(f, a, v), b, w) == Changed(f, b, w)
    ensures a != b ==> Changed(Changed(f, a, v), b, w) == Changed(Changed(f, b, w), a, v)
  {
  }

  /** The request body `JSON.stringify(formData)` as the login route reads
      it. */
  function BodyOf(f: LoginForm): (b: LoginRoutes.LoginBody)
    ensures Truthy(b.username) <==> f.username != ""
    ensures Truthy(b.password) <==> f.password != ""
    ensures Truthy(b.role) <==> f.role != ""
  {
    LoginRoutes.LoginBody(Some(f.username), Some(f.password), Some(f.role))
  }

  /** The properties of the answer's JSON body that the page reads. */
  datatype ReplyData = ReplyData(
    userId: Option<string>,
    username: Option<string>,
    role: Option<string>,
    accessLevel: Option<string>,
    generalType: Option<string>,
    message: Option<string>)

  /** The JSON body of a successful login answer: the reply fields plus the
      message; `accessLevel` and `generalType` are absent. */
  function DataOf(r: LoginRoutes.UserReply): (d: ReplyData)
    ensures d.accessLevel.None? && d.generalType.None?
    ensures d.username == Some(r.username) && d.role == Some(RoleName(r.role))
  {
    ReplyData(Some(Text.Decimal(r.userId)), Some(r.username), Some(RoleName(r.role)), None, None, Some("Login successful"))
  }

  /** The keys written after a successful login: userId, username and role
      as `String()` makes them, accessLevel or "" when it is falsy, and
      generalType only when it is truthy. Every other key is kept. */
  function SessionWrites(items: map<string, string>, d: ReplyData): (r: map<string, string>)
    ensures r.Keys == items.Keys + {"userId", "username", "role", "accessLevel"}
                      + (if Truthy(d.generalType) then {"generalType"} else {})
    ensures r["userId"] == JsString(d.userId)
    ensures r["username"] == JsString(d.username)
    ensures r["role"] == JsString(d.role)
    ensures r["accessLevel"] == OrElse(d.accessLevel, "")
    ensures Truthy(d.generalType) ==> r["generalType"] == d.generalType.value
    ensures !Truthy(d.generalType) ==> ("generalType" in r <==> "generalType" in items)
                                       && ("generalType" in items ==> r["generalType"] == items["generalType"])
    ensures forall k :: k in items && k !in {"userId", "username", "role", "accessLevel", "generalType"} ==> r[k] == items[k]
  {
    var m := items["userId" := JsString(d.userId)]["username" := JsString(d.username)]
                  ["role" := JsString(d.role)]["accessLevel" := OrElse(d.accessLevel, "")];
    if Truthy(d.generalType) then m["generalType" := d.generalType.value] else m
  }

  /** The browser's localStorage: a map from keys to strings. */
  class LocalStorage {
    var items: map<string, string>

    constructor (items: map<string, string>)
      ensures this.items == items
    {
      this.items := items;
    }

    /** `setItem(key, value)`. */
    method SetItem(key: string, value: string)
      modifies this
      ensures items == old(items)[key := value]
    {
      items := items[key := value];
    }
  }

  /** The route chosen after login for `data.role`: volunteer, general,
      others and public each have their own dashboard, and any other role
      goes to /dashboard. */
  function DashboardFor(role: Option<string>): (path: string)
    ensures path == "/volunteer-dashboard" <==> role == Some("volunteer")
    ensures path == "/admin-dashboard" <==> role == Some("others")
    ensures path == "/public-dashboard" <==> role == Some("public")
    ensures path == "/dashboard" <==> role !in {Some("volunteer"), Some("others"), Some("public")}
  {
    if role == Some("volunteer") then "/volunteer-dashboard"
    else if role == Some("general") then "/dashboard"
    else if role == Some("others") then "/admin-dashboard"
    else if role == Some("public") then "/public-dashboard"
    else "/dashboard"
  }

  /** A role the user schema can store never leads to the admin or the
      public dashboard: volunteers go to their own and admins and general
      users to /dashboard. */
  lemma StoredRoleDashboards(r: Role)
    ensures DashboardFor(Some(RoleName(r))) == if r == Volunteer then "/volunteer-dashboard" else "/dashboard"
  {
  }

  /** The login screen's state. */
  class LoginScreen {
    var form: LoginForm
    var message: string
    /** The path last navigated to, if any. */
    var location: Option<string>
    const storage: LocalStorage

    constructor (storage: LocalStorage)
      ensures form == InitialForm && message == "" && location == None && this.storage == storage
    {
      form := InitialForm;
      message := "";
      location := None;
      this.storage := storage;
    }

    /** `handleChange`: only the named input's field changes. */
    method HandleChange(name: string, value: string)
      requires IsInput(name)
      modifies this
      ensures form == Changed(old(form), name, value)
      ensures message == old(message) && location == old(location)
    {
      form := Changed(form, name, value);
    }

    /** The part of `handleSubmit` after the answer arrives: on success the
        session keys are written, the message set and the role's dashboard
        opened; on failure only the message changes, to the server's
        message or "Login failed ❌". */
    method OnResponse(ok: bool, data: ReplyData)
      modifies this, storage
      ensures form == old(form)
      ensures ok ==> storage.items == SessionWrites(old(storage.items), data)
      ensures ok ==> message == "Login successful ✅" && location == Some(DashboardFor(data.role))
      ensures !ok ==> storage.items == old(storage.items) && location == old(location)
      ensures !ok ==> message == OrElse(data.message, "Login failed ❌")
    {
      if ok {
        storage.SetItem("userId", JsString(data.userId));
        storage.SetItem("username", JsString(data.username));
        storage.SetItem("role", JsString(data.role));
        storage.SetItem("accessLevel", OrElse(data.accessLevel, ""));
        if Truthy(data.generalType) {
          storage.SetItem("generalType", data.generalType.value);
        }
        message := "Login successful ✅";
        location := Some(DashboardFor(data.role));
      } else {
        message := OrElse(data.message, "Login failed ❌");
      }
    }

    /** The `catch` of `handleSubmit`: only the message changes. */
    method OnNetworkError()
      modifies this
      ensures message == "Something went wrong"
      ensures form == old(form) && location == old(location)
    {
      message := "Something went wrong";
    }
  }

  /** What a successful login through the real route leaves in the session:
      accessLevel is always the empty string, and generalType is never
      written, so a value from an earlier session survives. */
  lemma ServerLoginSession(items: map<string, string>, r: LoginRoutes.UserReply)
    ensures SessionWrites(items, DataOf(r))["accessLevel"] == ""
    ensures SessionWrites(items, DataOf(r))["role"] == RoleName(r.role)
    ensures "generalType" in items ==> SessionWrites(items, DataOf(r))["generalType"] == items["generalType"]
    ensures "generalType" !in items ==> "generalType" !in SessionWrites(items, DataOf(r))
  {
  }
}
