/** The signup screen of Rescue-connect/src/signup.jsx: a form with a nested
    `volunteerInfo` record, an optional proof document, and the multipart
    body it posts to `/api/signup`. `JSON.stringify` is a parameter and
    `fetch` is left out. */
module SignupPage {
  import opened Common
  import opened Multipart

  /** The nested volunteer inputs. */
  datatype VolunteerForm = VolunteerForm(vehicleNo: string, licenseNo: string, whoTheyAre: string)

  /** The form, its top-level keys in declaration order. */
  datatype SignupForm = SignupForm(
    username: string,
    email: string,
    mobile: string,
    password: string,
    role: string,
    generalType: string,
    volunteerInfo: VolunteerForm)

  /** The form before any input: empty strings, role "volunteer". */
  const InitialForm := SignupForm("", "", "", "", "volunteer", "", VolunteerForm("", "", ""))

  /** `Object.keys(formData)`; changes never add or reorder keys. */
  const FormKeys: seq<string> := ["username", "email", "mobile", "password", "role", "generalType", "volunteerInfo"]

  predicate IsVolunteerInput(name: string) {
    name == "vehicleNo" || name == "licenseNo" || name == "whoTheyAre"
  }

  /** The top-level inputs that hold a string. */
  predicate IsTopInput(name: string) {
    name == "username" || name == "email" || name == "mobile" || name == "password"
    || name == "role" || name == "generalType"
  }

  function TopField(f: SignupForm, name: string): string
    requires IsTopInput(name)
  {
    match name
    case "username" => f.username
    case "email" => f.email
    case "mobile" => f.mobile
    case "password" => f.password
    case "role" => f.role
    case _ => f.generalType
  }

  function VolunteerField(v: VolunteerForm, name: string): string
    requires IsVolunteerInput(name)
  {
    if name == "vehicleNo" then v.vehicleNo else if name == "licenseNo" then v.licenseNo else v.whoTheyAre
  }

  /** `handleChange`: a volunteer input changes only that field of
      `volunteerInfo`; any other input changes only its own top-level
      field. */
  function SignupChanged(f: SignupForm, name: string, value: string): (r: SignupForm)
    requires IsVolunteerInput(name) || IsTopInput(name)
    ensures IsVolunteerInput(name) ==>
              && VolunteerField(r.volunteerInfo, name) == value
              && (forall other :: IsVolunteerInput(other) && other != name ==>
                    VolunteerField(r.volunteerInfo, other) == VolunteerField(f.volunteerInfo, other))
              && (forall top :: IsTopInput(top) ==> TopField(r, top) == TopField(f, top))
    ensures IsTopInput(name) ==>
              && TopField(r, name) == value
              && (forall other :: IsTopInput(other) && other != name ==> TopField(r, other) == TopField(f, other))
              && r.volunteerInfo == f.volunteerInfo
  {
    match name
    case "vehicleNo" => f.(volunteerInfo := f.volunteerInfo.(vehicleNo := value))
    case "licenseNo" => f.(volunteerInfo := f.volunteerInfo.(licenseNo := value))
    case "whoTheyAre" => f.(volunteerInfo := f.volunteerInfo.(whoTheyAre := value))
    case "username" => f.(username := value)
    case "email" => f.(email := value)
    case "mobile" => f.(mobile := value)
    case "password" => f.(password := value)
    case "role" => f.(role := value)
    case _ => f.(generalType := value)
  }

  /** The text appended for a key: strings as they are, the nested record
      as JSON. */
  function KeyText(f: SignupForm, key: string, stringify: VolunteerForm -> string): string
    requires key in FormKeys
  {
    if key == "volunteerInfo" then stringify(f.volunteerInfo) else TopField(f, key)
  }

  /** One entry per key of `keys`, in order. */
  function KeyEntries(f: SignupForm, keys: seq<string>, stringify: VolunteerForm -> string): (r: seq<Entry>)
    requires forall k :: 0 <= k < |keys| ==> keys[k] in FormKeys
    ensures |r| == |keys|
  {
    if keys == [] then []
    else [TextEntry(keys[0], KeyText(f, keys[0], stringify))] + KeyEntries(f, keys[1..], stringify)
  }

  /** The whole body: every key, then the proof document when one was
      chosen. */
  function SignupEntries(f: SignupForm, file: Option<File>, stringify: VolunteerForm -> string): seq<Entry> {
    KeyEntries(f, FormKeys, stringify) + (if file.Some? then [FileEntry("proofDocument", file.value)] else [])
  }

  /** Entries for distinct keys hold, under each of those keys, exactly one
      text, and nothing under any other key. */
  lemma {:induction false} KeyEntriesContent(f: SignupForm, keys: seq<string>, stringify: VolunteerForm -> string, key: string)
    requires forall k :: 0 <= k < |keys| ==> keys[k] in FormKeys
    requires forall i, j :: 0 <= i < j < |keys| ==> keys[i] != keys[j]
    ensures key in keys ==> TextsUnder(KeyEntries(f, keys, stringify), key) == [KeyText(f, key, stringify)]
    ensures key in keys ==> CountKey(KeyEntries(f, keys, stringify), key) == 1
    ensures key !in keys ==> TextsUnder(KeyEntries(f, keys, stringify), key) == []
    ensures key !in keys ==> CountKey(KeyEntries(f, keys, stringify), key) == 0
    ensures FilesUnder(KeyEntries(f, keys, stringify), key) == []
  {
    if keys != [] {
      KeyEntriesContent(f, keys[1..], stringify, key);
      if keys[0] == key {
        assert key !in keys[1..];
      } else if key in keys {
        assert key in keys[1..];
      }
    }
  }

  /** Every form key is appended exactly once with its text, and
      proofDocument is appended once when a file was chosen and never
      otherwise. */
  lemma SignupEntriesContent(f: SignupForm, file: Option<File>, stringify: VolunteerForm -> string, key: string)
    ensures key in FormKeys ==> TextsUnder(SignupEntries(f, file, stringify), key) == [KeyText(f, key, stringify)]
    ensures key in FormKeys ==> CountKey(SignupEntries(f, file, stringify), key) == 1
    ensures CountKey(SignupEntries(f, file, stringify), "proofDocument") == if file.Some? then 1 else 0
    ensures FilesUnder(SignupEntries(f, file, stringify), "proofDocument") == if file.Some? then [file.value] else []
  {
    var body := KeyEntries(f, FormKeys, stringify);
    var tail := if file.Some? then [FileEntry("proofDocument", file.value)] else [];
    KeyEntriesContent(f, FormKeys, stringify, key);
    KeyEntriesContent(f, FormKeys, stringify, "proofDocument");
    TextsUnderAppend(body, tail, key);
    CountKeyAppend(body, tail, key);
    CountKeyAppend(body, tail, "proofDocument");
    FilesUnderAppend(body, tail, "proofDocument");
  }

  /** The signup screen's state. */
  class SignupScreen {
    var form: SignupForm
    var file: Option<File>
    var message: string

    constructor ()
      ensures form == InitialForm && file == None && message == ""
    {
      form := InitialForm;
      file := None;
      message := "";
    }

    /** `handleChange`. */
    method HandleChange(name: string, value: string)
      requires IsVolunteerInput(name) || IsTopInput(name)
      modifies this
      ensures form == SignupChanged(old(form), name, value)
      ensures file == old(file) && message == old(message)
    {
      form := SignupChanged(form, name, value);
    }

    /** `handleFileChange`: the first chosen file, or none when the choice
        was cancelled. */
    method HandleFileChange(chosen: Option<File>)
      modifies this
      ensures file == chosen
      ensures form == old(form) && message == old(message)
    {
      file := chosen;
    }

    /** `handleSubmit` up to the request: the body built key by key. */
    method Submit(stringify: VolunteerForm -> string) returns (body: seq<Entry>)
      ensures body == SignupEntries(form, file, stringify)
    {
      body := [];
      var i := 0;
      while i < |FormKeys|
        invariant 0 <= i <= |FormKeys|
        invariant body + KeyEntries(form, FormKeys[i..], stringify) == KeyEntries(form, FormKeys, stringify)
      {
        var key := FormKeys[i];
        assert FormKeys[i..][1..] == FormKeys[i + 1..];
        if key == "volunteerInfo" {
          body := body + [TextEntry(key, stringify(form.volunteerInfo))];
        } else {
          body := body + [TextEntry(key, TopField(form, key))];
        }
        i := i + 1;
      }
      if file.Some? {
        body := body + [FileEntry("proofDocument", file.value)];
      }
    }

    /** After the answer: "Signup successful ✅", or the server's message, or
        "Signup failed ❌". */
    method OnResponse(ok: bool, serverMessage: Option<string>)
      modifies this
      ensures ok ==> message == "Signup successful ✅"
      ensures !ok ==> message == OrElse(serverMessage, "Signup failed ❌")
      ensures form == old(form) && file == old(file)
    {
      message := if ok then "Signup successful ✅" else OrElse(serverMessage, "Signup failed ❌");
    }

    /** The `catch` of `handleSubmit`: only the message changes. */
    method OnNetworkError()
      modifies this
      ensures message == "Something went wrong"
      ensures form == old(form) && file == old(file)
    {
      message := "Something went wrong";
    }
  }
}
