/** The donation form of Rescue-connect/src/Donate.jsx: a draft food being
    filled in, the list of foods added so far, and the multipart body the
    form sends to `/api/add-donation`. `JSON.stringify` is a parameter, the
    preview URL is given, and the camera and `fetch` are left out. */
module DonateForm {
  import opened Common
  import opened Multipart

  /** A food as the form holds it: every input is a string. */
  datatype FoodDraft = FoodDraft(
    name: string,
    quantity: string,
    unit: string,
    photo: Option<File>,
    preview: Option<string>,
    expiryDuration: string,
    status: string)

  /** The draft the form starts from and returns to after each add. */
  const BlankDraft := FoodDraft("", "", "kg", None, None, "", "Pending")

  /** The names of the draft's inputs. */
  predicate IsDraftInput(name: string) {
    name == "name" || name == "quantity" || name == "unit" || name == "expiryDuration"
  }

  /** `newFood[name]` for an input. */
  function DraftField(f: FoodDraft, name: string): string
    requires IsDraftInput(name)
  {
    if name == "name" then f.name
    else if name == "quantity" then f.quantity
    else if name == "unit" then f.unit
    else f.expiryDuration
  }

  /** `{ ...newFood, [name]: value }`: the named input takes `value`, every
      other field of the draft is kept. */
  function DraftChanged(f: FoodDraft, name: string, value: string): (r: FoodDraft)
    requires IsDraftInput(name)
    ensures DraftField(r, name) == value
    ensures forall other :: IsDraftInput(other) && other != name ==> DraftField(r, other) == DraftField(f, other)
    ensures r.photo == f.photo && r.preview == f.preview && r.status == f.status
  {
    match name
    case "name" => f.(name := value)
    case "quantity" => f.(quantity := value)
    case "unit" => f.(unit := value)
    case _ => f.(expiryDuration := value)
  }

  /** The draft can be added: name, quantity and expiry are all filled in. */
  predicate Filled(f: FoodDraft) {
    f.name != "" && f.quantity != "" && f.expiryDuration != ""
  }

  /** The object serialised for each food: the photo and preview are not in
      it. */
  datatype FoodJson = FoodJson(name: string, quantity: string, unit: string, expiryDuration: string, status: string)

  function JsonOf(f: FoodDraft): FoodJson {
    FoodJson(f.name, f.quantity, f.unit, f.expiryDuration, f.status)
  }

  /** The entries appended for the foods, in list order: one "foods" text
      per food, followed by a "photos" file when that food has a photo. */
  function FoodEntries(foods: seq<FoodDraft>, stringify: FoodJson -> string): seq<Entry> {
    if foods == [] then []
    else
      [TextEntry("foods", stringify(JsonOf(foods[0])))]
      + (if foods[0].photo.Some? then [FileEntry("photos", foods[0].photo.value)] else [])
      + FoodEntries(foods[1..], stringify)
  }

  /** The whole body: userId (as `String()` makes it), the location JSON,
      then the foods. */
  function DonationEntries(userId: Option<string>, locationJson: string, foods: seq<FoodDraft>,
                           stringify: FoodJson -> string): seq<Entry> {
    [TextEntry("userId", JsString(userId)), TextEntry("location", locationJson)] + FoodEntries(foods, stringify)
  }

  /** The serialised foods, in list order. */
  function Serialised(foods: seq<FoodDraft>, stringify: FoodJson -> string): (r: seq<string>)
    ensures |r| == |foods|
    ensures forall k :: 0 <= k < |foods| ==> r[k] == stringify(JsonOf(foods[k]))
  {
    if foods == [] then [] else [stringify(JsonOf(foods[0]))] + Serialised(foods[1..], stringify)
  }

  /** The photos of the foods that have one, in list order; foods without a
      photo leave no gap. */
  function Photos(foods: seq<FoodDraft>): (r: seq<File>)
    ensures |r| <= |foods|
  {
    if foods == [] then []
    else (if foods[0].photo.Some? then [foods[0].photo.value] else []) + Photos(foods[1..])
  }

  /** The body holds one "foods" text per food, in order, and under
      "photos" exactly the photos of the foods that have one, in order. */
  lemma {:induction false} FoodEntriesContent(foods: seq<FoodDraft>, stringify: FoodJson -> string)
    ensures TextsUnder(FoodEntries(foods, stringify), "foods") == Serialised(foods, stringify)
    ensures FilesUnder(FoodEntries(foods, stringify), "photos") == Photos(foods)
    ensures TextsUnder(FoodEntries(foods, stringify), "userId") == []
    ensures TextsUnder(FoodEntries(foods, stringify), "location") == []
  {
    if foods != [] {
      var head := [TextEntry("foods", stringify(JsonOf(foods[0])))]
                  + (if foods[0].photo.Some? then [FileEntry("photos", foods[0].photo.value)] else []);
      var rest := FoodEntries(foods[1..], stringify);
      assert FoodEntries(foods, stringify) == head + rest;
      FoodEntriesContent(foods[1..], stringify);
      TextsUnderAppend(head, rest, "foods");
      FilesUnderAppend(head, rest, "photos");
      TextsUnderAppend(head, rest, "userId");
      TextsUnderAppend(head, rest, "location");
    }
  }

  /** The form's state. */
  class DonateState {
    var foods: seq<FoodDraft>
    var newFood: FoodDraft
    var formOpen: bool

    constructor ()
      ensures foods == [] && newFood == BlankDraft && !formOpen
    {
      foods := [];
      newFood := BlankDraft;
      formOpen := false;
    }

    /** `handleChange`: only the named input of the draft changes. */
    method HandleChange(name: string, value: string)
      requires IsDraftInput(name)
      modifies this
      ensures newFood == DraftChanged(old(newFood), name, value)
      ensures foods == old(foods) && formOpen == old(formOpen)
    {
      newFood := DraftChanged(newFood, name, value);
    }

    /** `handleFileChange`: a chosen file becomes the draft's photo with its
        preview URL; choosing nothing changes nothing. */
    method HandleFileChange(file: Option<File>, previewUrl: string)
      modifies this
      ensures file.Some? ==> newFood == old(newFood).(photo := file, preview := Some(previewUrl))
      ensures file.None? ==> newFood == old(newFood)
      ensures foods == old(foods) && formOpen == old(formOpen)
    {
      if file.Some? {
        newFood := newFood.(photo := file, preview := Some(previewUrl));
      }
    }

    /** `addFood`: a draft with an empty name, quantity or expiry is refused
        and nothing changes; otherwise it is appended, the draft is reset
        and the form closed. */
    method AddFood() returns (accepted: bool)
      modifies this
      ensures accepted <==> Filled(old(newFood))
      ensures accepted ==> foods == old(foods) + [old(newFood)] && newFood == BlankDraft && !formOpen
      ensures !accepted ==> foods == old(foods) && newFood == old(newFood) && formOpen == old(formOpen)
    {
      if newFood.name == "" || newFood.quantity == "" || newFood.expiryDuration == "" {
        return false;
      }
      foods := foods + [newFood];
      newFood := BlankDraft;
      formOpen := false;
      accepted := true;
    }

    /** `handleSubmit` up to the request: nothing is sent for an empty list;
        otherwise the body is built by appending, food by food. */
    method Submit(userId: Option<string>, locationJson: string, stringify: FoodJson -> string)
      returns (body: Option<seq<Entry>>)
      ensures body.None? <==> foods == []
      ensures body.Some? ==> body.value == DonationEntries(userId, locationJson, foods, stringify)
    {
      if |foods| == 0 {
        return None;
      }
      var entries := [TextEntry("userId", JsString(userId)), TextEntry("location", locationJson)];
      var i := 0;
      while i < |foods|
        invariant 0 <= i <= |foods|
        invariant entries + FoodEntries(foods[i..], stringify) == DonationEntries(userId, locationJson, foods, stringify)
      {
        var food := foods[i];
        assert foods[i..] == [food] + foods[i + 1..];
        entries := entries + [TextEntry("foods", stringify(JsonOf(food)))];
        if food.photo.Some? {
          entries := entries + [FileEntry("photos", food.photo.value)];
        }
        i := i + 1;
      }
      body := Some(entries);
    }

    /** After the answer: a success clears the list; a failure keeps it. */
    method OnSubmitted(ok: bool)
      modifies this
      ensures ok ==> foods == []
      ensures !ok ==> foods == old(foods)
      ensures newFood == old(newFood) && formOpen == old(formOpen)
    {
      if ok {
        foods := [];
      }
    }
  }
}
