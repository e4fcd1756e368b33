/** The donation page of
    Rescue-connect/src/components/DonatePage/DonationPage.jsx: a list of
    food rows edited in place, a location, and the multipart body the page
    posts. `JSON.stringify` is a parameter, preview URLs are given, and the
    camera, geolocation and `axios` are left out. */
module DonationPage {
  import opened Common
  import opened Multipart
  import Text

  /** One food row; every input is a string. */
  datatype PageFood = PageFood(
    name: string,
    quantity: string,
    unit: string,
    expiryDuration: string,
    photo: Option<File>,
    preview: Option<string>)

  /** The row the page starts with and adds. */
  const BlankFood := PageFood("", "", "kg", "", None, None)

  /** The fields `handleFoodChange` is called with. */
  predicate IsFoodInput(field: string) {
    field == "name" || field == "quantity" || field == "unit" || field == "expiryDuration"
  }

  function FoodField(f: PageFood, field: string): string
    requires IsFoodInput(field)
  {
    if field == "name" then f.name
    else if field == "quantity" then f.quantity
    else if field == "unit" then f.unit
    else f.expiryDuration
  }

  /** `food[field] = value`: that field changes, every other is kept. */
  function FoodChanged(f: PageFood, field: string, value: string): (r: PageFood)
    requires IsFoodInput(field)
    ensures FoodField(r, field) == value
    ensures forall other :: IsFoodInput(other) && other != field ==> FoodField(r, other) == FoodField(f, other)
    ensures r.photo == f.photo && r.preview == f.preview
  {
    match field
    case "name" => f.(name := value)
    case "quantity" => f.(quantity := value)
    case "unit" => f.(unit := value)
    case _ => f.(expiryDuration := value)
  }

  /** `foods.filter((_, i) => i !== index)`. */
  function RemoveAt<T>(s: seq<T>, index: nat): (r: seq<T>)
    requires index < |s|
    ensures |r| == |s| - 1
    ensures forall k :: 0 <= k < index ==> r[k] == s[k]
    ensures forall k :: index <= k < |r| ==> r[k] == s[k + 1]
  {
    s[..index] + s[index + 1..]
  }

  /** The location inputs. */
  datatype PageLocation = PageLocation(lat: string, lng: string, address: string)

  const EmptyLocation := PageLocation("", "", "")

  predicate IsLocationInput(field: string) {
    field == "lat" || field == "lng" || field == "address"
  }

  function LocationChanged(l: PageLocation, field: string, value: string): (r: PageLocation)
    requires IsLocationInput(field)
    ensures field == "lat" ==> r == l.(lat := value)
    ensures field == "lng" ==> r == l.(lng := value)
    ensures field == "address" ==> r == l.(address := value)
  {
    match field
    case "lat" => l.(lat := value)
    case "lng" => l.(lng := value)
    case _ => l.(address := value)
  }

  /** The four fields serialised for each row; the photo is sent apart. */
  datatype RowJson = RowJson(name: string, quantity: string, unit: string, expiryDuration: string)

  function RowsJson(foods: seq<PageFood>): (r: seq<RowJson>)
    ensures |r| == |foods|
    ensures forall k :: 0 <= k < |foods| ==>
              r[k] == RowJson(foods[k].name, foods[k].quantity, foods[k].unit, foods[k].expiryDuration)
  {
    if foods == [] then []
    else [RowJson(foods[0].name, foods[0].quantity, foods[0].unit, foods[0].expiryDuration)] + RowsJson(foods[1..])
  }

  /** The key of the photo of row `i`: `foods[i][photo]`. */
  function PhotoKey(i: nat): string {
    "foods[" + Text.Decimal(i) + "][photo]"
  }

  /** Rows have distinct photo keys. */
  lemma PhotoKeyInjective(i: nat, j: nat)
    requires PhotoKey(i) == PhotoKey(j)
    ensures i == j
  {
    var a, b := Text.Decimal(i), Text.Decimal(j);
    assert |a| == |b|;
    assert a == PhotoKey(i)[6..6 + |a|];
    assert b == PhotoKey(j)[6..6 + |b|];
    Text.DecimalInjective(i, j);
  }

  /** The photo entries for rows numbered from `first`, in row order. */
  function PhotoEntries(foods: seq<PageFood>, first: nat): seq<Entry> {
    if foods == [] then []
    else
      (if foods[0].photo.Some? then [FileEntry(PhotoKey(first), foods[0].photo.value)] else [])
      + PhotoEntries(foods[1..], first + 1)
  }

  /** `null` as `FormData.append` writes it. */
  function NullableText(s: Option<string>): string {
    if s.Some? then s.value else "null"
  }

  /** The text fields in front of the photos: userId, lat, lng, address
      and one "foods" text holding every row. */
  function HeadEntries(userId: Option<string>, location: PageLocation, foodsJson: string): seq<Entry> {
    [TextEntry("userId", NullableText(userId)), TextEntry("lat", location.lat), TextEntry("lng", location.lng),
     TextEntry("address", location.address), TextEntry("foods", foodsJson)]
  }

  /** The whole body: the text fields, then the photos keyed by row. */
  function PageEntries(userId: Option<string>, location: PageLocation, foods: seq<PageFood>,
                       stringify: seq<RowJson> -> string): seq<Entry> {
    HeadEntries(userId, location, stringify(RowsJson(foods))) + PhotoEntries(foods, 0)
  }

  lemma HeadContent(userId: Option<string>, location: PageLocation, foodsJson: string, key: string)
    ensures TextsUnder(HeadEntries(userId, location, foodsJson), "foods") == [foodsJson]
    ensures FilesUnder(HeadEntries(userId, location, foodsJson), key) == []
  {
    var h := HeadEntries(userId, location, foodsJson);
    var h1, h2, h3, h4 := h[1..], h[2..], h[3..], h[4..];
    assert h1[1..] == h2 && h2[1..] == h3 && h3[1..] == h4 && h4[1..] == [];
    assert TextsUnder(h4, "foods") == [foodsJson];
    assert TextsUnder(h3, "foods") == [foodsJson];
    assert TextsUnder(h2, "foods") == [foodsJson];
    assert TextsUnder(h1, "foods") == [foodsJson];
    assert FilesUnder(h4, key) == [];
    assert FilesUnder(h3, key) == [];
    assert FilesUnder(h2, key) == [];
    assert FilesUnder(h1, key) == [];
  }

  /** Under the key of row `first + k` there is that row's photo when it has
      one and nothing otherwise; no text is written under a photo key. */
  lemma {:induction false} PhotoEntriesAt(foods: seq<PageFood>, first: nat, k: nat)
    requires k < |foods|
    ensures FilesUnder(PhotoEntries(foods, first), PhotoKey(first + k)) ==
              if foods[k].photo.Some? then [foods[k].photo.value] else []
  {
    var head := if foods[0].photo.Some? then [FileEntry(PhotoKey(first), foods[0].photo.value)] else [];
    var rest := PhotoEntries(foods[1..], first + 1);
    FilesUnderAppend(head, rest, PhotoKey(first + k));
    if k == 0 {
      PhotoEntriesMiss(foods[1..], first + 1, first);
    } else {
      PhotoEntriesAt(foods[1..], first + 1, k - 1);
      if foods[0].photo.Some? && PhotoKey(first) == PhotoKey(first + k) {
        PhotoKeyInjective(first, first + k);
      }
    }
  }

  /** Rows numbered from `first` write nothing under the key of an earlier
      row. */
  lemma {:induction false} PhotoEntriesMiss(foods: seq<PageFood>, first: nat, i: nat)
    requires i < first
    ensures FilesUnder(PhotoEntries(foods, first), PhotoKey(i)) == []
  {
    if foods != [] {
      var head := if foods[0].photo.Some? then [FileEntry(PhotoKey(first), foods[0].photo.value)] else [];
      FilesUnderAppend(head, PhotoEntries(foods[1..], first + 1), PhotoKey(i));
      PhotoEntriesMiss(foods[1..], first + 1, i);
      if PhotoKey(first) == PhotoKey(i) {
        PhotoKeyInjective(first, i);
      }
    }
  }

  lemma {:induction false} PhotoEntriesNoText(foods: seq<PageFood>, first: nat, key: string)
    ensures TextsUnder(PhotoEntries(foods, first), key) == []
  {
    if foods != [] {
      var head := if foods[0].photo.Some? then [FileEntry(PhotoKey(first), foods[0].photo.value)] else [];
      TextsUnderAppend(head, PhotoEntries(foods[1..], first + 1), key);
      PhotoEntriesNoText(foods[1..], first + 1, key);
    }
  }

  /** The body holds a single "foods" text, the JSON of every row in row
      order. */
  lemma PageEntriesFoods(head: seq<Entry>, foods: seq<PageFood>, json: string)
    requires TextsUnder(head, "foods") == [json]
    ensures TextsUnder(head + PhotoEntries(foods, 0), "foods") == [json]
  {
    TextsUnderAppend(head, PhotoEntries(foods, 0), "foods");
    PhotoEntriesNoText(foods, 0, "foods");
  }

  /** Under each row's photo key the body holds exactly that row's photo
      when it has one. */
  lemma PageEntriesPhotos(head: seq<Entry>, foods: seq<PageFood>, k: nat)
    requires k < |foods| && FilesUnder(head, PhotoKey(k)) == []
    ensures FilesUnder(head + PhotoEntries(foods, 0), PhotoKey(k)) ==
              if foods[k].photo.Some? then [foods[k].photo.value] else []
  {
    FilesUnderAppend(head, PhotoEntries(foods, 0), PhotoKey(k));
    PhotoEntriesAt(foods, 0, k);
  }

  /** The body holds a single "foods" text, the JSON of every row in row
      order, and under each row's photo key exactly that row's photo when it
      has one. */
  lemma PageEntriesContent(userId: Option<string>, location: PageLocation, foods: seq<PageFood>,
                           stringify: seq<RowJson> -> string, k: nat)
    requires k < |foods|
    ensures TextsUnder(PageEntries(userId, location, foods, stringify), "foods") == [stringify(RowsJson(foods))]
    ensures FilesUnder(PageEntries(userId, location, foods, stringify), PhotoKey(k)) ==
              if foods[k].photo.Some? then [foods[k].photo.value] else []
  {
    var json := stringify(RowsJson(foods));
    var head := HeadEntries(userId, location, json);
    HeadContent(userId, location, json, PhotoKey(k));
    PageEntriesFoods(head, foods, json);
    PageEntriesPhotos(head, foods, k);
  }

  /** The page's state. */
  class DonationPageState {
    var foods: seq<PageFood>
    var location: PageLocation
    var message: string

    /** There is always at least one row: removing is offered only while
        there are two or more. */
    ghost predicate Valid()
      reads this
    {
      |foods| >= 1
    }

    constructor ()
      ensures Valid()
      ensures foods == [BlankFood] && location == EmptyLocation && message == ""
    {
      foods := [BlankFood];
      location := EmptyLocation;
      message := "";
    }

    /** `handleFoodChange(index, field, value)`: only that field of that row
        changes. */
    method HandleFoodChange(index: nat, field: string, value: string)
      requires Valid() && index < |foods| && IsFoodInput(field)
      modifies this
      ensures Valid()
      ensures foods == old(foods)[index := FoodChanged(old(foods)[index], field, value)]
      ensures location == old(location) && message == old(message)
    {
      foods := foods[index := FoodChanged(foods[index], field, value)];
    }

    /** `handleFileChange(index, file)`: no file changes nothing; a file
        becomes that row's photo, with its preview URL. */
    method HandleFileChange(index: nat, file: Option<File>, previewUrl: string)
      requires Valid() && index < |foods|
      modifies this
      ensures Valid()
      ensures file.None? ==> foods == old(foods)
      ensures file.Some? ==> foods == old(foods)[index := old(foods)[index].(photo := file, preview := Some(previewUrl))]
      ensures location == old(location) && message == old(message)
    {
      if file.None? {
        return;
      }
      foods := foods[index := foods[index].(photo := file, preview := Some(previewUrl))];
    }

    /** `addFood`: one blank row at the end. */
    method AddFood()
      requires Valid()
      modifies this
      ensures Valid()
      ensures foods == old(foods) + [BlankFood]
      ensures location == old(location) && message == old(message)
    {
      foods := foods + [BlankFood];
    }

    /** `removeFood(index)`, offered only while there are two rows or more:
        exactly row `index` goes, the rest keep their order. */
    method RemoveFood(index: nat)
      requires Valid() && |foods| > 1 && index < |foods|
      modifies this
      ensures Valid()
      ensures foods == RemoveAt(old(foods), index)
      ensures location == old(location) && message == old(message)
    {
      foods := RemoveAt(foods, index);
    }

    /** `handleLocationChange(field, value)`. */
    method HandleLocationChange(field: string, value: string)
      requires Valid() && IsLocationInput(field)
      modifies this
      ensures Valid()
      ensures location == LocationChanged(old(location), field, value)
      ensures foods == old(foods) && message == old(message)
    {
      location := LocationChanged(location, field, value);
    }

    /** `handleSubmit` up to the request: the body, with the photos appended
        row by row. */
    method Submit(userId: Option<string>, stringify: seq<RowJson> -> string) returns (body: seq<Entry>)
      ensures body == PageEntries(userId, location, foods, stringify)
    {
      body := [TextEntry("userId", NullableText(userId)), TextEntry("lat", location.lat), TextEntry("lng", location.lng),
               TextEntry("address", location.address), TextEntry("foods", stringify(RowsJson(foods)))];
      assert body == HeadEntries(userId, location, stringify(RowsJson(foods)));
      var index := 0;
      while index < |foods|
        invariant 0 <= index <= |foods|
        invariant body + PhotoEntries(foods[index..], index) == PageEntries(userId, location, foods, stringify)
      {
        var food := foods[index];
        assert foods[index..][1..] == foods[index + 1..];
        if food.photo.Some? {
          body := body + [FileEntry(PhotoKey(index), food.photo.value)];
        }
        index := index + 1;
      }
    }

    /** After the request: success resets to one blank row and an empty
        location; failure keeps the form and shows the server's message or
        "Error posting donation ❌". */
    method OnSubmitted(ok: bool, serverMessage: Option<string>)
      requires Valid()
      modifies this
      ensures Valid()
      ensures ok ==> foods == [BlankFood] && location == EmptyLocation && message == "Donation posted successfully ✅"
      ensures !ok ==> foods == old(foods) && location == old(location)
      ensures !ok ==> message == OrElse(serverMessage, "Error posting donation ❌")
    {
      if ok {
        message := "Donation posted successfully ✅";
        foods := [BlankFood];
        location := EmptyLocation;
      } else {
        message := OrElse(serverMessage, "Error posting donation ❌");
      }
    }
  }
}
