/** The donation and receive documents of Server/modals/donationModal.js: the
    food-item and location sub-schemas, the two status enumerations with their
    defaults, and the validation a sub-document passes before it is stored. */
module DonationSchema {
  import opened Common

  /** Unit of a food quantity. */
  datatype Unit = Kg | Persons

  function UnitName(u: Unit): string {
    match u
    case Kg => "kg"
    case Persons => "persons"
  }

  /** The `enum` check on `unit`: only "kg" and "persons" are accepted. */
  function ParseUnit(s: string): (r: Option<Unit>)
    ensures r.Some? <==> s == "kg" || s == "persons"
    ensures r.Some? ==> UnitName(r.value) == s
  {
    if s == "kg" then Some(Kg) else if s == "persons" then Some(Persons) else None
  }

  lemma UnitNameRoundTrip(u: Unit)
    ensures ParseUnit(UnitName(u)) == Some(u)
  {
  }

  /** Donation lifecycle status; a new donation is `Pending`. */
  datatype DonationStatus = Pending | Accepted | Collected | Distributed

  /** Request status; a new request is `Pending`. */
  datatype ReceiveStatus = Pending | Confirmed | Completed

  /** A stored food item. The schema has no per-food status: a `status` given
      with a food is not kept. */
  datatype FoodItem = FoodItem(
    name: string,
    quantity: int,
    unit: Unit,
    photo: Option<string>,
    expiryDuration: int)   // hours

  datatype Location = Location(lat: int, lng: int, address: string)

  datatype Donation = Donation(
    id: Id,
    userId: Id,
    foods: seq<FoodItem>,
    location: Location,
    status: DonationStatus,
    acceptedBy: Option<Id>,
    createdAt: Millis)

  /** A receiver's request. Its `requestedFoods` have the same item type as a
      donation's `foods`, so a donation's list can be copied in unchanged. */
  datatype Receive = Receive(
    id: Id,
    userId: Id,
    requestedFoods: seq<FoodItem>,
    location: Location,
    status: ReceiveStatus,
    linkedDonation: Option<Id>,
    needsSupport: bool,
    assignedVolunteer: Option<Id>,
    createdAt: Millis)

  /** A donation as first stored: status `Pending`, not accepted by anyone. */
  function NewDonation(id: Id, userId: Id, foods: seq<FoodItem>, location: Location, createdAt: Millis): (d: Donation)
    ensures d.status == DonationStatus.Pending && d.acceptedBy == None
    ensures d.id == id && d.userId == userId && d.foods == foods && d.location == location && d.createdAt == createdAt
  {
    Donation(id, userId, foods, location, DonationStatus.Pending, None, createdAt)
  }

  /** A request as first stored: status `Pending`, no volunteer, no support
      needed. The link to a donation is given by the caller. */
  function NewReceive(id: Id, userId: Id, foods: seq<FoodItem>, location: Location,
                      linkedDonation: Option<Id>, createdAt: Millis): (r: Receive)
    ensures r.status == ReceiveStatus.Pending && r.needsSupport == false && r.assignedVolunteer == None
    ensures r.id == id && r.userId == userId && r.requestedFoods == foods && r.location == location
    ensures r.linkedDonation == linkedDonation && r.createdAt == createdAt
  {
    Receive(id, userId, foods, location, ReceiveStatus.Pending, linkedDonation, false, None, createdAt)
  }

  /** An unvalidated food sub-document: the fields a route hands to the
      schema, each possibly missing, plus the `status` the schema ignores. */
  datatype FoodDoc = FoodDoc(
    name: Option<string>,
    quantity: Option<int>,
    unit: Option<string>,
    photo: Option<string>,
    status: string,
    expiryDuration: Option<int>)

  /** An unvalidated location sub-document. */
  datatype LocationDoc = LocationDoc(lat: Option<int>, lng: Option<int>, address: Option<string>)

  /** Validation of one food sub-document: `name`, `quantity`, `unit` and
      `expiryDuration` are required (a required string must be non-empty),
      `unit` must be in its enumeration, `photo` is optional, and anything else
      is dropped. */
  function CastFood(d: FoodDoc): (r: Option<FoodItem>)
    ensures r.Some? <==> Truthy(d.name) && d.quantity.Some? && d.unit.Some?
                         && ParseUnit(d.unit.value).Some? && d.expiryDuration.Some?
    ensures r.Some? ==> && r.value.name == d.name.value
                        && r.value.quantity == d.quantity.value
                        && UnitName(r.value.unit) == d.unit.value
                        && r.value.photo == d.photo
                        && r.value.expiryDuration == d.expiryDuration.value
  {
    if Truthy(d.name) && d.quantity.Some? && d.unit.Some? && d.expiryDuration.Some? then
      match ParseUnit(d.unit.value)
      case Some(u) => Some(FoodItem(d.name.value, d.quantity.value, u, d.photo, d.expiryDuration.value))
      case None => None
    else None
  }

  /** The per-food status never reaches the store. */
  lemma CastFoodIgnoresStatus(d: FoodDoc, status: string)
    ensures CastFood(d.(status := status)) == CastFood(d)
  {
  }

  /** Validation of a list of food sub-documents: it succeeds exactly when
      every item validates, and then keeps length and order. */
  function CastFoods(ds: seq<FoodDoc>): (r: Option<seq<FoodItem>>)
    ensures r.Some? <==> forall k :: 0 <= k < |ds| ==> CastFood(ds[k]).Some?
    ensures r.Some? ==> |r.value| == |ds| && forall k :: 0 <= k < |ds| ==> CastFood(ds[k]) == Some(r.value[k])
  {
    if ds == [] then Some([])
    else
      match CastFood(ds[0])
      case None => None
      case Some(f) =>
        match CastFoods(ds[1..])
        case None => None
        case Some(fs) => Some([f] + fs)
  }

  /** Validation of a location: `lat` and `lng` are required and `address`
      defaults to the empty string. */
  function CastLocation(d: LocationDoc): (r: Option<Location>)
    ensures r.Some? <==> d.lat.Some? && d.lng.Some?
    ensures r.Some? ==> && r.value.lat == d.lat.value && r.value.lng == d.lng.value
                        && r.value.address == d.address.GetOr("")
  {
    if d.lat.Some? && d.lng.Some? then Some(Location(d.lat.value, d.lng.value, d.address.GetOr("")))
    else None
  }

  /** One hour, in milliseconds. */
  const Hour: int := 3_600_000

  /** The moment a food stops being available: its donation's creation time
      plus its expiry duration in whole hours. */
  function ExpiresAt(createdAt: Millis, expiryHours: int): Millis {
    createdAt + expiryHours * Hour
  }
}
