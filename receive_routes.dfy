/** The receiver-side routes of Server/Routes/recieveRoutes.js: the pending
    listing (`GET /donations/pending`) and a request against one donation
    (`POST /recievers/donations/request/:donationId`). */
module ReceiveRoutes {
  import opened Common
  import opened DonationSchema
  import opened Store
  import DonationRoutes

  /** `GET /donations/pending`: every Pending donation, newest first, with all
      of its foods; no expiry test is made. */
  function PendingDonations(db: Database): (r: seq<Donation>)
    reads db
    ensures NewestFirst(r)
    ensures multiset(r) == multiset(Filter(db.donations, DonationRoutes.IsPending))
    ensures forall d :: d in r <==> d in db.donations && d.status == DonationStatus.Pending
  {
    var pending := Filter(db.donations, DonationRoutes.IsPending);
    FilterMembers(db.donations, DonationRoutes.IsPending);
    var r := SortNewestFirst(pending);
    SameMembers(r, pending);
    r
  }

  /** Unlike the available listing, the pending listing shows a Pending
      donation whose foods have all expired, with those foods. */
  lemma PendingShowsExpired(db: Database, d: Donation, now: Millis)
    requires d in db.donations && d.status == DonationStatus.Pending
    requires d.foods != [] && forall f :: f in d.foods ==> !DonationRoutes.Unexpired(f, d.createdAt, now)
    ensures d in PendingDonations(db)
    ensures DonationRoutes.WithFreshFoods(d, now) !in DonationRoutes.AllDonations(db, now)
  {
    DonationRoutes.AllDonationsListing(db, now, d);
  }

  /** The answer to a request, given the stored donations, the id the new
      Receive would get and the time: the three checks in order, then the
      Receive that copies the donation. */
  function Request(donations: seq<Donation>, donationId: Id, receiverId: Option<Id>, id: Id, now: Millis): (res: Response<Receive>)
    ensures receiverId.None? ==> res == Err(400, "receiverId is required")
    ensures receiverId.Some? && FindDonation(donations, donationId).None? ==> res == Err(404, "Donation not found")
    ensures receiverId.Some? && FindDonation(donations, donationId).Some? && FindDonation(donations, donationId).value.foods == [] ==>
              res == Err(400, "Donation has no available foods")
    ensures res.Ok? <==> receiverId.Some? && FindDonation(donations, donationId).Some? && FindDonation(donations, donationId).value.foods != []
    ensures res.Ok? ==>
              var d := FindDonation(donations, donationId).value;
              && res.code == 200
              && res.value.userId == receiverId.value
              && res.value.requestedFoods == d.foods && res.value.location == d.location
              && res.value.linkedDonation == Some(donationId)
              && res.value.status == ReceiveStatus.Pending && res.value.id == id
  {
    if receiverId.None? then Err(400, "receiverId is required")
    else match FindDonation(donations, donationId)
      case None => Err(404, "Donation not found")
      case Some(d) =>
        if d.foods == [] then Err(400, "Donation has no available foods")
        else Ok(200, NewReceive(id, receiverId.value, d.foods, d.location, Some(d.id), now))
  }

  /** A request is answered without regard to the donation's status or to the
      expiry of its foods: any stored donation with a food can be requested,
      whatever its status and however old. */
  lemma RequestIgnoresStatusAndExpiry(donations: seq<Donation>, k: nat, receiver: Id, id: Id, now: Millis)
    requires k < |donations| && donations[k].foods != []
    requires forall i, j :: 0 <= i < j < |donations| ==> donations[i].id != donations[j].id
    ensures Request(donations, donations[k].id, Some(receiver), id, now).Ok?
    ensures Request(donations, donations[k].id, Some(receiver), id, now).value.requestedFoods == donations[k].foods
  {
    var d := FindDonation(donations, donations[k].id).value;
    assert d in donations;
    var i :| 0 <= i < |donations| && donations[i] == d;
    assert i == k;
  }

  /** `POST /recievers/donations/request/:donationId` at time `now`. Only a
      200 answer adds a Receive; the donation is never changed. */
  method RequestDonation(db: Database, donationId: Id, receiverId: Option<Id>, now: Millis)
    returns (res: Response<Receive>)
    requires db.Valid()
    modifies db
    ensures db.Valid()
    ensures res == Request(old(db.donations), donationId, receiverId, old(db.nextId), now)
    ensures res.Ok? ==> db.receives == old(db.receives) + [res.value]
    ensures res.Ok? ==> forall i :: 0 <= i < |old(db.receives)| ==> old(db.receives)[i].id != res.value.id
    ensures !res.Ok? ==> db.receives == old(db.receives)
    ensures db.donations == old(db.donations) && db.users == old(db.users)
  {
    if receiverId.None? {
      return Err(400, "receiverId is required");
    }
    var donation := FindDonation(db.donations, donationId);
    if donation.None? {
      return Err(404, "Donation not found");
    }
    if |donation.value.foods| == 0 {
      return Err(400, "Donation has no available foods");
    }
    var d := donation.value;
    var receive := db.InsertReceive(receiverId.value, d.foods, d.location, Some(d.id), now);
    res := Ok(200, receive);
  }

  /** Two requests against the same donation both succeed and add two
      distinct Receives linked to it, since the first changes nothing about
      the donation. */
  method RequestTwice(db: Database, donationId: Id, first: Id, second: Id, now: Millis)
    returns (a: Response<Receive>, b: Response<Receive>)
    requires db.Valid()
    requires FindDonation(db.donations, donationId).Some? && FindDonation(db.donations, donationId).value.foods != []
    modifies db
    ensures a.Ok? && b.Ok?
    ensures a.value.id != b.value.id
    ensures a.value.linkedDonation == b.value.linkedDonation == Some(donationId)
    ensures a.value.requestedFoods == b.value.requestedFoods
    ensures db.donations == old(db.donations)
    ensures db.receives == old(db.receives) + [a.value, b.value]
  {
    a := RequestDonation(db, donationId, Some(first), now);
    var after := db.receives;
    b := RequestDonation(db, donationId, Some(second), now);
    assert after[|after| - 1] == a.value;
  }
}
