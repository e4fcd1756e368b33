/** The three persisted collections (Donations, Receives, Users) as sequences
    held by one object, with the id counter that stands for ObjectId
    generation, the unique indexes of the user schema, and the query helpers
    the routes use (`find` by a condition, `findById`, `sort` by creation
    time, newest first). */
module Store {
  import opened Common
  import opened DonationSchema
  import opened UserSchema

  /** The elements of `s` that satisfy `p`, in their original order. */
  function Filter<T(!new)>(s: seq<T>, p: T -> bool): (r: seq<T>)
    ensures |r| <= |s|
  {
    if s == [] then [] else (if p(s[0]) then [s[0]] else []) + Filter(s[1..], p)
  }

  /** The filter keeps exactly the elements that satisfy `p`, each as often
      as it occurs. */
  lemma {:induction false} FilterMembers<T(!new)>(s: seq<T>, p: T -> bool)
    ensures forall x :: x in Filter(s, p) <==> x in s && p(x)
    ensures multiset(Filter(s, p)) <= multiset(s)
    ensures forall x :: x in multiset(s) && p(x) ==> multiset(Filter(s, p))[x] == multiset(s)[x]
  {
    if s != [] {
      assert s == [s[0]] + s[1..];
      FilterMembers(s[1..], p);
    }
  }

  /** Filtering a list that starts with `x`: `x` is kept in front exactly
      when it satisfies `p`. */
  lemma FilterCons<T(!new)>(x: T, s: seq<T>, p: T -> bool)
    ensures Filter([x] + s, p) == (if p(x) then [x] else []) + Filter(s, p)
  {
    assert ([x] + s)[0] == x && ([x] + s)[1..] == s;
  }

  /** Filtering works element by element: the kept elements of a
      concatenation are the kept elements of each part, in that order. In
      particular the elements kept keep their relative order. */
  lemma {:induction false} FilterAppend<T(!new)>(a: seq<T>, b: seq<T>, p: T -> bool)
    ensures Filter(a + b, p) == Filter(a, p) + Filter(b, p)
  {
    if a == [] {
      assert a + b == b;
    } else {
      var x, rest := a[0], a[1..];
      assert a == [x] + rest && a + b == [x] + (rest + b);
      var head := if p(x) then [x] else [];
      FilterCons(x, rest + b, p);
      FilterCons(x, rest, p);
      FilterAppend(rest, b, p);
      assert head + (Filter(rest, p) + Filter(b, p)) == (head + Filter(rest, p)) + Filter(b, p);
    }
  }

  /** Newest first: creation times never increase along the sequence. */
  ghost predicate NewestFirst(s: seq<Donation>) {
    forall i, j :: 0 <= i < j < |s| ==> s[i].createdAt >= s[j].createdAt
  }

  /** Places `d` in front of the first element that is not newer than it. */
  function InsertByCreation(d: Donation, s: seq<Donation>): (r: seq<Donation>)
    requires NewestFirst(s)
    ensures NewestFirst(r)
    ensures multiset(r) == multiset(s) + multiset{d}
    ensures |r| == |s| + 1
    ensures r[0] == d || (s != [] && r[0] == s[0])
  {
    if s == [] || d.createdAt >= s[0].createdAt then [d] + s
    else
      assert s == [s[0]] + s[1..];
      [s[0]] + InsertByCreation(d, s[1..])
  }

  /** A reordering of `s`, newest first: what `.sort({ createdAt: -1 })`
      returns. Among equal creation times any order is allowed; this is one. */
  function SortNewestFirst(s: seq<Donation>): (r: seq<Donation>)
    ensures NewestFirst(r)
    ensures multiset(r) == multiset(s)
  {
    if s == [] then []
    else
      assert s == [s[0]] + s[1..];
      InsertByCreation(s[0], SortNewestFirst(s[1..]))
  }

  /** Two lists that are permutations of each other hold the same elements. */
  lemma SameMembers<T>(a: seq<T>, b: seq<T>)
    requires multiset(a) == multiset(b)
    ensures forall x :: x in a <==> x in b
  {
    forall x
      ensures x in a <==> x in b
    {
      assert x in a <==> x in multiset(a);
      assert x in b <==> x in multiset(b);
    }
  }

  /** `findById`: the donation with id `id`, if any. */
  function FindDonation(ds: seq<Donation>, id: Id): (r: Option<Donation>)
    ensures r.Some? <==> exists i :: 0 <= i < |ds| && ds[i].id == id
    ensures r.Some? ==> r.value in ds && r.value.id == id
  {
    if ds == [] then None
    else if ds[0].id == id then Some(ds[0])
    else
      var r := FindDonation(ds[1..], id);
      assert forall i :: 1 <= i < |ds| ==> ds[i] == ds[1..][i - 1];
      r
  }

  /** Some stored user already has this username or this email. */
  predicate Taken(users: seq<User>, username: string, email: string) {
    exists i :: 0 <= i < |users| && (users[i].username == username || users[i].email == email)
  }

  class Database {
    var donations: seq<Donation>
    var receives: seq<Receive>
    var users: seq<User>
    /** Every id handed out so far is below `nextId`. */
    var nextId: Id

    /** Ids are unique within each collection, and usernames and emails are
        unique among users (the schema's unique indexes). */
    ghost predicate Valid()
      reads this
    {
      && (forall i :: 0 <= i < |donations| ==> donations[i].id < nextId)
      && (forall i, j :: 0 <= i < j < |donations| ==> donations[i].id != donations[j].id)
      && (forall i :: 0 <= i < |receives| ==> receives[i].id < nextId)
      && (forall i, j :: 0 <= i < j < |receives| ==> receives[i].id != receives[j].id)
      && (forall i :: 0 <= i < |users| ==> users[i].id < nextId)
      && (forall i, j :: 0 <= i < j < |users| ==>
            users[i].id != users[j].id
            && users[i].username != users[j].username
            && users[i].email != users[j].email)
    }

    constructor ()
      ensures Valid()
      ensures donations == [] && receives == [] && users == []
    {
      donations, receives, users, nextId := [], [], [], 0;
    }

    /** `new Donation({...}).save()`: stores a donation with a fresh id and the
        schema's defaults. */
    method InsertDonation(userId: Id, foods: seq<FoodItem>, location: Location, createdAt: Millis)
      returns (d: Donation)
      requires Valid()
      modifies this
      ensures Valid()
      ensures d == NewDonation(old(nextId), userId, foods, location, createdAt)
      ensures forall i :: 0 <= i < |old(donations)| ==> old(donations)[i].id != d.id
      ensures donations == old(donations) + [d]
      ensures receives == old(receives) && users == old(users)
    {
      d := NewDonation(nextId, userId, foods, location, createdAt);
      donations := donations + [d];
      nextId := nextId + 1;
    }

    /** `new Receive({...}).save()`: stores a request with a fresh id and the
        schema's defaults. */
    method InsertReceive(userId: Id, foods: seq<FoodItem>, location: Location,
                         linkedDonation: Option<Id>, createdAt: Millis)
      returns (r: Receive)
      requires Valid()
      modifies this
      ensures Valid()
      ensures r == NewReceive(old(nextId), userId, foods, location, linkedDonation, createdAt)
      ensures forall i :: 0 <= i < |old(receives)| ==> old(receives)[i].id != r.id
      ensures receives == old(receives) + [r]
      ensures donations == old(donations) && users == old(users)
    {
      r := NewReceive(nextId, userId, foods, location, linkedDonation, createdAt);
      receives := receives + [r];
      nextId := nextId + 1;
    }

    /** Inserting a validated user: the unique indexes on `username` and
        `email` reject a duplicate, otherwise the user gets a fresh id. */
    method InsertUser(u: User) returns (stored: Option<User>)
      requires Valid()
      modifies this
      ensures Valid()
      ensures stored.Some? <==> !Taken(old(users), u.username, u.email)
      ensures stored.Some? ==> stored.value == u.(id := old(nextId)) && users == old(users) + [stored.value]
      ensures stored.None? ==> users == old(users) && nextId == old(nextId)
      ensures donations == old(donations) && receives == old(receives)
    {
      if Taken(users, u.username, u.email) {
        return None;
      }
      var v := u.(id := nextId);
      users := users + [v];
      nextId := nextId + 1;
      stored := Some(v);
    }
  }
}
