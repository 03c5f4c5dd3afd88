/** `MemStorage`, the in-memory implementation of the storage interface: two
    JavaScript `Map`s, one of users and one of demo bookings, each keyed by the
    record's id. Ids come from `randomUUID()` and instants from `new Date()`;
    both are passed in by the caller. */
module Storage {
  import opened Wrappers
  import opened Schema
  import opened JsMap

  /** The record `createUser` stores: `{ ...insertUser, id }`. */
  function StoredUser(u: InsertUser, id: string): User
  {
    User(id, u.username, u.password)
  }

  /** The record `createDemoBooking` stores: `{ ...booking, id, message: booking.message || null,
      createdAt: new Date() }`. The id, the message and the instant are written after the
      spread, so the store's values win; an empty message becomes `null`. */
  function StoredBooking(b: InsertDemoBooking, id: string, now: Instant): (r: DemoBooking)
    ensures r.id == id && r.createdAt == now
    ensures r.name == b.name && r.email == b.email && r.phone == b.phone && r.grade == b.grade
    ensures r.message.None? <==> b.message == ""
    ensures r.message.Some? ==> r.message.value == b.message
  {
    DemoBooking(id, b.name, b.email, b.phone, b.grade, if b.message == "" then None else Some(b.message), now)
  }

  /** A booking that passed the schema is stored with all five fields as given; the
      message in particular is never replaced by `null`. */
  lemma StoredValidBooking(isEmail: EmailCheck, b: InsertDemoBooking, id: string, now: Instant)
    requires ValidDemoBooking(isEmail, b)
    ensures StoredBooking(b, id, now) == DemoBooking(id, b.name, b.email, b.phone, b.grade, Some(b.message), now)
  {
  }

  /** Every record is stored under its own id. */
  ghost predicate KeyedById(users: OrderedMap<User>, bookings: OrderedMap<DemoBooking>)
  {
    && (forall k :: k in users.entries ==> users.entries[k].id == k)
    && (forall k :: k in bookings.entries ==> bookings.entries[k].id == k)
  }

  /** One call to `createDemoBooking`: an input, the id `randomUUID()` returned and the instant. */
  datatype Creation = Creation(input: InsertDemoBooking, id: string, at: Instant)

  /** The bookings map after the given creations, in order, starting from `m`. */
  function Replay(m: OrderedMap<DemoBooking>, cs: seq<Creation>): (r: OrderedMap<DemoBooking>)
    requires JsMap.Valid(m)
    ensures JsMap.Valid(r)
  {
    if cs == [] then m
    else
      var c := cs[|cs| - 1];
      Set(Replay(m, cs[..|cs| - 1]), c.id, StoredBooking(c.input, c.id, c.at))
  }

  predicate DistinctIds(cs: seq<Creation>)
  {
    forall i, j :: 0 <= i < j < |cs| ==> cs[i].id != cs[j].id
  }

  /** The stored ids after some creations are ids of those creations. */
  lemma {:induction false} ReplayKeys(cs: seq<Creation>, k: string)
    requires k in Replay(Empty(), cs).entries
    ensures exists i :: 0 <= i < |cs| && cs[i].id == k
  {
    var n := |cs| - 1;
    if k != cs[n].id {
      ReplayKeys(cs[..n], k);
      var i :| 0 <= i < n && cs[..n][i].id == k;
      assert cs[i].id == k;
    }
  }

  /** After N creations with distinct ids on an empty store, listing returns exactly N
      records: the stored form of each creation, in the order of the calls. */
  lemma {:induction false} ReplayLists(cs: seq<Creation>)
    requires DistinctIds(cs)
    ensures |Values(Replay(Empty(), cs))| == |cs|
    ensures forall i :: 0 <= i < |cs| ==> Values(Replay(Empty(), cs))[i] == StoredBooking(cs[i].input, cs[i].id, cs[i].at)
  {
    if cs != [] {
      var n := |cs| - 1;
      var before := Replay(Empty(), cs[..n]);
      ReplayLists(cs[..n]);
      assert cs[n].id !in before.entries by {
        if cs[n].id in before.entries {
          ReplayKeys(cs[..n], cs[n].id);
        }
      }
      SetFresh(before, cs[n].id, StoredBooking(cs[n].input, cs[n].id, cs[n].at));
    }
  }

  class MemStorage {
    var users: OrderedMap<User>
    var demoBookings: OrderedMap<DemoBooking>

    ghost predicate Valid()
      reads this
    {
      JsMap.Valid(users) && JsMap.Valid(demoBookings) && KeyedById(users, demoBookings)
    }

    constructor ()
      ensures Valid()
      ensures users == Empty() && demoBookings == Empty()
    {
      users := Empty();
      demoBookings := Empty();
    }

    /** `getUser(id)`: the user stored under `id`, or `undefined`. */
    method GetUser(id: string) returns (user: Option<User>)
      requires Valid()
      ensures user.Some? <==> id in users.entries
      ensures user.Some? ==> user.value == users.entries[id] && user.value.id == id
    {
      user := Get(users, id);
    }

    /** `getUserByUsername(username)`: the earliest inserted user with that username. */
    method GetUserByUsername(username: string) returns (user: Option<User>)
      requires Valid()
      ensures user.None? <==> forall i :: 0 <= i < |Values(users)| ==> Values(users)[i].username != username
      ensures user.Some? ==>
                exists i :: 0 <= i < |Values(users)| && Values(users)[i] == user.value && user.value.username == username
                            && forall j :: 0 <= j < i ==> Values(users)[j].username != username
    {
      var all := Values(users);
      var i := 0;
      while i < |all|
        invariant 0 <= i <= |all|
        invariant forall j :: 0 <= j < i ==> all[j].username != username
      {
        if all[i].username == username {
          return Some(all[i]);
        }
        i := i + 1;
      }
      return None;
    }

    /** `createUser(insertUser)` with `id` the value `randomUUID()` returned. */
    method CreateUser(insertUser: InsertUser, id: string) returns (user: User)
      requires Valid()
      modifies this
      ensures Valid()
      ensures user == StoredUser(insertUser, id)
      ensures users == Set(old(users), id, user)
      ensures demoBookings == old(demoBookings)
    {
      user := StoredUser(insertUser, id);
      users := Set(users, id, user);
    }

    /** `createDemoBooking(booking)` with `id` the value `randomUUID()` returned and `now` the clock. */
    method CreateDemoBooking(booking: InsertDemoBooking, id: string, now: Instant) returns (demoBooking: DemoBooking)
      requires Valid()
      modifies this
      ensures Valid()
      ensures demoBooking == StoredBooking(booking, id, now)
      ensures demoBookings == Set(old(demoBookings), id, demoBooking)
      ensures users == old(users)
    {
      demoBooking := StoredBooking(booking, id, now);
      demoBookings := Set(demoBookings, id, demoBooking);
    }

    /** `getDemoBookings()`: every stored booking exactly once, in insertion order. */
    method GetDemoBookings() returns (bookings: seq<DemoBooking>)
      requires Valid()
      ensures bookings == Values(demoBookings)
      ensures |bookings| == |demoBookings.entries|
      ensures forall k :: k in demoBookings.entries ==> demoBookings.entries[k] in bookings
      ensures forall i :: 0 <= i < |bookings| ==>
                bookings[i].id in demoBookings.entries && demoBookings.entries[bookings[i].id] == bookings[i]
    {
      bookings := Values(demoBookings);
      SizeIsCardinality(demoBookings);
      forall k | k in demoBookings.entries
        ensures demoBookings.entries[k] in bookings
      {
        ValuesListEntries(demoBookings, k);
      }
    }
  }

  /** Two creations with distinct ids leave two records listed in call order, each under its own id:
      creation is not deduplicated, even for the same input. */
  lemma TwoCreations(b: InsertDemoBooking, id1: string, id2: string, t1: Instant, t2: Instant)
    requires id1 != id2
    ensures Values(Replay(Empty(), [Creation(b, id1, t1), Creation(b, id2, t2)])) ==
            [StoredBooking(b, id1, t1), StoredBooking(b, id2, t2)]
  {
    ReplayLists([Creation(b, id1, t1), Creation(b, id2, t2)]);
  }
}
