/** The in-memory domain store (src/contexts/data-context.tsx): six
    collections seeded from mock arrays, `add*`/`update*`/`delete*` for
    hostels, rooms, bookings and complaints, and `markNotificationAsRead`.
    Every operation replaces one collection with a value computed from the
    old one; the pure functions below compute those values and the class
    methods install them. */
module DataContext {
  import opened Seqs
  import opened Text
  import opened Types

  // ---- The values the setters receive -------------------------------------

  /** `${prefix}${count + 1}`: the id an `add*` gives its new record. The
      prefix is followed by a decimal numeral that reads back as the count
      plus one. */
  function NextId(prefix: string, count: nat): (r: string)
    ensures |r| > |prefix| && r[..|prefix|] == prefix
    ensures IsDecimal(r[|prefix|..]) && ParseNat(r[|prefix|..]) == count + 1
  {
    var digits := NatToString(count + 1);
    ParseNatToString(count + 1);
    assert (prefix + digits)[|prefix|..] == digits;
    prefix + digits
  }

  /** `[...xs, { ...draft, id: NextId(prefix, xs.length) }]`. */
  function Added<D, T>(xs: seq<T>, make: (D, string) -> T, prefix: string, d: D): (r: seq<T>)
    ensures |r| == |xs| + 1 && r[..|xs|] == xs
  {
    xs + [make(d, NextId(prefix, |xs|))]
  }

  /** `xs.map(x => x.id === id ? { ...x, ...patch } : x)`. */
  function Updated<T, P>(xs: seq<T>, key: T -> string, id: string, apply: (T, P) -> T, patch: P): (r: seq<T>)
    ensures |r| == |xs|
  {
    seq(|xs|, i requires 0 <= i < |xs| => if key(xs[i]) == id then apply(xs[i], patch) else xs[i])
  }

  /** `xs.filter(x => x.id !== id)`: no record with the id is left. */
  function Deleted<T(==)>(xs: seq<T>, key: T -> string, id: string): (r: seq<T>)
    ensures |r| <= |xs|
    ensures forall i :: 0 <= i < |r| ==> key(r[i]) != id
  {
    Filter(xs, KeyIsNot(key, id))
  }

  /** `x => x.id !== id`. */
  function KeyIsNot<T>(key: T -> string, id: string): T -> bool {
    x => key(x) != id
  }

  function HostelKey(h: Hostel): string { h.id }
  function RoomKey(r: Room): string { r.id }
  function BookingKey(b: Booking): string { b.id }
  function ComplaintKey(c: Complaint): string { c.id }
  function NotificationKey(n: Notification): string { n.id }

  /** `{ ...n, read: true }`; the second argument is the (empty) patch. */
  function MarkRead(n: Notification, u: ()): (r: Notification)
    ensures r.read && r.(read := n.read) == n
  {
    n.(read := true)
  }

  // ---- What the operations guarantee ---------------------------------------

  /** An add appends exactly one record at the end, keeps every earlier
      record in place, and the new record carries the draft's fields and the
      id `prefix` followed by the old length plus one. */
  lemma AddAppendsOne<D, T>(xs: seq<T>, make: (D, string) -> T, prefix: string, d: D)
    ensures var r := Added(xs, make, prefix, d);
      |r| == |xs| + 1 && (forall i :: 0 <= i < |xs| ==> r[i] == xs[i])
      && r[|xs|] == make(d, prefix + NatToString(|xs| + 1))
  {
  }

  /** An update rewrites exactly the records whose id matches, each by the
      patch, and leaves length, order and every other record as they were. */
  lemma UpdateRewritesMatches<T, P>(xs: seq<T>, key: T -> string, id: string, apply: (T, P) -> T, patch: P, i: int)
    requires 0 <= i < |xs|
    ensures key(xs[i]) == id ==> Updated(xs, key, id, apply, patch)[i] == apply(xs[i], patch)
    ensures key(xs[i]) != id ==> Updated(xs, key, id, apply, patch)[i] == xs[i]
  {
  }

  /** An update of an id no record carries leaves the collection identical. */
  lemma {:induction false} UpdateAbsentIsIdentity<T, P>(xs: seq<T>, key: T -> string, id: string, apply: (T, P) -> T, patch: P)
    requires forall i :: 0 <= i < |xs| ==> key(xs[i]) != id
    ensures Updated(xs, key, id, apply, patch) == xs
  {
    var r := Updated(xs, key, id, apply, patch);
    assert forall i :: 0 <= i < |xs| ==> r[i] == xs[i];
  }

  /** Applying the same update twice is applying it once, when the patch
      keeps the id and is idempotent on a record (true of
      `markNotificationAsRead` and of every status-only patch). */
  lemma {:induction false} UpdateIdempotent<T, P>(xs: seq<T>, key: T -> string, id: string, apply: (T, P) -> T, patch: P)
    requires forall i :: 0 <= i < |xs| ==> key(apply(xs[i], patch)) == key(xs[i])
    requires forall i :: 0 <= i < |xs| ==> apply(apply(xs[i], patch), patch) == apply(xs[i], patch)
    ensures Updated(Updated(xs, key, id, apply, patch), key, id, apply, patch) == Updated(xs, key, id, apply, patch)
  {
    var once := Updated(xs, key, id, apply, patch);
    var twice := Updated(once, key, id, apply, patch);
    forall i | 0 <= i < |xs| ensures twice[i] == once[i] {
      if key(xs[i]) == id {
        assert once[i] == apply(xs[i], patch);
      } else {
        assert once[i] == xs[i];
      }
    }
  }

  /** A delete removes every record with the id and keeps the others, each
      as often as before, in their original order. */
  lemma DeleteRemovesExactly<T>(xs: seq<T>, key: T -> string, id: string)
    ensures IsSubseq(Deleted(xs, key, id), xs)
    ensures forall x :: multiset(Deleted(xs, key, id))[x] == if key(x) == id then 0 else multiset(xs)[x]
  {
    FilterExact(xs, KeyIsNot(key, id));
  }

  /** A delete of an id no record carries leaves the collection identical. */
  lemma DeleteAbsentIsIdentity<T>(xs: seq<T>, key: T -> string, id: string)
    requires forall i :: 0 <= i < |xs| ==> key(xs[i]) != id
    ensures Deleted(xs, key, id) == xs
  {
    FilterKeepsAll(xs, KeyIsNot(key, id));
  }

  // ---- Ids derived from the length -----------------------------------------

  /** The ids a collection has when it was only ever appended to: the i-th
      record (from 0) carries `prefix` followed by i + 1. */
  ghost predicate SequentialIds<T>(xs: seq<T>, key: T -> string, prefix: string) {
    forall i :: 0 <= i < |xs| ==> key(xs[i]) == NextId(prefix, i)
  }

  predicate DigitFree(prefix: string) {
    forall i :: 0 <= i < |prefix| ==> !IsDigit(prefix[i])
  }

  /** Adding to a collection that has only been appended to keeps its ids
      sequential. */
  lemma AddKeepsSequentialIds<D, T>(xs: seq<T>, key: T -> string, make: (D, string) -> T, prefix: string, d: D)
    requires SequentialIds(xs, key, prefix)
    requires key(make(d, NextId(prefix, |xs|))) == NextId(prefix, |xs|)
    ensures SequentialIds(Added(xs, make, prefix, d), key, prefix)
  {
  }

  /** Sequential ids are pairwise distinct. */
  lemma SequentialIdsDistinct<T>(xs: seq<T>, key: T -> string, prefix: string)
    requires SequentialIds(xs, key, prefix) && DigitFree(prefix)
    ensures forall i, j :: 0 <= i < j < |xs| ==> key(xs[i]) != key(xs[j])
  {
    forall i, j | 0 <= i < j < |xs| ensures key(xs[i]) != key(xs[j]) {
      PrefixedInjective(prefix, i + 1, j + 1);
    }
  }

  /** When no other record shares its id, deleting one record's id removes
      exactly that record. */
  lemma {:induction false} DeleteDistinctRemovesOne<T>(xs: seq<T>, key: T -> string, k: nat)
    requires k < |xs|
    requires forall i :: 0 <= i < |xs| && i != k ==> key(xs[i]) != key(xs[k])
    ensures Deleted(xs, key, key(xs[k])) == xs[..k] + xs[k + 1..]
  {
    var keep := KeyIsNot(key, key(xs[k]));
    FilterDropsOne(xs, keep, k);
  }

  /** Ids are not unique in general: delete any record but the last from a
      collection with sequential ids, then add one, and the new record gets
      the id the old last record still carries. */
  lemma {:induction false} DeleteThenAddDuplicatesId<D, T>(xs: seq<T>, key: T -> string, make: (D, string) -> T, prefix: string, d: D, k: nat)
    requires SequentialIds(xs, key, prefix) && DigitFree(prefix)
    requires k < |xs| - 1
    requires key(make(d, NextId(prefix, |xs| - 1))) == NextId(prefix, |xs| - 1)
    ensures var ys := Added(Deleted(xs, key, key(xs[k])), make, prefix, d);
      |ys| == |xs| && key(ys[|ys| - 1]) == key(ys[|ys| - 2]) == key(xs[|xs| - 1])
  {
    SequentialIdsDistinct(xs, key, prefix);
    DeleteDistinctRemovesOne(xs, key, k);
    var del := Deleted(xs, key, key(xs[k]));
    assert del[|del| - 1] == xs[|xs| - 1];
  }

  // ---- Seed data -----------------------------------------------------------

  /** The seed hostels' pictures share one query string. */
  function UnsplashImage(photo: string): string {
    "https://images.unsplash.com/" + photo + "?ixlib=rb-4.0.3&ixid=M3wxMjA3fDB8MHxwaG90by1wYWdlfHx8fGVufDB8fHx8fA%3D%3D&auto=format&fit=crop&w=1000&q=80"
  }

  const MockHostels: seq<Hostel> := [
    Hostel("h1", "Sunrise Hostel", "North Campus", 50, 15, Some(UnsplashImage("photo-1555854877-bab0e564b8d5"))),
    Hostel("h2", "Maple Residence", "South Campus", 75, 8, Some(UnsplashImage("photo-1606046604972-77cc76aee944"))),
    Hostel("h3", "Horizon Heights", "West Campus", 30, 12, Some(UnsplashImage("photo-1551133989-5f8c0c9956d5")))
  ]

  const MockRooms: seq<Room> := [
    Room("r1", "101", Single, Available, 5000, "h1"),
    Room("r2", "102", Double, Occupied, 3500, "h1"),
    Room("r3", "201", Single, Maintenance, 4800, "h2"),
    Room("r4", "202", Triple, Available, 3000, "h2"),
    Room("r5", "301", Quad, Available, 2500, "h3")
  ]

  const MockBookings: seq<Booking> := [
    Booking("b1", "student1", "John Student", "r2", "102", "h1", "Sunrise Hostel", Approved, "2023-01-15")
  ]

  const MockComplaints: seq<Complaint> := [
    Complaint("c1", "student1", "John Student", "Water heater not working in room 102",
              None, None, None, ComplaintPending, None, None, "2023-03-10", None),
    Complaint("c2", "student1", "John Student", "Wi-Fi connectivity issues",
              None, None, Some("Our technician will check the router today"), InProgress,
              Some("staff1"), Some("Staff Member"), "2023-02-20", None)
  ]

  const MockLogs: seq<ActivityLog> := [
    ActivityLog("l1", "admin1", "Admin User", "Created new staff account", Some("Staff Member"), "2023-01-05T10:30:00"),
    ActivityLog("l2", "admin1", "Admin User", "Updated room status", Some("Room 201"), "2023-02-15T14:45:00")
  ]

  const MockNotifications: seq<Notification> := [
    Notification("n1", "student1", "Your booking has been approved", Success, false, "2023-01-16T09:00:00"),
    Notification("n2", "staff1", "New complaint assigned to you", Info, true, "2023-02-21T11:30:00"),
    Notification("n3", "admin1", "System maintenance scheduled", Warning, false, "2023-03-01T16:00:00")
  ]

  /** The seeded hostels h1, h2, h3: deleting h2 and adding a hostel leaves
      two hostels with id "h3". */
  lemma SeedHostelIdCollision(d: HostelDraft)
    ensures var ys := Added(Deleted(MockHostels, HostelKey, "h2"), MakeHostel, "h", d);
      |ys| == 3 && ys[1].id == "h3" && ys[2].id == "h3"
  {
    assert NatToString(1) == "1" && NatToString(2) == "2" && NatToString(3) == "3";
    assert SequentialIds(MockHostels, HostelKey, "h");
    DeleteThenAddDuplicatesId(MockHostels, HostelKey, MakeHostel, "h", d, 1);
  }

  // ---- The provider's state ------------------------------------------------

  /** The `DataProvider` state. `activityLogs` is a constant: the source
      keeps no setter for it. Each method's `modifies` clause names the one
      collection it replaces, so every other collection is unchanged. */
  class DataStore {
    var hostels: seq<Hostel>
    var rooms: seq<Room>
    var bookings: seq<Booking>
    var complaints: seq<Complaint>
    const activityLogs: seq<ActivityLog>
    var notifications: seq<Notification>

    constructor ()
      ensures hostels == MockHostels && rooms == MockRooms && bookings == MockBookings
      ensures complaints == MockComplaints && activityLogs == MockLogs && notifications == MockNotifications
    {
      hostels, rooms, bookings := MockHostels, MockRooms, MockBookings;
      complaints, activityLogs, notifications := MockComplaints, MockLogs, MockNotifications;
    }

    method AddHostel(d: HostelDraft)
      modifies this`hostels
      ensures hostels == Added(old(hostels), MakeHostel, "h", d)
    {
      hostels := Added(hostels, MakeHostel, "h", d);
    }

    method UpdateHostel(id: string, patch: HostelPatch)
      modifies this`hostels
      ensures hostels == Updated(old(hostels), HostelKey, id, ApplyHostelPatch, patch)
    {
      hostels := Updated(hostels, HostelKey, id, ApplyHostelPatch, patch);
    }

    method DeleteHostel(id: string)
      modifies this`hostels
      ensures hostels == Deleted(old(hostels), HostelKey, id)
    {
      hostels := Deleted(hostels, HostelKey, id);
    }

    method AddRoom(d: RoomDraft)
      modifies this`rooms
      ensures rooms == Added(old(rooms), MakeRoom, "r", d)
    {
      rooms := Added(rooms, MakeRoom, "r", d);
    }

    method UpdateRoom(id: string, patch: RoomPatch)
      modifies this`rooms
      ensures rooms == Updated(old(rooms), RoomKey, id, ApplyRoomPatch, patch)
    {
      rooms := Updated(rooms, RoomKey, id, ApplyRoomPatch, patch);
    }

    method DeleteRoom(id: string)
      modifies this`rooms
      ensures rooms == Deleted(old(rooms), RoomKey, id)
    {
      rooms := Deleted(rooms, RoomKey, id);
    }

    method AddBooking(d: BookingDraft)
      modifies this`bookings
      ensures bookings == Added(old(bookings), MakeBooking, "b", d)
    {
      bookings := Added(bookings, MakeBooking, "b", d);
    }

    method UpdateBooking(id: string, patch: BookingPatch)
      modifies this`bookings
      ensures bookings == Updated(old(bookings), BookingKey, id, ApplyBookingPatch, patch)
    {
      bookings := Updated(bookings, BookingKey, id, ApplyBookingPatch, patch);
    }

    method DeleteBooking(id: string)
      modifies this`bookings
      ensures bookings == Deleted(old(bookings), BookingKey, id)
    {
      bookings := Deleted(bookings, BookingKey, id);
    }

    method AddComplaint(d: ComplaintDraft)
      modifies this`complaints
      ensures complaints == Added(old(complaints), MakeComplaint, "c", d)
    {
      complaints := Added(complaints, MakeComplaint, "c", d);
    }

    method UpdateComplaint(id: string, patch: ComplaintPatch)
      modifies this`complaints
      ensures complaints == Updated(old(complaints), ComplaintKey, id, ApplyComplaintPatch, patch)
    {
      complaints := Updated(complaints, ComplaintKey, id, ApplyComplaintPatch, patch);
    }

    method DeleteComplaint(id: string)
      modifies this`complaints
      ensures complaints == Deleted(old(complaints), ComplaintKey, id)
    {
      complaints := Deleted(complaints, ComplaintKey, id);
    }

    method MarkNotificationAsRead(id: string)
      modifies this`notifications
      ensures notifications == Updated(old(notifications), NotificationKey, id, MarkRead, ())
    {
      notifications := Updated(notifications, NotificationKey, id, MarkRead, ());
    }
  }

  /** `markNotificationAsRead` sets `read` on the matching notifications
      only, and is idempotent. */
  lemma MarkReadSetsOnlyMatches(ns: seq<Notification>, id: string)
    ensures var r := Updated(ns, NotificationKey, id, MarkRead, ());
      |r| == |ns| && forall i :: 0 <= i < |ns| ==>
        if ns[i].id == id then r[i] == ns[i].(read := true) && r[i].read else r[i] == ns[i]
    ensures Updated(Updated(ns, NotificationKey, id, MarkRead, ()), NotificationKey, id, MarkRead, ())
         == Updated(ns, NotificationKey, id, MarkRead, ())
  {
    UpdateIdempotent(ns, NotificationKey, id, MarkRead, ());
  }

  /** A client of the store: the class contracts alone show that deleting h2
      from the seeded store and adding a hostel duplicates the id "h3",
      while the rooms, bookings, complaints and notifications stay seeded. */
  method SeedCollisionScenario(d: HostelDraft) returns (first: Hostel, second: Hostel)
    ensures first.id == second.id == "h3"
  {
    var store := new DataStore();
    store.DeleteHostel("h2");
    store.AddHostel(d);
    SeedHostelIdCollision(d);
    assert store.rooms == MockRooms && store.notifications == MockNotifications;
    first, second := store.hostels[1], store.hostels[2];
  }
}
