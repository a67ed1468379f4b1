/** The dashboard home page (src/pages/dashboard/index.tsx): the room and
    complaint counters, the complaint trend, the staff panel of recent
    complaints, and the student panels (own booking, own complaints). */
module DashboardHome {
  import opened Seqs
  import opened Types
  import opened RoomsPage
  import opened ReportsPage

  /** `availableRooms`: the number of available rooms, zero exactly when
      none is available. */
  function AvailableRooms(rooms: seq<Room>): (n: nat)
    ensures n <= |rooms|
    ensures n == 0 <==> forall i :: 0 <= i < |rooms| ==> rooms[i].status != Available
  {
    CountZero(rooms, HasStatus(Available));
    Count(rooms, HasStatus(Available))
  }

  /** `occupiedRooms`: the number of occupied rooms, zero exactly when none
      is occupied. */
  function OccupiedRooms(rooms: seq<Room>): (n: nat)
    ensures n <= |rooms|
    ensures n == 0 <==> forall i :: 0 <= i < |rooms| ==> rooms[i].status != Occupied
  {
    CountZero(rooms, HasStatus(Occupied));
    Count(rooms, HasStatus(Occupied))
  }

  /** `pendingComplaints`: the number of pending complaints, zero exactly
      when none is pending. */
  function PendingComplaints(complaints: seq<Complaint>): (n: nat)
    ensures n <= |complaints|
    ensures n == 0 <==> forall i :: 0 <= i < |complaints| ==> complaints[i].status != ComplaintPending
  {
    CountZero(complaints, ComplaintStatusIs(ComplaintPending));
    Count(complaints, ComplaintStatusIs(ComplaintPending))
  }

  /** The counters are the exact-status counts, and available and occupied
      rooms together with the rooms under maintenance make up all rooms. */
  lemma {:induction false} RoomCountersCover(rooms: seq<Room>)
    ensures AvailableRooms(rooms) + OccupiedRooms(rooms) + Count(rooms, HasStatus(Maintenance)) == |rooms|
  {
    forall i | 0 <= i < |rooms|
      ensures (if HasStatus(Available)(rooms[i]) then 1 else 0) + (if HasStatus(Occupied)(rooms[i]) then 1 else 0)
            + (if HasStatus(Maintenance)(rooms[i]) then 1 else 0) == 1
    {
      assert rooms[i].status.Available? || rooms[i].status.Occupied? || rooms[i].status.Maintenance?;
    }
    CountPartition3(rooms, HasStatus(Available), HasStatus(Occupied), HasStatus(Maintenance));
  }

  /** The home counter and the reports chart agree on pending complaints. */
  lemma PendingMatchesReport(complaints: seq<Complaint>)
    ensures PendingComplaints(complaints) == ComplaintsData(complaints)[0].value
  {
  }

  datatype Trend = Up | Down

  /** The trend arrow on the open-complaints card. */
  function ComplaintTrend(pending: nat): (t: Trend)
    ensures t == Up <==> pending > 5
  {
    if pending > 5 then Up else Down
  }

  /** Adding a pending complaint never turns the trend from up to down. */
  lemma TrendMonotone(complaints: seq<Complaint>, c: Complaint)
    ensures ComplaintTrend(PendingComplaints(complaints)) == Up ==> ComplaintTrend(PendingComplaints(complaints + [c])) == Up
  {
    FilterAppend(complaints, [c], ComplaintStatusIs(ComplaintPending));
  }

  /** The staff panel: the first five complaints, in store order; the panel
      shows a message instead when there are none. */
  function RecentComplaints(complaints: seq<Complaint>): (r: seq<Complaint>)
    ensures |r| <= 5 && r <= complaints
    ensures |complaints| >= 5 ==> |r| == 5
    ensures r == [] <==> complaints == []
  {
    Take(complaints, 5)
  }

  function BookedBy(user: Option<User>): Booking -> bool {
    (b: Booking) => user.Some? && b.studentId == user.value.id
  }

  /** `bookings.find(b => b.studentId === user?.id)`: a student's booking is
      the first booking with their id; without a user there is none. */
  function StudentBooking(bookings: seq<Booking>, user: Option<User>): (r: Option<Booking>)
    ensures user.None? ==> r.None?
    ensures r.Some? ==> user.Some? && r.value.studentId == user.value.id && r.value in bookings
    ensures r.None? && user.Some? ==> forall i :: 0 <= i < |bookings| ==> bookings[i].studentId != user.value.id
  {
    match FirstIndex(bookings, BookedBy(user))
    case None => None
    case Some(k) => Some(bookings[k])
  }

  /** The booking found is the earliest one: no booking before it belongs to
      the student. */
  lemma {:induction false} StudentBookingIsFirst(bookings: seq<Booking>, user: User)
    ensures StudentBooking(bookings, Some(user)).Some? ==>
      exists k :: 0 <= k < |bookings| && bookings[k] == StudentBooking(bookings, Some(user)).value
        && forall j :: 0 <= j < k ==> bookings[j].studentId != user.id
  {
    var p := BookedBy(Some(user));
    match FirstIndex(bookings, p)
    case None =>
    case Some(k) =>
      assert forall j :: 0 <= j < k ==> !p(bookings[j]);
  }

  function FiledBy(user: Option<User>): Complaint -> bool {
    (c: Complaint) => user.Some? && c.studentId == user.value.id
  }

  /** The student's complaints panel: exactly the complaints with their id. */
  function StudentComplaints(complaints: seq<Complaint>, user: Option<User>): (r: seq<Complaint>)
    ensures user.None? ==> r == []
    ensures forall i :: 0 <= i < |r| ==> r[i].studentId == user.value.id
  {
    CountZero(complaints, FiledBy(user));
    Filter(complaints, FiledBy(user))
  }

  lemma StudentComplaintsExact(complaints: seq<Complaint>, user: User)
    ensures forall c :: (c in StudentComplaints(complaints, Some(user)) <==> c in complaints && c.studentId == user.id)
  {
    FilterMembers(complaints, FiledBy(Some(user)));
  }

  /** `rooms.find(r => r.id === id)`: the first room with the id. */
  function RoomById(rooms: seq<Room>, id: string): (r: Option<Room>)
    ensures r.Some? ==> r.value.id == id && r.value in rooms
    ensures r.None? ==> forall i :: 0 <= i < |rooms| ==> rooms[i].id != id
    ensures r.Some? ==> exists k :: 0 <= k < |rooms| && rooms[k] == r.value && forall j :: 0 <= j < k ==> rooms[j].id != id
  {
    match FirstIndex(rooms, (x: Room) => x.id == id)
    case None => None
    case Some(k) => Some(rooms[k])
  }

  /** The room-type cell: the booked room's type, or "Standard" when the
      room is missing. */
  function RoomTypeLabel(room: Option<Room>): (s: string)
    ensures room.None? ==> s == "Standard"
    ensures room.Some? ==> s == room.value.kind.Name()
  {
    if room.Some? then room.value.kind.Name() else "Standard"
  }

  /** The fee cell: the booked room's price, or 0 when the room is missing. */
  function FeeShown(room: Option<Room>): (n: int)
    ensures room.None? ==> n == 0
    ensures room.Some? ==> n == room.value.price
  {
    if room.Some? then room.value.price else 0
  }
}
