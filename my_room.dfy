/** The student's room page (src/pages/dashboard/my-room.tsx): the
    booking → room → hostel lookup chain, the room picture and the cells
    that fall back when something is missing. */
module MyRoomPage {
  import opened Seqs
  import opened Types
  import opened DashboardHome

  /** `hostels.find(h => h.id === id)`: the first hostel with the id. */
  function HostelById(hostels: seq<Hostel>, id: string): (r: Option<Hostel>)
    ensures r.Some? ==> r.value.id == id && r.value in hostels
    ensures r.None? ==> forall i :: 0 <= i < |hostels| ==> hostels[i].id != id
    ensures r.Some? ==> exists k :: 0 <= k < |hostels| && hostels[k] == r.value && forall j :: 0 <= j < k ==> hostels[j].id != id
  {
    match FirstIndex(hostels, (h: Hostel) => h.id == id)
    case None => None
    case Some(k) => Some(hostels[k])
  }

  datatype RoomDetails = RoomDetails(booking: Option<Booking>, room: Option<Room>, hostel: Option<Hostel>)

  /** `studentBooking`, `roomDetails` and `hostelDetails`: the room is looked
      up only when there is a booking, and the hostel only when there is a
      booking and a room. */
  function Lookup(bookings: seq<Booking>, rooms: seq<Room>, hostels: seq<Hostel>, user: Option<User>): (d: RoomDetails)
    ensures d.booking == StudentBooking(bookings, user)
    ensures d.room.Some? ==> d.booking.Some? && d.room.value.id == d.booking.value.roomId && d.room.value in rooms
    ensures d.hostel.Some? ==> d.room.Some? && d.hostel.value.id == d.booking.value.hostelId && d.hostel.value in hostels
    ensures d.room == if d.booking.Some? then RoomById(rooms, d.booking.value.roomId) else None
    ensures d.hostel == if d.room.Some? && d.booking.Some? then HostelById(hostels, d.booking.value.hostelId) else None
  {
    var booking := StudentBooking(bookings, user);
    var room := if booking.Some? then RoomById(rooms, booking.value.roomId) else None;
    var hostel := if room.Some? && booking.Some? then HostelById(hostels, booking.value.hostelId) else None;
    RoomDetails(booking, room, hostel)
  }

  /** Each link is found whenever the data holds it: with a booking whose
      room is stored the room is found, and with that room and a stored
      hostel the hostel is found too. */
  lemma LookupFindsStoredLinks(bookings: seq<Booking>, rooms: seq<Room>, hostels: seq<Hostel>, user: Option<User>, i: int, j: int)
    requires 0 <= i < |rooms| && 0 <= j < |hostels|
    ensures var d := Lookup(bookings, rooms, hostels, user);
      d.booking.Some? && rooms[i].id == d.booking.value.roomId ==>
        d.room.Some? && (hostels[j].id == d.booking.value.hostelId ==> d.hostel.Some?)
  {
  }

  /** Which of the three room pictures is shown. */
  function RoomImage(kind: Option<RoomType>): (k: nat)
    ensures k < 3
    ensures k == 1 <==> kind == Some(Double)
    ensures k == 2 <==> kind == Some(Triple) || kind == Some(Quad)
  {
    match kind
    case Some(Single) => 0
    case Some(Double) => 1
    case Some(Triple) => 2
    case Some(Quad) => 2
    case _ => 0
  }

  /** `s || fallback` on a string: the empty string is falsy. */
  function OrElse(s: string, fallback: string): (r: string)
    ensures r != "" || fallback == ""
    ensures s != "" ==> r == s
    ensures s == "" ==> r == fallback
  {
    if s != "" then s else fallback
  }

  /** The hostel-name and location cells: "Unknown" when the hostel is
      missing or the field is empty. */
  function HostelNameShown(h: Option<Hostel>): (s: string)
    ensures s != ""
    ensures h.Some? && h.value.name != "" ==> s == h.value.name
    ensures h.None? || h.value.name == "" ==> s == "Unknown"
  {
    OrElse(if h.Some? then h.value.name else "", "Unknown")
  }

  function HostelLocationShown(h: Option<Hostel>): (s: string)
    ensures s != ""
    ensures h.Some? && h.value.location != "" ==> s == h.value.location
    ensures h.None? || h.value.location == "" ==> s == "Unknown"
  {
    OrElse(if h.Some? then h.value.location else "", "Unknown")
  }

  /** The total-rooms cell: the hostel's stored count, or 0 without one. */
  function TotalRoomsShown(h: Option<Hostel>): (n: int)
    ensures h.None? ==> n == 0
    ensures h.Some? ==> n == h.value.totalRooms
  {
    if h.Some? then h.value.totalRooms else 0
  }

  /** A hostel added with the form's empty name shows as "Unknown". */
  lemma EmptyHostelNameShowsUnknown(h: Hostel)
    requires h.name == ""
    ensures HostelNameShown(Some(h)) == "Unknown"
  {
  }

  /** Everyone but a student, and a signed-out visitor, gets the restricted
      view. */
  predicate Restricted(user: Option<User>) {
    !(user.Some? && user.value.role == Student)
  }
}
