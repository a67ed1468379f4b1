/** The rooms page (src/pages/dashboard/rooms.tsx): the hostel filter, the
    add-room form, status changes, the status badge colour, the room-type
    icon and the assign button. */
module RoomsPage {
  import opened Seqs
  import opened Types
  import opened DataContext

  /** The hostel filter value that shows every room. */
  const AllHostels: string := "all"

  function InHostel(hostelId: string): Room -> bool {
    (r: Room) => r.hostelId == hostelId
  }

  function HasStatus(s: RoomStatus): Room -> bool {
    (r: Room) => r.status == s
  }

  /** `filteredRooms`: every room for "all", else that hostel's rooms. */
  function FilteredRooms(rooms: seq<Room>, selectedHostel: string): (r: seq<Room>)
    ensures selectedHostel == AllHostels ==> r == rooms
    ensures selectedHostel != AllHostels ==> forall i :: 0 <= i < |r| ==> r[i].hostelId == selectedHostel
  {
    if selectedHostel == AllHostels then rooms else Filter(rooms, InHostel(selectedHostel))
  }

  /** For a particular hostel the list is exactly its rooms, in order. */
  lemma FilteredRoomsExact(rooms: seq<Room>, selectedHostel: string)
    requires selectedHostel != AllHostels
    ensures forall r :: (r in FilteredRooms(rooms, selectedHostel) <==> r in rooms && r.hostelId == selectedHostel)
    ensures IsSubseq(FilteredRooms(rooms, selectedHostel), rooms)
  {
    FilterMembers(rooms, InHostel(selectedHostel));
    FilterExact(rooms, InHostel(selectedHostel));
  }

  /** The form's value on open and after every add: number "", triple,
      available, price 75000, and the first hostel's id or "". */
  function DefaultRoomDraft(hostels: seq<Hostel>): (d: RoomDraft)
    ensures d.number == "" && d.kind == Triple && d.status == Available && d.price == 75000
    ensures d.hostelId == if hostels == [] then "" else hostels[0].id
  {
    RoomDraft("", Triple, Available, 75000, if hostels == [] then "" else hostels[0].id)
  }

  /** The four badge colours `getStatusColor` chooses between. */
  datatype BadgeColour = Green | Blue | Amber | Gray {
    /** The class list the badge receives. */
    function Classes(): string {
      match this
      case Green => "bg-green-100 text-green-800 dark:bg-green-900/30 dark:text-green-500"
      case Blue => "bg-blue-100 text-blue-800 dark:bg-blue-900/30 dark:text-blue-500"
      case Amber => "bg-amber-100 text-amber-800 dark:bg-amber-900/30 dark:text-amber-500"
      case Gray => "bg-gray-100 text-gray-800 dark:bg-gray-800 dark:text-gray-300"
    }
  }

  /** `getStatusColor(status)`: the badge colour for a status string. */
  function StatusColor(status: string): BadgeColour {
    if status == "available" then Green
    else if status == "occupied" then Blue
    else if status == "maintenance" then Amber
    else Gray
  }

  /** The three statuses get three distinct colours, none of them the
      default, and any other string gets the default. */
  lemma {:induction false} StatusColorDistinct(a: RoomStatus, b: RoomStatus, other: string)
    requires other != "available" && other != "occupied" && other != "maintenance"
    ensures StatusColor(a.Name()) == StatusColor(b.Name()) <==> a == b
    ensures StatusColor(a.Name()) != Gray
    ensures StatusColor(other) == Gray
  {
    assert StatusColor(Available.Name()) == Green && StatusColor(Occupied.Name()) == Blue;
    assert StatusColor(Maintenance.Name()) == Amber;
  }

  /** `getRoomTypeIcon(type)` AS WRITTEN, as the number of bed emoji it
      returns. Its case label for five beds is "quintuple " with a trailing
      space, which no room type equals. */
  function RoomTypeIconAsWritten(kind: string): nat {
    if kind == "triple" then 3
    else if kind == "quad" then 4
    else if kind == "quintuple " then 5
    else if kind == "sextuple" then 6
    else 3
  }

  /** The as-written icon shows three beds for a quintuple room. */
  lemma QuintupleShowsThreeBeds()
    ensures RoomTypeIconAsWritten(Quintuple.Name()) == 3
  {
  }

  /** How many people a room of each type sleeps. */
  function Beds(t: RoomType): nat {
    match t
    case Single => 1
    case Double => 2
    case Triple => 3
    case Quad => 4
    case Quintuple => 5
    case Sextuple => 6
  }

  /** `getRoomTypeIcon` with the label "quintuple" the form stores. */
  function RoomTypeIcon(kind: string): nat {
    if kind == "triple" then 3
    else if kind == "quad" then 4
    else if kind == "quintuple" then 5
    else if kind == "sextuple" then 6
    else 3
  }

  /** The room types the add-room form offers. */
  const FormRoomTypes: seq<RoomType> := [Triple, Quad, Quintuple, Sextuple]

  /** Every type the form offers gets an icon with as many beds as the room
      sleeps, so the four options get four different icons. */
  lemma {:induction false} RoomTypeIconMatchesBeds(t: RoomType)
    requires t in FormRoomTypes
    ensures RoomTypeIcon(t.Name()) == Beds(t)
  {
    assert t == Triple || t == Quad || t == Quintuple || t == Sextuple;
  }

  /** For a non-admin, the assign button is enabled only on an available
      room. */
  predicate AssignEnabled(r: Room) {
    r.status == Available
  }

  /** The page's form state over a shared store. */
  class RoomsPage {
    const store: DataStore
    var selectedHostel: string
    var newRoom: RoomDraft

    constructor (store: DataStore)
      ensures this.store == store && selectedHostel == AllHostels
      ensures newRoom == DefaultRoomDraft(store.hostels)
    {
      this.store := store;
      selectedHostel := AllHostels;
      newRoom := DefaultRoomDraft(store.hostels);
    }

    /** `handleAddRoom`: the form goes to the store unchecked and is reset. */
    method HandleAddRoom()
      modifies this`newRoom, store`rooms
      ensures store.rooms == Added(old(store.rooms), MakeRoom, "r", old(newRoom))
      ensures newRoom == DefaultRoomDraft(store.hostels)
    {
      store.AddRoom(newRoom);
      newRoom := DefaultRoomDraft(store.hostels);
    }

    /** `handleStatusUpdate`: a patch of the status alone. */
    method HandleStatusUpdate(roomId: string, newStatus: RoomStatus)
      modifies store`rooms
      ensures store.rooms == Updated(old(store.rooms), RoomKey, roomId, ApplyRoomPatch, RoomStatusPatch(newStatus))
    {
      store.UpdateRoom(roomId, RoomStatusPatch(newStatus));
    }
  }
}
