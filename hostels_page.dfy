/** The hostels page (src/pages/dashboard/hostels.tsx): the per-hostel room
    statistics and the add-hostel form. The page sits behind the admin-only
    layout gate. */
module HostelsPage {
  import opened Seqs
  import opened Types
  import opened DataContext
  import opened RoomsPage

  /** The role the page hands to the layout gate. */
  const RequiredRole: string := "admin"

  datatype RoomStats = RoomStats(total: nat, available: nat, occupied: nat, maintenance: nat)

  function InHostelWithStatus(hostelId: string, s: RoomStatus): Room -> bool {
    (r: Room) => r.hostelId == hostelId && r.status == s
  }

  function NotInHostel(hostelId: string): Room -> bool {
    (r: Room) => r.hostelId != hostelId
  }

  /** `getRoomStats(hostelId)`: the hostel's rooms counted in all and by
      status. It reads the room list only, never the hostel's own stored
      `totalRooms`/`availableRooms`. Each status count is the number of rooms
      in the whole list that are in the hostel and have that status, and the
      total is what the rooms of other hostels leave of the list. */
  function GetRoomStats(rooms: seq<Room>, hostelId: string): (st: RoomStats)
    ensures st.total + Count(rooms, NotInHostel(hostelId)) == |rooms|
    ensures st.available == Count(rooms, InHostelWithStatus(hostelId, Available))
    ensures st.occupied == Count(rooms, InHostelWithStatus(hostelId, Occupied))
    ensures st.maintenance == Count(rooms, InHostelWithStatus(hostelId, Maintenance))
    ensures st.available <= st.total && st.occupied <= st.total && st.maintenance <= st.total
  {
    var mine := Filter(rooms, InHostel(hostelId));
    CountComplement(rooms, InHostel(hostelId), NotInHostel(hostelId));
    FilterFilter(rooms, InHostel(hostelId), HasStatus(Available), InHostelWithStatus(hostelId, Available));
    FilterFilter(rooms, InHostel(hostelId), HasStatus(Occupied), InHostelWithStatus(hostelId, Occupied));
    FilterFilter(rooms, InHostel(hostelId), HasStatus(Maintenance), InHostelWithStatus(hostelId, Maintenance));
    RoomStats(|mine|, Count(mine, HasStatus(Available)), Count(mine, HasStatus(Occupied)), Count(mine, HasStatus(Maintenance)))
  }

  /** Every room has one of the three statuses, so the three status counts
      add up to the total. */
  lemma {:induction false} RoomStatsSum(rooms: seq<Room>, hostelId: string)
    ensures var st := GetRoomStats(rooms, hostelId);
      st.available + st.occupied + st.maintenance == st.total
  {
    var mine := Filter(rooms, InHostel(hostelId));
    forall i | 0 <= i < |mine|
      ensures (if HasStatus(Available)(mine[i]) then 1 else 0) + (if HasStatus(Occupied)(mine[i]) then 1 else 0)
            + (if HasStatus(Maintenance)(mine[i]) then 1 else 0) == 1
    {
      assert mine[i].status.Available? || mine[i].status.Occupied? || mine[i].status.Maintenance?;
    }
    CountPartition3(mine, HasStatus(Available), HasStatus(Occupied), HasStatus(Maintenance));
  }

  /** The total counts the rooms whose `hostelId` is the hostel's: it is
      positive when the list holds one of them, zero exactly when it holds
      none, and the whole list exactly when every room is the hostel's. */
  lemma RoomStatsTotalIsHostelRooms(rooms: seq<Room>, hostelId: string)
    ensures forall r :: r in rooms && r.hostelId == hostelId ==> GetRoomStats(rooms, hostelId).total > 0
    ensures GetRoomStats(rooms, hostelId).total == 0 <==> forall i :: 0 <= i < |rooms| ==> rooms[i].hostelId != hostelId
    ensures GetRoomStats(rooms, hostelId).total == |rooms| <==> forall i :: 0 <= i < |rooms| ==> rooms[i].hostelId == hostelId
  {
    FilterMembers(rooms, InHostel(hostelId));
    CountZero(rooms, InHostel(hostelId));
    CountZero(rooms, NotInHostel(hostelId));
  }

  /** The add-hostel form's empty value. */
  const EmptyHostelDraft: HostelDraft := HostelDraft("", "", 0, 0, Some(""))

  class HostelsPage {
    const store: DataStore
    var newHostel: HostelDraft

    constructor (store: DataStore)
      ensures this.store == store && newHostel == EmptyHostelDraft
    {
      this.store := store;
      newHostel := EmptyHostelDraft;
    }

    /** `handleAddHostel`: the form goes to the store and is reset. */
    method HandleAddHostel()
      modifies this`newHostel, store`hostels
      ensures store.hostels == Added(old(store.hostels), MakeHostel, "h", old(newHostel))
      ensures newHostel == EmptyHostelDraft
    {
      store.AddHostel(newHostel);
      newHostel := EmptyHostelDraft;
    }
  }
}
