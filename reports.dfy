/** The reports page (src/pages/dashboard/reports.tsx): the three chart
    datasets and the admin-only view. The `timeFrame` selector is state the
    generators never read, so none of the functions below takes it. */
module ReportsPage {
  import opened Seqs
  import opened Types
  import opened RoomsPage
  import opened HostelsPage

  /** One bar of the occupancy chart. */
  datatype OccupancyEntry = OccupancyEntry(name: string, occupied: nat, available: nat, maintenance: nat)

  /** One slice or bar of the room-type and complaint charts. */
  datatype ChartEntry = ChartEntry(name: string, value: nat)

  /** `generateRoomOccupancyData()`: one entry per hostel, in hostel order,
      counting that hostel's rooms by status. */
  function RoomOccupancyData(hostels: seq<Hostel>, rooms: seq<Room>): (r: seq<OccupancyEntry>)
    ensures |r| == |hostels|
    ensures forall i :: 0 <= i < |r| ==> r[i].name == hostels[i].name
  {
    seq(|hostels|, i requires 0 <= i < |hostels| =>
      var mine := Filter(rooms, InHostel(hostels[i].id));
      OccupancyEntry(hostels[i].name, Count(mine, HasStatus(Occupied)), Count(mine, HasStatus(Available)),
                     Count(mine, HasStatus(Maintenance))))
  }

  /** The reports page and the hostels page agree: a hostel's occupancy
      entry holds the status counts of its room statistics, and they add up
      to the hostel's room total. */
  lemma OccupancyMatchesRoomStats(hostels: seq<Hostel>, rooms: seq<Room>, i: int)
    requires 0 <= i < |hostels|
    ensures var e, st := RoomOccupancyData(hostels, rooms)[i], GetRoomStats(rooms, hostels[i].id);
      e.occupied == st.occupied && e.available == st.available && e.maintenance == st.maintenance
      && e.occupied + e.available + e.maintenance == st.total
  {
    RoomStatsSum(rooms, hostels[i].id);
  }

  function KindIs(t: RoomType): Room -> bool {
    (r: Room) => r.kind == t
  }

  function Undeclared(): Room -> bool {
    (r: Room) => !r.kind.Declared()
  }

  /** A room whose type string is `name`, as the chart compares them. */
  function KindNamed(name: string): Room -> bool {
    (r: Room) => r.kind.Name() == name
  }

  /** A room of hostel `hostelId` whose type string is `name`. */
  function InHostelKindNamed(hostelId: string, name: string): Room -> bool {
    (r: Room) => r.hostelId == hostelId && r.kind.Name() == name
  }

  /** Counting the selected rooms of type `t` is counting those whose type
      string is `t`'s name; for one hostel, it is counting the rooms in the
      whole list that are the hostel's and have that type string. */
  lemma KindCountByName(rooms: seq<Room>, hostelFilter: string, t: RoomType)
    ensures Count(FilteredRooms(rooms, hostelFilter), KindIs(t)) == Count(FilteredRooms(rooms, hostelFilter), KindNamed(t.Name()))
    ensures hostelFilter != AllHostels ==>
      Count(FilteredRooms(rooms, hostelFilter), KindNamed(t.Name())) == Count(rooms, InHostelKindNamed(hostelFilter, t.Name()))
  {
    forall x: Room ensures KindIs(t)(x) == KindNamed(t.Name())(x) {
      assert x.kind.Name() == t.Name() ==> x.kind == t;
    }
    FilterSame(FilteredRooms(rooms, hostelFilter), KindIs(t), KindNamed(t.Name()));
    FilterFilter(rooms, InHostel(hostelFilter), KindNamed(t.Name()), InHostelKindNamed(hostelFilter, t.Name()));
  }

  /** `generateRoomTypesData()`: single, double, triple and quad, each with
      the number of rooms `hostelFilter` selects whose type string is that
      name; for one hostel, the number of rooms in the whole list that are
      that hostel's and of that type. */
  function RoomTypesData(rooms: seq<Room>, hostelFilter: string): (r: seq<ChartEntry>)
    ensures |r| == 4
    ensures r[0].name == "single" && r[1].name == "double" && r[2].name == "triple" && r[3].name == "quad"
    ensures forall k :: 0 <= k < 4 ==> r[k].value == Count(FilteredRooms(rooms, hostelFilter), KindNamed(r[k].name))
    ensures hostelFilter == AllHostels ==> forall k :: 0 <= k < 4 ==> r[k].value == Count(rooms, KindNamed(r[k].name))
    ensures hostelFilter != AllHostels ==>
      forall k :: 0 <= k < 4 ==> r[k].value == Count(rooms, InHostelKindNamed(hostelFilter, r[k].name))
  {
    var selected := FilteredRooms(rooms, hostelFilter);
    KindCountByName(rooms, hostelFilter, Single);
    KindCountByName(rooms, hostelFilter, Double);
    KindCountByName(rooms, hostelFilter, Triple);
    KindCountByName(rooms, hostelFilter, Quad);
    [ChartEntry("single", Count(selected, KindIs(Single))), ChartEntry("double", Count(selected, KindIs(Double))),
     ChartEntry("triple", Count(selected, KindIs(Triple))), ChartEntry("quad", Count(selected, KindIs(Quad)))]
  }

  /** Each room is of one declared type or undeclared, so the four declared
      counts and the undeclared count add up to the number of rooms. */
  lemma {:induction false} RoomKindCounts(rs: seq<Room>)
    ensures Count(rs, KindIs(Single)) + Count(rs, KindIs(Double)) + Count(rs, KindIs(Triple))
          + Count(rs, KindIs(Quad)) + Count(rs, Undeclared()) == |rs|
    decreases |rs|
  {
    if rs != [] {
      RoomKindCounts(rs[1..]);
    }
  }

  /** The four values never exceed the number of selected rooms, and they
      reach it exactly when every selected room has a declared type; a
      quintuple or sextuple room is counted nowhere. */
  lemma RoomTypesDataTotal(rooms: seq<Room>, hostelFilter: string)
    ensures var d, selected := RoomTypesData(rooms, hostelFilter), FilteredRooms(rooms, hostelFilter);
      d[0].value + d[1].value + d[2].value + d[3].value <= |selected|
      && (d[0].value + d[1].value + d[2].value + d[3].value == |selected|
          <==> forall i :: 0 <= i < |selected| ==> selected[i].kind.Declared())
  {
    var selected := FilteredRooms(rooms, hostelFilter);
    RoomKindCounts(selected);
    CountZero(selected, Undeclared());
  }

  function ComplaintStatusIs(s: ComplaintStatus): Complaint -> bool {
    (c: Complaint) => c.status == s
  }

  /** A complaint whose status string is `name`, as the chart compares them. */
  function StatusNamed(name: string): Complaint -> bool {
    (c: Complaint) => c.status.Name() == name
  }

  /** `generateComplaintsData()`: Pending, In Progress and Resolved, each
      with the number of complaints whose status string is "pending",
      "in-progress" and "resolved". */
  function ComplaintsData(complaints: seq<Complaint>): (r: seq<ChartEntry>)
    ensures |r| == 3 && r[0].name == "Pending" && r[1].name == "In Progress" && r[2].name == "Resolved"
    ensures r[0].value == Count(complaints, StatusNamed("pending"))
    ensures r[1].value == Count(complaints, StatusNamed("in-progress"))
    ensures r[2].value == Count(complaints, StatusNamed("resolved"))
  {
    FilterSame(complaints, ComplaintStatusIs(ComplaintPending), StatusNamed("pending"));
    FilterSame(complaints, ComplaintStatusIs(InProgress), StatusNamed("in-progress"));
    FilterSame(complaints, ComplaintStatusIs(Resolved), StatusNamed("resolved"));
    [ChartEntry("Pending", Count(complaints, ComplaintStatusIs(ComplaintPending))),
     ChartEntry("In Progress", Count(complaints, ComplaintStatusIs(InProgress))),
     ChartEntry("Resolved", Count(complaints, ComplaintStatusIs(Resolved)))]
  }

  /** Every complaint has one of the three statuses, so the three values add
      up to the number of complaints. */
  lemma {:induction false} ComplaintsDataTotal(complaints: seq<Complaint>)
    ensures var d := ComplaintsData(complaints); d[0].value + d[1].value + d[2].value == |complaints|
  {
    forall i | 0 <= i < |complaints|
      ensures (if ComplaintStatusIs(ComplaintPending)(complaints[i]) then 1 else 0)
            + (if ComplaintStatusIs(InProgress)(complaints[i]) then 1 else 0)
            + (if ComplaintStatusIs(Resolved)(complaints[i]) then 1 else 0) == 1
    {
      assert complaints[i].status.ComplaintPending? || complaints[i].status.InProgress? || complaints[i].status.Resolved?;
    }
    CountPartition3(complaints, ComplaintStatusIs(ComplaintPending), ComplaintStatusIs(InProgress), ComplaintStatusIs(Resolved));
  }

  /** Everyone but an admin, and a signed-out visitor, gets the restricted
      view. */
  predicate Restricted(user: Option<User>) {
    !(user.Some? && user.value.role == Admin)
  }
}
