/** The record types of the dashboard (src/types/index.ts), the shapes the
    data store's `add*` operations take (`Omit<T, "id">`, here `…Draft`) and
    the shapes its `update*` operations take (`Partial<T>`, here `…Patch`:
    every field optional, a present field overwrites, an absent one keeps). */
module Types {
  import opened Seqs

  datatype Role = Admin | Staff | Student {
    /** The string the source stores and compares. */
    function Name(): string {
      match this
      case Admin => "admin"
      case Staff => "staff"
      case Student => "student"
    }
  }

  /** Room types. The `Room` type declares single, double, triple and quad;
      the add-room form of the rooms page also offers quintuple and sextuple
      and passes them through to the store unchecked, so the store can hold
      all six. `Declared()` marks the four the type admits. */
  datatype RoomType = Single | Double | Triple | Quad | Quintuple | Sextuple {
    function Name(): string {
      match this
      case Single => "single"
      case Double => "double"
      case Triple => "triple"
      case Quad => "quad"
      case Quintuple => "quintuple"
      case Sextuple => "sextuple"
    }

    predicate Declared() {
      this in {Single, Double, Triple, Quad}
    }
  }

  datatype RoomStatus = Available | Occupied | Maintenance {
    function Name(): string {
      match this
      case Available => "available"
      case Occupied => "occupied"
      case Maintenance => "maintenance"
    }
  }

  datatype BookingStatus = BookingPending | Approved | Rejected | Cancelled {
    function Name(): string {
      match this
      case BookingPending => "pending"
      case Approved => "approved"
      case Rejected => "rejected"
      case Cancelled => "cancelled"
    }
  }

  datatype ComplaintStatus = ComplaintPending | InProgress | Resolved {
    function Name(): string {
      match this
      case ComplaintPending => "pending"
      case InProgress => "in-progress"
      case Resolved => "resolved"
    }
  }

  datatype Priority = Low | Medium | High

  datatype NotificationType = Info | Warning | Success | Error

  /** The generated avatar picture every seeded account and every added
      user or student gets, seeded by a string. */
  function AvatarFor(seed: string): string {
    "https://api.dicebear.com/7.x/bottts/svg?seed=" + seed
  }

  datatype User = User(id: string, username: string, name: string, email: string, role: Role, avatar: Option<string>)

  /** `type` is a Dafny keyword, so the room's type is the field `kind`. */
  datatype Room = Room(id: string, number: string, kind: RoomType, status: RoomStatus, price: int, hostelId: string)

  datatype Hostel = Hostel(id: string, name: string, location: string, totalRooms: int, availableRooms: int, image: Option<string>)

  datatype Booking = Booking(
    id: string, studentId: string, studentName: string, roomId: string, roomNumber: string,
    hostelId: string, hostelName: string, status: BookingStatus, bookingDate: string)

  datatype Complaint = Complaint(
    id: string, studentId: string, studentName: string, message: string,
    category: Option<string>, priority: Option<Priority>, response: Option<string>,
    status: ComplaintStatus, staffId: Option<string>, staffName: Option<string>,
    date: string, verificationDate: Option<string>)

  datatype ActivityLog = ActivityLog(id: string, adminId: string, adminName: string, action: string, targetUser: Option<string>, timestamp: string)

  datatype Notification = Notification(id: string, userId: string, message: string, kind: NotificationType, read: bool, createdAt: string)

  // ---- `Omit<T, "id">`: what an `add*` receives --------------------------

  datatype HostelDraft = HostelDraft(name: string, location: string, totalRooms: int, availableRooms: int, image: Option<string>)

  datatype RoomDraft = RoomDraft(number: string, kind: RoomType, status: RoomStatus, price: int, hostelId: string)

  datatype BookingDraft = BookingDraft(
    studentId: string, studentName: string, roomId: string, roomNumber: string,
    hostelId: string, hostelName: string, status: BookingStatus, bookingDate: string)

  datatype ComplaintDraft = ComplaintDraft(
    studentId: string, studentName: string, message: string,
    category: Option<string>, priority: Option<Priority>, response: Option<string>,
    status: ComplaintStatus, staffId: Option<string>, staffName: Option<string>,
    date: string, verificationDate: Option<string>)

  /** `{ ...draft, id }`: the draft's fields plus the given id; dropping the
      id from the record gives the draft back. */
  function MakeHostel(d: HostelDraft, id: string): (h: Hostel)
    ensures h.id == id && HostelDraft(h.name, h.location, h.totalRooms, h.availableRooms, h.image) == d
  {
    Hostel(id, d.name, d.location, d.totalRooms, d.availableRooms, d.image)
  }

  function MakeRoom(d: RoomDraft, id: string): (r: Room)
    ensures r.id == id && RoomDraft(r.number, r.kind, r.status, r.price, r.hostelId) == d
  {
    Room(id, d.number, d.kind, d.status, d.price, d.hostelId)
  }

  function MakeBooking(d: BookingDraft, id: string): (b: Booking)
    ensures b.id == id
    ensures BookingDraft(b.studentId, b.studentName, b.roomId, b.roomNumber, b.hostelId, b.hostelName, b.status, b.bookingDate) == d
  {
    Booking(id, d.studentId, d.studentName, d.roomId, d.roomNumber, d.hostelId, d.hostelName, d.status, d.bookingDate)
  }

  function MakeComplaint(d: ComplaintDraft, id: string): (c: Complaint)
    ensures c.id == id
    ensures ComplaintDraft(c.studentId, c.studentName, c.message, c.category, c.priority, c.response,
                           c.status, c.staffId, c.staffName, c.date, c.verificationDate) == d
  {
    Complaint(id, d.studentId, d.studentName, d.message, d.category, d.priority, d.response,
              d.status, d.staffId, d.staffName, d.date, d.verificationDate)
  }

  // ---- `Partial<T>`: what an `update*` receives --------------------------

  datatype HostelPatch = HostelPatch(
    id: Option<string>, name: Option<string>, location: Option<string>,
    totalRooms: Option<int>, availableRooms: Option<int>, image: Option<string>)

  datatype RoomPatch = RoomPatch(
    id: Option<string>, number: Option<string>, kind: Option<RoomType>,
    status: Option<RoomStatus>, price: Option<int>, hostelId: Option<string>)

  datatype BookingPatch = BookingPatch(
    id: Option<string>, studentId: Option<string>, studentName: Option<string>,
    roomId: Option<string>, roomNumber: Option<string>, hostelId: Option<string>,
    hostelName: Option<string>, status: Option<BookingStatus>, bookingDate: Option<string>)

  datatype ComplaintPatch = ComplaintPatch(
    id: Option<string>, studentId: Option<string>, studentName: Option<string>,
    message: Option<string>, category: Option<string>, priority: Option<Priority>,
    response: Option<string>, status: Option<ComplaintStatus>, staffId: Option<string>,
    staffName: Option<string>, date: Option<string>, verificationDate: Option<string>)

  /** Overlays a present optional field (`{ ...x, ...patch }` for a field the
      record type marks optional). */
  function Overlay<T>(patch: Option<T>, prev: Option<T>): Option<T> {
    if patch.Some? then patch else prev
  }

  /** `{ ...h, ...patch }`. */
  function ApplyHostelPatch(h: Hostel, p: HostelPatch): Hostel {
    Hostel(p.id.GetOr(h.id), p.name.GetOr(h.name), p.location.GetOr(h.location),
           p.totalRooms.GetOr(h.totalRooms), p.availableRooms.GetOr(h.availableRooms), Overlay(p.image, h.image))
  }

  function ApplyRoomPatch(r: Room, p: RoomPatch): Room {
    Room(p.id.GetOr(r.id), p.number.GetOr(r.number), p.kind.GetOr(r.kind),
         p.status.GetOr(r.status), p.price.GetOr(r.price), p.hostelId.GetOr(r.hostelId))
  }

  function ApplyBookingPatch(b: Booking, p: BookingPatch): Booking {
    Booking(p.id.GetOr(b.id), p.studentId.GetOr(b.studentId), p.studentName.GetOr(b.studentName),
            p.roomId.GetOr(b.roomId), p.roomNumber.GetOr(b.roomNumber), p.hostelId.GetOr(b.hostelId),
            p.hostelName.GetOr(b.hostelName), p.status.GetOr(b.status), p.bookingDate.GetOr(b.bookingDate))
  }

  function ApplyComplaintPatch(c: Complaint, p: ComplaintPatch): Complaint {
    Complaint(p.id.GetOr(c.id), p.studentId.GetOr(c.studentId), p.studentName.GetOr(c.studentName),
              p.message.GetOr(c.message), Overlay(p.category, c.category), Overlay(p.priority, c.priority),
              Overlay(p.response, c.response), p.status.GetOr(c.status), Overlay(p.staffId, c.staffId),
              Overlay(p.staffName, c.staffName), p.date.GetOr(c.date), Overlay(p.verificationDate, c.verificationDate))
  }

  /** The patch `{ status }` that the bookings and rooms pages send. */
  function BookingStatusPatch(s: BookingStatus): BookingPatch {
    BookingPatch(None, None, None, None, None, None, None, Some(s), None)
  }

  function RoomStatusPatch(s: RoomStatus): RoomPatch {
    RoomPatch(None, None, None, Some(s), None, None)
  }

  /** A `{ status }` patch changes a booking's status and nothing else, and
      applying it twice is applying it once. */
  lemma BookingStatusPatchLaws(b: Booking, s: BookingStatus)
    ensures ApplyBookingPatch(b, BookingStatusPatch(s)) == b.(status := s)
    ensures ApplyBookingPatch(ApplyBookingPatch(b, BookingStatusPatch(s)), BookingStatusPatch(s)) == ApplyBookingPatch(b, BookingStatusPatch(s))
  {
  }

  /** A `{ status }` patch changes a room's status and nothing else. */
  lemma RoomStatusPatchLaws(r: Room, s: RoomStatus)
    ensures ApplyRoomPatch(r, RoomStatusPatch(s)) == r.(status := s)
    ensures ApplyRoomPatch(ApplyRoomPatch(r, RoomStatusPatch(s)), RoomStatusPatch(s)) == ApplyRoomPatch(r, RoomStatusPatch(s))
  {
  }

  /** Spread semantics: an all-absent patch changes nothing, a patch is
      idempotent, and two patches in a row are one patch in which the later
      one's present fields win. */
  lemma HostelPatchLaws(h: Hostel, p: HostelPatch, q: HostelPatch)
    ensures ApplyHostelPatch(h, HostelPatch(None, None, None, None, None, None)) == h
    ensures ApplyHostelPatch(ApplyHostelPatch(h, p), p) == ApplyHostelPatch(h, p)
    ensures ApplyHostelPatch(ApplyHostelPatch(h, p), q)
         == ApplyHostelPatch(h, HostelPatch(Overlay(q.id, p.id), Overlay(q.name, p.name), Overlay(q.location, p.location),
                                            Overlay(q.totalRooms, p.totalRooms), Overlay(q.availableRooms, p.availableRooms),
                                            Overlay(q.image, p.image)))
  {
  }
}
