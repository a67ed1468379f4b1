/** The bookings page (src/pages/dashboard/bookings.tsx): the list each
    role sees, the approve/reject dialog and the page's role gate. */
module BookingsPage {
  import opened Seqs
  import opened Types
  import opened DataContext

  function BookedBy(studentId: string): Booking -> bool {
    (b: Booking) => b.studentId == studentId
  }

  /** `filteredBookings`: a student's own bookings; everyone else (and the
      signed-out render before the gate) sees them all. */
  function FilteredBookings(bookings: seq<Booking>, user: Option<User>): (r: seq<Booking>)
    ensures user.Some? && user.value.role == Student ==> forall i :: 0 <= i < |r| ==> r[i].studentId == user.value.id
    ensures !(user.Some? && user.value.role == Student) ==> r == bookings
  {
    if user.Some? && user.value.role == Student then Filter(bookings, BookedBy(user.value.id)) else bookings
  }

  /** A student sees exactly their own bookings, each as often as stored. */
  lemma StudentSeesOwnBookings(bookings: seq<Booking>, student: User)
    requires student.role == Student
    ensures forall b :: (b in FilteredBookings(bookings, Some(student)) <==> b in bookings && b.studentId == student.id)
    ensures IsSubseq(FilteredBookings(bookings, Some(student)), bookings)
  {
    FilterMembers(bookings, BookedBy(student.id));
    FilterExact(bookings, BookedBy(student.id));
  }

  /** Approve and Reject are enabled only on a pending booking. */
  predicate Actionable(b: Booking) {
    b.status == BookingPending
  }

  /** The permission-denied view: a role outside admin, staff and student,
      which for the three roles a `User` can have means no user at all. */
  predicate AccessDenied(user: Option<User>) {
    !(user.Some? && (user.value.role == Admin || user.value.role == Staff || user.value.role == Student))
  }

  lemma AccessDeniedExactlyWithoutUser(user: Option<User>)
    ensures AccessDenied(user) <==> user.None?
  {
    if user.Some? {
      assert user.value.role.Admin? || user.value.role.Staff? || user.value.role.Student?;
    }
  }

  /** A status change rewrites the status of the bookings with the selected
      id and leaves every other field and every other booking alone. */
  lemma {:induction false} StatusChangeEffect(bookings: seq<Booking>, id: string, s: BookingStatus, i: int)
    requires 0 <= i < |bookings|
    ensures var r := Updated(bookings, BookingKey, id, ApplyBookingPatch, BookingStatusPatch(s));
      |r| == |bookings| && r[i] == if bookings[i].id == id then bookings[i].(status := s) else bookings[i]
  {
    UpdateRewritesMatches(bookings, BookingKey, id, ApplyBookingPatch, BookingStatusPatch(s), i);
    BookingStatusPatchLaws(bookings[i], s);
  }

  /** The dialog's state over a shared store. */
  class BookingsPage {
    const store: DataStore
    var selected: Option<Booking>
    var bookingStatus: BookingStatus

    constructor (store: DataStore)
      ensures this.store == store && selected.None? && bookingStatus == BookingPending
    {
      this.store := store;
      selected, bookingStatus := None, BookingPending;
    }

    /** The Approve button (disabled unless the booking is pending). */
    method Approve(b: Booking)
      requires Actionable(b)
      modifies this
      ensures selected == Some(b) && bookingStatus == Approved
    {
      selected, bookingStatus := Some(b), Approved;
    }

    /** The Reject button (disabled unless the booking is pending). */
    method Reject(b: Booking)
      requires Actionable(b)
      modifies this
      ensures selected == Some(b) && bookingStatus == Rejected
    {
      selected, bookingStatus := Some(b), Rejected;
    }

    /** `handleStatusChange`: without a selection nothing happens; otherwise
        the selected booking's id gets the chosen status. */
    method HandleStatusChange()
      modifies store`bookings
      ensures selected.None? ==> store.bookings == old(store.bookings)
      ensures selected.Some? ==>
        store.bookings == Updated(old(store.bookings), BookingKey, selected.value.id, ApplyBookingPatch, BookingStatusPatch(bookingStatus))
    {
      if selected.None? {
        return;
      }
      store.UpdateBooking(selected.value.id, BookingStatusPatch(bookingStatus));
    }
  }
}
