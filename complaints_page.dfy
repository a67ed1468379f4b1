/** The complaints page (src/pages/dashboard/complaints.tsx): the list a
    visitor sees, the new-complaint form and the staff response form. The
    forms are fields of `ComplaintsPage`; submitting one calls the data
    store. The signed-in user and the clock are parameters. */
module ComplaintsPage {
  import opened Seqs
  import opened Text
  import opened Types
  import opened DataContext

  /** The filter value that disables a filter. */
  const All: string := "all"

  function OwnedBy(studentId: string): Complaint -> bool {
    (c: Complaint) => c.studentId == studentId
  }

  function StatusIs(status: string): Complaint -> bool {
    (c: Complaint) => c.status.Name() == status
  }

  /** `c.category === categoryFilter`: a complaint without a category never
      matches a string. */
  function CategoryIs(category: string): Complaint -> bool {
    (c: Complaint) => c.category == Some(category)
  }

  /** What `getFilteredComplaints` keeps, one complaint at a time. */
  predicate Visible(c: Complaint, user: User, statusFilter: string, categoryFilter: string) {
    (user.role == Student ==> c.studentId == user.id)
    && (statusFilter != All ==> c.status.Name() == statusFilter)
    && (categoryFilter != All ==> c.category == Some(categoryFilter))
  }

  /** `getFilteredComplaints()`: nothing without a user; a student's own
      complaints only; then the status and category filters unless "all". */
  function GetFilteredComplaints(complaints: seq<Complaint>, user: Option<User>, statusFilter: string, categoryFilter: string): (r: seq<Complaint>)
    ensures user.None? ==> r == []
    ensures |r| <= |complaints|
  {
    if user.None? then []
    else
      var own := if user.value.role == Student then Filter(complaints, OwnedBy(user.value.id)) else complaints;
      var byStatus := if statusFilter != All then Filter(own, StatusIs(statusFilter)) else own;
      if categoryFilter != All then Filter(byStatus, CategoryIs(categoryFilter)) else byStatus
  }

  /** The chain of filters is one filter by `Visible`: the list holds every
      visible complaint, each as often as in the store, in store order. */
  lemma {:induction false} FilteredIsVisible(complaints: seq<Complaint>, user: User, statusFilter: string, categoryFilter: string)
    ensures GetFilteredComplaints(complaints, Some(user), statusFilter, categoryFilter)
         == Filter(complaints, (c: Complaint) => Visible(c, user, statusFilter, categoryFilter))
    decreases |complaints|
  {
    if complaints != [] {
      FilteredIsVisible(complaints[1..], user, statusFilter, categoryFilter);
    }
  }

  /** A complaint is listed exactly when it is in the store and visible;
      in particular a student never sees another student's complaint. */
  lemma FilteredMembers(complaints: seq<Complaint>, user: User, statusFilter: string, categoryFilter: string)
    ensures forall c :: (c in GetFilteredComplaints(complaints, Some(user), statusFilter, categoryFilter)
                         <==> c in complaints && Visible(c, user, statusFilter, categoryFilter))
  {
    FilteredIsVisible(complaints, user, statusFilter, categoryFilter);
    FilterMembers(complaints, (c: Complaint) => Visible(c, user, statusFilter, categoryFilter));
  }

  /** Admin and staff with both filters at "all" see every complaint. */
  lemma NoFilterShowsAll(complaints: seq<Complaint>, user: User)
    requires user.role != Student
    ensures GetFilteredComplaints(complaints, Some(user), All, All) == complaints
  {
  }

  /** The complaint `handleSubmitComplaint` sends to the store. */
  function SubmittedDraft(user: User, message: string, category: string, priority: Priority, now: string): (d: ComplaintDraft)
    ensures d.studentId == user.id && d.studentName == user.name && d.message == message
    ensures d.status == ComplaintPending && d.response.None? && d.staffId.None? && d.date == now
  {
    ComplaintDraft(user.id, user.name, message, Some(category), Some(priority), None,
                   ComplaintPending, None, None, now, None)
  }

  /** The patch `handleSubmitResponse` sends to the store. */
  function ResponsePatch(response: string, status: ComplaintStatus, staff: User, now: string): ComplaintPatch {
    ComplaintPatch(None, None, None, None, None, None, Some(response), Some(status), Some(staff.id),
                   Some(staff.name), None, Some(now))
  }

  /** A response rewrites the response, status, staff and verification date
      of a complaint and nothing else. */
  lemma ResponseTouchesOnlyResponseFields(c: Complaint, response: string, status: ComplaintStatus, staff: User, now: string)
    ensures ApplyComplaintPatch(c, ResponsePatch(response, status, staff, now))
         == c.(response := Some(response), status := status, staffId := Some(staff.id),
               staffName := Some(staff.name), verificationDate := Some(now))
  {
  }

  /** The respond button is enabled unless the complaint is resolved. */
  predicate CanRespond(c: Complaint) {
    c.status != Resolved
  }

  /** The page's form state over a shared store. */
  class ComplaintsPage {
    const store: DataStore
    var newComplaint: string
    var category: string
    var priority: Priority
    var selected: Option<Complaint>
    var response: string
    var status: ComplaintStatus

    constructor (store: DataStore)
      ensures this.store == store
      ensures newComplaint == "" && category == "maintenance" && priority == Medium
      ensures selected.None? && response == "" && status == InProgress
    {
      this.store := store;
      newComplaint, category, priority := "", "maintenance", Medium;
      selected, response, status := None, "", InProgress;
    }

    /** Whitespace-only text or no user: nothing happens. Otherwise one
        pending complaint by the user is added and the form is reset. */
    method HandleSubmitComplaint(user: Option<User>, now: string)
      modifies this, store`complaints
      ensures IsBlank(old(newComplaint)) || user.None? ==>
        store.complaints == old(store.complaints) && unchanged(this)
      ensures !IsBlank(old(newComplaint)) && user.Some? ==>
        store.complaints == Added(old(store.complaints), MakeComplaint, "c",
                                  SubmittedDraft(user.value, old(newComplaint), old(category), old(priority), now))
        && newComplaint == "" && category == "maintenance" && priority == Medium
        && selected == old(selected) && response == old(response) && status == old(status)
    {
      if IsBlank(newComplaint) || user.None? {
        return;
      }
      store.AddComplaint(SubmittedDraft(user.value, newComplaint, category, priority, now));
      newComplaint, category, priority := "", "maintenance", Medium;
    }

    /** The respond button's click: select the complaint and preload its
        response and status. */
    method OpenResponse(c: Complaint)
      requires CanRespond(c)
      modifies this`selected, this`response, this`status
      ensures selected == Some(c) && response == c.response.GetOr("") && status == c.status
    {
      selected, response, status := Some(c), c.response.GetOr(""), c.status;
    }

    /** No selection, whitespace-only response or no user: nothing happens.
        Otherwise the selected complaint's id is patched and the response
        form is reset. */
    method HandleSubmitResponse(user: Option<User>, now: string)
      modifies this, store`complaints
      ensures old(selected).None? || IsBlank(old(response)) || user.None? ==>
        store.complaints == old(store.complaints) && unchanged(this)
      ensures old(selected).Some? && !IsBlank(old(response)) && user.Some? ==>
        store.complaints == Updated(old(store.complaints), ComplaintKey, old(selected).value.id,
                                    ApplyComplaintPatch, ResponsePatch(old(response), old(status), user.value, now))
        && selected.None? && response == "" && status == InProgress
        && newComplaint == old(newComplaint) && category == old(category) && priority == old(priority)
    {
      if selected.None? || IsBlank(response) || user.None? {
        return;
      }
      store.UpdateComplaint(selected.value.id, ResponsePatch(response, status, user.value, now));
      response, status, selected := "", InProgress, None;
    }
  }
}
