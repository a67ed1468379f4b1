# HostelMS dashboard logic in Dafny

HostelMS is a role-based hostel management dashboard. Admins, staff and
students sign in and work on hostels, rooms, bookings, complaints,
documents, students and user accounts. All state lives in memory. This
project models the logic under the markup:

- **The domain store** (`DataContext.DataStore`). It holds six collections
  seeded from mock arrays. `add*` appends a record whose id is a prefix
  followed by the old length plus one. `update*` spreads a partial patch
  over the records with a matching id. `delete*` filters records out by id.
  `markNotificationAsRead` sets `read` on the matching notifications.
  `Types` holds the records, their `Omit<T, "id">` drafts and their
  `Partial<T>` patches (every field an `Option`).
- **The session store** (`AuthContext`). It holds the signed-in user, the
  `isAuthenticated` flag and the browser storage slot `"hostel-user"`, with
  login against the demo password and the three mock accounts, logout and
  rehydration on mount.
- **The access gate** (`DashboardLayout.Decide`): send the visitor to
  `/login`, to `/dashboard`, or render the page.
- **The page rules**:
  - role and ownership filters, status, category and hostel filters;
  - per-hostel and per-status counts and the report datasets;
  - case-insensitive search;
  - the id rules of the users, students and documents pages;
  - the form guards and form resets;
  - the sidebar menu, the notification badge and the activity-log limit.

Each page whose handlers change state is a class. Its fields are the page's
form state. Pages built on the shared store hold it as `store` and change
only the store collection they name in `modifies`. Each handler's `ensures`
ties the new state to a pure function of the old one, and lemmas prove what
the source promises about those functions.

On a role mismatch the layout's effect redirects to `/dashboard`, and its
render still shows the page, because the render only checks
`isAuthenticated` (src/layouts/dashboard-layout.tsx:23-32).
`LayoutDecision` therefore carries both a redirect and a render flag.

The `Room` type declares four room types: single, double, triple and quad
(src/types/index.ts:13). The add-room form also offers four: triple, quad,
quintuple and sextuple (src/pages/dashboard/rooms.tsx:42, 174-177), listed
as `RoomsPage.FormRoomTypes`. Two of them lie outside the `Room` type. It passes the choice to the
store unchecked, so the store can hold quintuple and sextuple rooms.
`Types.RoomType` has six constructors, the union of the two lists, and
`Declared()` marks the four the type admits.
`ReportsPage.RoomTypesDataTotal` shows the consequence: a quintuple or
sextuple room is counted in no chart entry.

## Model

| member | source | states |
|---|---|---|
| Seqs.Filter | src/pages/dashboard/complaints.tsx:73-86 | `Array.prototype.filter`: the result is no longer than the input and every element it keeps passes the predicate |
| Seqs.FilterExact | src/contexts/data-context.tsx:232-234 | filtering keeps order and multiplicity: the result is a subsequence, and each kept value occurs as often as in the input, each dropped value not at all |
| Seqs.FilterMembers | src/pages/dashboard/complaints.tsx:73-86 | a value is in the filtered list exactly when it is in the input and passes |
| Seqs.FilterKeepsAll | src/pages/dashboard/users.tsx:109-114 | a filter every element passes returns the input unchanged |
| Seqs.FilterAppend | src/pages/dashboard/index.tsx:24 | the filter of a concatenation is the concatenation of the filters |
| Seqs.CountPartition3 | src/pages/dashboard/hostels.tsx:52-57 | counts by three mutually exclusive predicates that cover every element add up to the length |
| Seqs.CountZero | src/pages/dashboard/index.tsx:237 | `filter(p).length === 0` exactly when no element passes `p` |
| Seqs.FilterDropsOne | src/contexts/data-context.tsx:232-234 | when only the element at one position fails, the filter removes exactly that element |
| Seqs.FilterSame | src/pages/dashboard/reports.tsx:67 | two predicates that agree on every value filter every list alike |
| Seqs.FilterFilter | src/pages/dashboard/hostels.tsx:51-54 | filtering by one predicate and then another is filtering once by their conjunction |
| Seqs.CountComplement | src/pages/dashboard/hostels.tsx:51 | the elements that pass and those that fail together number the whole list |
| Seqs.Count | src/pages/dashboard/index.tsx:22-24 | `filter(p).length` never exceeds the length |
| Seqs.Take | src/pages/dashboard/index.tsx:111 | `slice(0, k)` is a prefix of length `min(k, n)` |
| Seqs.FirstIndex | src/pages/dashboard/index.tsx:171-173 | `find` stops at the first passing index; there is none exactly when no element passes |
| Seqs.Find | src/contexts/auth-context.tsx:71-73 | `find` returns a passing element that no earlier element precedes, and `undefined` exactly when none passes |
| Text.NatToString | src/contexts/data-context.tsx:223 | the `${n}` of a count is a non-empty digit string, one digit exactly below 10 |
| Text.DigitChar | src/contexts/data-context.tsx:223 | one decimal digit's character, with that digit's value |
| Text.DigitValue | src/pages/dashboard/users.tsx:118 | a digit character's value is below 10 |
| Text.ParseNatToString | src/pages/dashboard/users.tsx:118 | `parseInt` reads back the number that `toString` wrote |
| Text.NatToStringInjective | src/contexts/data-context.tsx:223 | distinct counts render as distinct strings |
| Text.PrefixedInjective | src/contexts/data-context.tsx:223 | `prefix${a}` equals `prefix${b}` exactly when `a == b`, for a prefix without digits |
| Text.ToLower | src/pages/dashboard/users.tsx:110-113 | `toLowerCase` keeps the length and lower-cases each ASCII letter in place |
| Text.ToLowerIdempotent | src/pages/dashboard/users.tsx:110-113 | lower-casing twice is lower-casing once |
| Text.IncludesEmpty | src/pages/dashboard/users.tsx:110 | every string includes the empty query |
| Text.IncludesAt | src/pages/dashboard/users.tsx:110-113 | `includes` holds exactly when the query occurs at some offset |
| Text.IncludesWitness | src/pages/dashboard/users.tsx:110-113 | when `includes` holds, the query occurs at some offset |
| Text.OccursIncludes | src/pages/dashboard/users.tsx:110-113 | an occurrence at any offset makes `includes` hold |
| Text.IsBlank | src/pages/dashboard/complaints.tsx:92 | `!s.trim()`: every character is ECMAScript whitespace or a line terminator (a definition; no contract) |
| Text.Utf16Length | src/pages/dashboard/profile.tsx:40 | `length` counts UTF-16 code units: one per character plus one more for each character beyond the Basic Multilingual Plane, so between one and two per character |
| Types.MakeHostel | src/contexts/data-context.tsx:221-224 | the new hostel carries the given id, and dropping the id gives the draft back |
| Types.MakeRoom | src/contexts/data-context.tsx:238-241 | the new room carries the given id, and dropping the id gives the draft back |
| Types.MakeBooking | src/contexts/data-context.tsx:255-258 | the new booking carries the given id, and dropping the id gives the draft back |
| Types.MakeComplaint | src/contexts/data-context.tsx:272-275 | the new complaint carries the given id, and dropping the id gives the draft back |
| Types.BookingStatusPatchLaws | src/pages/dashboard/bookings.tsx:48-50 | a `{ status }` patch changes a booking's status and nothing else, and is idempotent |
| Types.RoomStatusPatchLaws | src/pages/dashboard/rooms.tsx:65-67 | a `{ status }` patch changes a room's status and nothing else, and is idempotent |
| Types.HostelPatchLaws | src/contexts/data-context.tsx:228-230 | spread semantics: an empty patch changes nothing, a patch is idempotent, two patches compose with the later present fields winning |
| Types.ApplyHostelPatch | src/contexts/data-context.tsx:228-230 | `{ ...h, ...patch }`: each field the patch holds replaces the hostel's (a definition; no contract); its laws are `Types.HostelPatchLaws` |
| Types.ApplyRoomPatch | src/contexts/data-context.tsx:245-247 | `{ ...r, ...patch }` on a room (a definition; no contract); its status law is `Types.RoomStatusPatchLaws` |
| Types.ApplyBookingPatch | src/contexts/data-context.tsx:262-264 | `{ ...b, ...patch }` on a booking (a definition; no contract); its status law is `Types.BookingStatusPatchLaws` |
| Types.ApplyComplaintPatch | src/contexts/data-context.tsx:279-281 | `{ ...c, ...patch }` on a complaint (a definition; no contract); what a response changes is `ComplaintsPage.ResponseTouchesOnlyResponseFields` |
| DataContext.Added | src/contexts/data-context.tsx:220-226 | an add yields one more record and keeps the old collection as its prefix |
| DataContext.Updated | src/contexts/data-context.tsx:228-230 | an update keeps the length |
| DataContext.NextId | src/contexts/data-context.tsx:223 | the new id is the prefix followed by a decimal numeral that reads back as the old length plus one |
| DataContext.Deleted | src/contexts/data-context.tsx:232-234 | a delete never grows the list and leaves no record with the id; `DataContext.DeleteRemovesExactly` states exactly what is kept |
| DataContext.MarkRead | src/contexts/data-context.tsx:288-292 | the notification comes back read and otherwise unchanged |
| DataContext.AddAppendsOne | src/contexts/data-context.tsx:220-226 | an add appends exactly one record at the end, earlier records in place, with id prefix followed by old length plus one |
| DataContext.UpdateRewritesMatches | src/contexts/data-context.tsx:245-247 | an update rewrites exactly the records whose id matches, by the patch, and leaves every other record in place |
| DataContext.UpdateAbsentIsIdentity | src/contexts/data-context.tsx:229 | updating an id no record carries leaves the collection identical |
| DataContext.UpdateIdempotent | src/contexts/data-context.tsx:262-264 | an update by an id-keeping, idempotent patch applied twice is applied once |
| DataContext.DeleteRemovesExactly | src/contexts/data-context.tsx:249-251 | a delete removes every record with the id and keeps the rest in order, each as often as before |
| DataContext.DeleteAbsentIsIdentity | src/contexts/data-context.tsx:233 | deleting an id no record carries leaves the collection identical |
| DataContext.AddKeepsSequentialIds | src/contexts/data-context.tsx:223 | adding to a collection whose ids are prefix 1..n keeps them prefix 1..n+1 |
| DataContext.SequentialIdsDistinct | src/contexts/data-context.tsx:223 | such sequential ids are pairwise distinct |
| DataContext.DeleteDistinctRemovesOne | src/contexts/data-context.tsx:266-268 | deleting an id carried by one record removes exactly that record |
| DataContext.DeleteThenAddDuplicatesId | src/contexts/data-context.tsx:223 | deleting any record but the last, then adding, duplicates the last record's id |
| DataContext.SeedHostelIdCollision | src/contexts/data-context.tsx:6-31 | with the seeded h1..h3, deleting h2 and adding a hostel leaves two hostels with id "h3" |
| DataContext.MarkReadSetsOnlyMatches | src/contexts/data-context.tsx:288-292 | `markNotificationAsRead` sets `read` on the matching notifications only, and is idempotent |
| DataContext.SeedCollisionScenario | src/contexts/data-context.tsx:220-234 | through the store's methods, the delete-then-add sequence gives two hostels with id "h3" |
| DataContext.DataStore.constructor | src/contexts/data-context.tsx:207-212 | the store starts with the six mock collections |
| DataContext.DataStore.AddHostel | src/contexts/data-context.tsx:220-226 | `hostels` becomes the old list with the new hostel appended, and nothing else changes |
| DataContext.DataStore.UpdateHostel | src/contexts/data-context.tsx:228-230 | `hostels` becomes the old list with the patch spread over the matching records |
| DataContext.DataStore.DeleteHostel | src/contexts/data-context.tsx:232-234 | `hostels` becomes the old list without the records carrying the id |
| DataContext.DataStore.AddRoom | src/contexts/data-context.tsx:237-243 | `rooms` becomes the old list with the new room appended |
| DataContext.DataStore.UpdateRoom | src/contexts/data-context.tsx:245-247 | `rooms` becomes the old list with the patch spread over the matching records |
| DataContext.DataStore.DeleteRoom | src/contexts/data-context.tsx:249-251 | `rooms` becomes the old list without the records carrying the id |
| DataContext.DataStore.AddBooking | src/contexts/data-context.tsx:254-260 | `bookings` becomes the old list with the new booking appended |
| DataContext.DataStore.UpdateBooking | src/contexts/data-context.tsx:262-264 | `bookings` becomes the old list with the patch spread over the matching records |
| DataContext.DataStore.DeleteBooking | src/contexts/data-context.tsx:266-268 | `bookings` becomes the old list without the records carrying the id |
| DataContext.DataStore.AddComplaint | src/contexts/data-context.tsx:271-277 | `complaints` becomes the old list with the new complaint appended |
| DataContext.DataStore.UpdateComplaint | src/contexts/data-context.tsx:279-281 | `complaints` becomes the old list with the patch spread over the matching records |
| DataContext.DataStore.DeleteComplaint | src/contexts/data-context.tsx:283-285 | `complaints` becomes the old list without the records carrying the id |
| DataContext.DataStore.MarkNotificationAsRead | src/contexts/data-context.tsx:288-292 | `notifications` becomes the old list with the matching notifications marked read |
| AuthContext.Authenticate | src/contexts/auth-context.tsx:63-77 | a wrong password fails; a success is a mock user with the requested username and role; a failure with the right password means no mock user has both |
| AuthContext.AuthenticateAccepts | src/contexts/auth-context.tsx:7-32 | login succeeds exactly for the demo password with admin/admin, staff/staff or student/student |
| AuthContext.Rehydrate | src/contexts/auth-context.tsx:55-61 | a stored user is restored and marked signed in; an empty slot leaves null and false |
| AuthContext.AfterLogin | src/contexts/auth-context.tsx:63-87 | the result is the authentication outcome; a failure leaves the state unchanged; a success sets the user, the flag and the slot |
| AuthContext.AfterLogout | src/contexts/auth-context.tsx:89-93 | logout clears the user and the flag and removes only the session slot |
| AuthContext.SyncedInvariant | src/contexts/auth-context.tsx:55-93 | rehydration, login and logout keep the flag, the user and the slot in agreement |
| AuthContext.LogoutLaws | src/contexts/auth-context.tsx:89-93 | logout is idempotent, and login followed by logout ends where logout alone does |
| AuthContext.Session.constructor | src/contexts/auth-context.tsx:55-61 | the provider's state after mount is the rehydrated state |
| AuthContext.Session.Login | src/contexts/auth-context.tsx:63-87 | the new state and the result are those of `AfterLogin` |
| AuthContext.Session.Logout | src/contexts/auth-context.tsx:89-93 | the new state is that of `AfterLogout` |
| DashboardLayout.Decide | src/layouts/dashboard-layout.tsx:17-40 | renders exactly when signed in; `/login` exactly when signed out; `/dashboard` exactly when signed in with a role mismatch; no redirect otherwise |
| DashboardLayout.OpenPages | src/layouts/dashboard-layout.tsx:23-25 | without a required role every signed-in visitor renders without redirect, and a signed-out one never goes to `/dashboard` |
| DashboardLayout.GateAfterSession | src/layouts/dashboard-layout.tsx:17-30 | after a successful login with a role, a page requiring that role renders; after logout every page sends to `/login` and renders nothing |
| ComplaintsPage.GetFilteredComplaints | src/pages/dashboard/complaints.tsx:70-87 | no user gives an empty list; the list never grows |
| ComplaintsPage.FilteredIsVisible | src/pages/dashboard/complaints.tsx:70-87 | the filter chain is one filter by the visibility rule (own complaints for students, exact status and category unless "all") |
| ComplaintsPage.FilteredMembers | src/pages/dashboard/complaints.tsx:73-86 | a complaint is listed exactly when it is stored and visible to the user |
| ComplaintsPage.NoFilterShowsAll | src/pages/dashboard/complaints.tsx:73-86 | admin and staff with both filters at "all" see every complaint |
| ComplaintsPage.Visible | src/pages/dashboard/complaints.tsx:70-87 | the rule the filter chain applies to one complaint: a student's own only, then the status and category filters unless "all" (a definition; no contract); `ComplaintsPage.FilteredIsVisible` ties it to the chain |
| ComplaintsPage.CanRespond | src/pages/dashboard/complaints.tsx:300-311 | the respond button is enabled unless the complaint is resolved (a definition; no contract) |
| ComplaintsPage.ResponsePatch | src/pages/dashboard/complaints.tsx:116-122 | the patch a response sends (a definition; no contract); `ComplaintsPage.ResponseTouchesOnlyResponseFields` states what it changes |
| ComplaintsPage.SubmittedDraft | src/pages/dashboard/complaints.tsx:94-104 | a submitted complaint carries the user's id and name, the text, status pending and no response |
| ComplaintsPage.ResponseTouchesOnlyResponseFields | src/pages/dashboard/complaints.tsx:116-122 | a response patches only response, status, staff id, staff name and verification date |
| ComplaintsPage.ComplaintsPage.constructor | src/pages/dashboard/complaints.tsx:52-67 | the forms start empty, with category maintenance, priority medium and status in-progress |
| ComplaintsPage.ComplaintsPage.HandleSubmitComplaint | src/pages/dashboard/complaints.tsx:91-111 | whitespace-only text or no user changes nothing; otherwise one complaint is appended and the form resets |
| ComplaintsPage.ComplaintsPage.OpenResponse | src/pages/dashboard/complaints.tsx:299-318 | the respond button, enabled unless resolved, selects the complaint and preloads its response and status |
| ComplaintsPage.ComplaintsPage.HandleSubmitResponse | src/pages/dashboard/complaints.tsx:113-130 | no selection, blank response or no user changes nothing; otherwise the selected id is patched and the form resets |
| BookingsPage.FilteredBookings | src/pages/dashboard/bookings.tsx:41-43 | a student's list holds only their bookings; everyone else sees all |
| BookingsPage.StudentSeesOwnBookings | src/pages/dashboard/bookings.tsx:41-43 | a student sees exactly their bookings, as an order-preserving subsequence |
| BookingsPage.Actionable | src/pages/dashboard/bookings.tsx:120 | approve and reject are enabled only on a pending booking (a definition; no contract) |
| BookingsPage.AccessDenied | src/pages/dashboard/bookings.tsx:158-170 | the permission-denied view for a role outside admin, staff and student (a definition; no contract); `BookingsPage.AccessDeniedExactlyWithoutUser` states when it shows |
| BookingsPage.AccessDeniedExactlyWithoutUser | src/pages/dashboard/bookings.tsx:158-170 | the permission-denied view shows exactly when there is no user |
| BookingsPage.StatusChangeEffect | src/pages/dashboard/bookings.tsx:48-50 | a status change rewrites only the status of the bookings with the selected id |
| BookingsPage.BookingsPage.constructor | src/pages/dashboard/bookings.tsx:36-38 | no booking selected, status pending |
| BookingsPage.BookingsPage.Approve | src/pages/dashboard/bookings.tsx:119-135 | enabled on a pending booking; selects it with status approved |
| BookingsPage.BookingsPage.Reject | src/pages/dashboard/bookings.tsx:136-148 | enabled on a pending booking; selects it with status rejected |
| BookingsPage.BookingsPage.HandleStatusChange | src/pages/dashboard/bookings.tsx:45-54 | without a selection nothing changes; otherwise the selected id gets the chosen status |
| RoomsPage.FilteredRooms | src/pages/dashboard/rooms.tsx:49-51 | "all" yields every room; a hostel id yields only rooms of that hostel |
| RoomsPage.FilteredRoomsExact | src/pages/dashboard/rooms.tsx:49-51 | for a hostel id the list is exactly its rooms, in order |
| RoomsPage.DefaultRoomDraft | src/pages/dashboard/rooms.tsx:40-46 | the form value is number "", triple, available, 75000 and the first hostel's id or "" |
| RoomsPage.StatusColor | src/pages/dashboard/rooms.tsx:69-80 | `getStatusColor` (a definition; no contract); `RoomsPage.StatusColorDistinct` states its laws |
| RoomsPage.RoomTypeIconAsWritten | src/pages/dashboard/rooms.tsx:82-95 | `getRoomTypeIcon` as written, as its bed count (a definition; no contract); `RoomsPage.QuintupleShowsThreeBeds` exhibits the bad label |
| RoomsPage.RoomTypeIcon | src/pages/dashboard/rooms.tsx:82-95 | `getRoomTypeIcon` with the label corrected (a definition; no contract); `RoomsPage.RoomTypeIconMatchesBeds` states its law |
| RoomsPage.AssignEnabled | src/pages/dashboard/rooms.tsx:302-304 | the assign button is enabled only on an available room (a definition; no contract) |
| RoomsPage.StatusColorDistinct | src/pages/dashboard/rooms.tsx:69-80 | the three statuses get three distinct colours, none the default, and any other string the default |
| RoomsPage.QuintupleShowsThreeBeds | src/pages/dashboard/rooms.tsx:82-95 | as written, a quintuple room gets the default three-bed icon |
| RoomsPage.RoomTypeIconMatchesBeds | src/pages/dashboard/rooms.tsx:168-177 | with the corrected label, every type the form offers gets an icon with as many beds as the room sleeps |
| RoomsPage.RoomsPage.constructor | src/pages/dashboard/rooms.tsx:36-46 | hostel filter "all", form at its default value |
| RoomsPage.RoomsPage.HandleAddRoom | src/pages/dashboard/rooms.tsx:53-63 | the form is appended to the rooms unchecked and reset |
| RoomsPage.RoomsPage.HandleStatusUpdate | src/pages/dashboard/rooms.tsx:65-67 | the rooms are updated by a status-only patch |
| HostelsPage.GetRoomStats | src/pages/dashboard/hostels.tsx:50-62 | each status count is the number of rooms in the whole list that are in the hostel and have that status; the total plus the rooms of other hostels is the whole list; no status count exceeds the total |
| HostelsPage.RoomStatsSum | src/pages/dashboard/hostels.tsx:52-61 | available, occupied and maintenance add up to the total |
| HostelsPage.RoomStatsTotalIsHostelRooms | src/pages/dashboard/hostels.tsx:51-57 | the total is positive when some room has the hostel id, zero exactly when none has it, and the whole list exactly when every room has it, whatever the hostel's stored counts |
| HostelsPage.HostelsPage.constructor | src/pages/dashboard/hostels.tsx:29-35 | the form starts empty |
| HostelsPage.HostelsPage.HandleAddHostel | src/pages/dashboard/hostels.tsx:37-47 | the form is appended to the hostels and reset to empty |
| ReportsPage.RoomOccupancyData | src/pages/dashboard/reports.tsx:42-58 | one entry per hostel, in hostel order, named after it |
| ReportsPage.OccupancyMatchesRoomStats | src/pages/dashboard/reports.tsx:42-58 | each entry's counts are the hostel's room statistics and add up to its total |
| ReportsPage.KindCountByName | src/pages/dashboard/reports.tsx:67-70 | counting the selected rooms of a type is counting those whose type string is its name, and for one hostel the rooms of the whole list that are the hostel's with that type string |
| ReportsPage.RoomTypesData | src/pages/dashboard/reports.tsx:61-73 | four entries single, double, triple, quad; each value is the number of selected rooms whose type string is the entry's name, over all rooms for "all" and over the rooms of that hostel in the whole list otherwise |
| ReportsPage.RoomKindCounts | src/pages/dashboard/reports.tsx:67-70 | the four declared counts and the undeclared count add up to the number of rooms |
| ReportsPage.RoomTypesDataTotal | src/pages/dashboard/reports.tsx:61-73 | the four values sum to at most the selected rooms, exactly when every selected room has a declared type |
| ReportsPage.ComplaintsData | src/pages/dashboard/reports.tsx:76-88 | three entries Pending, In Progress, Resolved whose values are the numbers of complaints with status "pending", "in-progress" and "resolved" |
| ReportsPage.ComplaintsDataTotal | src/pages/dashboard/reports.tsx:76-88 | the three values add up to the number of complaints |
| ReportsPage.Restricted | src/pages/dashboard/reports.tsx:98-111 | everyone but an admin, and a signed-out visitor, gets the restricted view (a definition; no contract) |
| DashboardHome.RoomCountersCover | src/pages/dashboard/index.tsx:22-23 | available, occupied and maintenance rooms make up all rooms |
| DashboardHome.AvailableRooms | src/pages/dashboard/index.tsx:22 | the counter is at most the number of rooms and zero exactly when no room is available |
| DashboardHome.OccupiedRooms | src/pages/dashboard/index.tsx:23 | the counter is at most the number of rooms and zero exactly when no room is occupied |
| DashboardHome.PendingComplaints | src/pages/dashboard/index.tsx:24 | the counter is at most the number of complaints and zero exactly when none is pending |
| DashboardHome.PendingMatchesReport | src/pages/dashboard/index.tsx:24 | the home page's pending counter equals the reports page's Pending value; both count the pending complaints, so this records an agreement between two pages that holds by definition |
| DashboardHome.ComplaintTrend | src/pages/dashboard/index.tsx:53 | the trend is up exactly when more than five complaints are pending |
| DashboardHome.TrendMonotone | src/pages/dashboard/index.tsx:96 | adding a complaint never turns the trend from up to down |
| DashboardHome.RecentComplaints | src/pages/dashboard/index.tsx:107-111 | at most the first five complaints, five when there are five, none exactly when there are none |
| DashboardHome.StudentBooking | src/pages/dashboard/index.tsx:171-173 | the booking found is the user's and stored; none means the user has no booking; no user finds none |
| DashboardHome.StudentBookingIsFirst | src/pages/dashboard/index.tsx:171-173 | the booking found is the earliest booking of the student |
| DashboardHome.StudentComplaints | src/pages/dashboard/index.tsx:237 | only the user's complaints; none without a user |
| DashboardHome.StudentComplaintsExact | src/pages/dashboard/index.tsx:247-248 | exactly the stored complaints with the user's id |
| DashboardHome.RoomById | src/pages/dashboard/index.tsx:208 | the room found is the first stored room with the id; none means no room has it |
| DashboardHome.RoomTypeLabel | src/pages/dashboard/index.tsx:208 | a missing room shows "Standard" |
| DashboardHome.FeeShown | src/pages/dashboard/index.tsx:214 | a missing room shows a fee of 0 |
| MyRoomPage.HostelById | src/pages/dashboard/my-room.tsx:30-31 | the hostel found is the first stored hostel with the id; none means no hostel has it |
| MyRoomPage.Lookup | src/pages/dashboard/my-room.tsx:21-31 | the booking is the student's booking; the room is the first room with the booking's room id, looked up only with a booking; the hostel is the first hostel with the booking's hostel id, looked up only with a booking and a room |
| MyRoomPage.LookupFindsStoredLinks | src/pages/dashboard/my-room.tsx:26-31 | a stored room of the booking is found, and then a stored hostel of the booking is found |
| MyRoomPage.RoomImage | src/pages/dashboard/my-room.tsx:34-42 | picture 1 exactly for double, 2 exactly for triple or quad, 0 otherwise, including no room |
| MyRoomPage.OrElse | src/pages/dashboard/my-room.tsx:109 | `s \|\| d`: a non-empty string shows itself, an empty one gives the fallback, and the result is empty only when the fallback is |
| MyRoomPage.HostelNameShown | src/pages/dashboard/my-room.tsx:109 | the name cell is never empty: it shows a non-empty stored name, and "Unknown" for a missing hostel or an empty name |
| MyRoomPage.HostelLocationShown | src/pages/dashboard/my-room.tsx:136 | the location cell is never empty: it shows a non-empty stored location, and "Unknown" for a missing hostel or an empty location |
| MyRoomPage.TotalRoomsShown | src/pages/dashboard/my-room.tsx:143 | a missing hostel shows 0 rooms |
| MyRoomPage.EmptyHostelNameShowsUnknown | src/pages/dashboard/my-room.tsx:109 | a hostel with an empty name shows "Unknown" |
| MyRoomPage.Restricted | src/pages/dashboard/my-room.tsx:44-57 | everyone but a student, and a signed-out visitor, gets the restricted view (a definition; no contract) |
| UsersPage.IncreasingIdsDistinct | src/pages/dashboard/users.tsx:118 | increasing numeric ids are pairwise distinct |
| UsersPage.SeedIdsIncrease | src/pages/dashboard/users.tsx:43-94 | the seeded ids 1..5 increase |
| UsersPage.NewAccountId | src/pages/dashboard/users.tsx:118 | the new id is a digit string whose value is the last id's plus one, or 1 for an empty list |
| UsersPage.NewAccount | src/pages/dashboard/users.tsx:118-125 | the row an add appends: the next id, the form, "active", the date and the generated avatar (a definition; no contract); `UsersPage.AddKeepsIncreasingIds` states its id law |
| UsersPage.AddKeepsIncreasingIds | src/pages/dashboard/users.tsx:116-136 | an add keeps the ids increasing, so the new id is unlike every other |
| UsersPage.FilterKeepsIncreasingIds | src/pages/dashboard/users.tsx:138-141 | a delete keeps the ids increasing |
| UsersPage.Toggle | src/pages/dashboard/users.tsx:143-150 | a toggle keeps the id and changes the status |
| UsersPage.ToggleTwiceRestores | src/pages/dashboard/users.tsx:143-150 | toggling the same id twice restores the list |
| UsersPage.ToggleFlipsMatchesOnly | src/pages/dashboard/users.tsx:143-150 | a toggle flips active and inactive on the matching accounts only |
| UsersPage.ToggleKeepsIncreasingIds | src/pages/dashboard/users.tsx:143-150 | a toggle keeps the ids increasing |
| UsersPage.Matches | src/pages/dashboard/users.tsx:109-114 | the search rule for one account: name, email, username or role contains the query, ignoring case (a definition; no contract); `UsersPage.FilteredAccounts` states the list it selects |
| UsersPage.FilteredAccounts | src/pages/dashboard/users.tsx:109-114 | exactly the accounts whose name, email, username or role contains the query ignoring case, as a subsequence of the list in its order |
| UsersPage.SearchLaws | src/pages/dashboard/users.tsx:109-114 | an empty query keeps every account, and the query's case does not matter |
| UsersPage.UsersPage.constructor | src/pages/dashboard/users.tsx:43-106 | the seeded accounts, an empty search and the empty form with role student |
| UsersPage.UsersPage.HandleAddUser | src/pages/dashboard/users.tsx:116-136 | one active account appended with the next id, the form reset, ids still increasing |
| UsersPage.UsersPage.HandleDeleteUser | src/pages/dashboard/users.tsx:138-141 | the accounts with the id removed, ids still increasing |
| UsersPage.UsersPage.HandleToggleStatus | src/pages/dashboard/users.tsx:143-150 | the matching account's status flipped, ids still increasing |
| StudentsPage.MakeStudent | src/pages/dashboard/students.tsx:91-96 | the new row carries the id, the form's fields and an avatar seeded by the id |
| StudentsPage.FilteredStudents | src/pages/dashboard/students.tsx:76-81 | exactly the students whose name, email or hostel contains the query ignoring case, or whose room contains it as typed, as a subsequence of the list in its order |
| StudentsPage.EmptySearchKeepsAll | src/pages/dashboard/students.tsx:76-81 | an empty search keeps every student |
| StudentsPage.RoomSearchIsCaseSensitive | src/pages/dashboard/students.tsx:76-81 | room "B1" is found by "B1" but not by "b1" |
| StudentsPage.Matches | src/pages/dashboard/students.tsx:76-81 | the search rule for one student: name, email or hostel contains the query ignoring case, or the room contains it as typed (a definition; no contract); `StudentsPage.FilteredStudents` states the list it selects |
| StudentsPage.AddRejected | src/pages/dashboard/students.tsx:85-88 | an add is refused when the name or the email is empty, with no trimming (a definition; no contract) |
| StudentsPage.Restricted | src/pages/dashboard/students.tsx:104-117 | everyone but staff and admin, and a signed-out visitor, gets the restricted view (a definition; no contract) |
| StudentsPage.StudentsPage.constructor | src/pages/dashboard/students.tsx:29-74 | the seeded students, an empty search and an empty form |
| StudentsPage.StudentsPage.HandleAddStudent | src/pages/dashboard/students.tsx:83-102 | an empty name or email changes nothing; otherwise `student{n+1}` is appended and the form resets |
| DocumentsPage.MakeUpload | src/pages/dashboard/documents.tsx:55-64 | an upload is a pending "New Document" with the given id and date |
| DocumentsPage.SeedDocumentIdCollision | src/pages/dashboard/documents.tsx:56 | deleting doc2 from the seeds and uploading gives a second "doc3" |
| DocumentsPage.DeleteEnabled | src/pages/dashboard/documents.tsx:158 | the delete button is enabled unless the document is approved (a definition; no contract) |
| DocumentsPage.Restricted | src/pages/dashboard/documents.tsx:72-85 | everyone but a student, and a signed-out visitor, gets the restricted view (a definition; no contract) |
| DocumentsPage.DocumentsPage.constructor | src/pages/dashboard/documents.tsx:23-48 | the seeded documents |
| DocumentsPage.DocumentsPage.HandleUpload | src/pages/dashboard/documents.tsx:50-65 | one upload appended with id `doc{n+1}` |
| DocumentsPage.DocumentsPage.HandleDelete | src/pages/dashboard/documents.tsx:67-70 | the documents with the id removed, the rest in order |
| DocumentsPage.UploadAfterDeleteScenario | src/pages/dashboard/documents.tsx:50-70 | through the page's methods, delete then upload gives two documents "doc3" |
| ProfilePage.InitialForm | src/pages/dashboard/profile.tsx:15-21 | empty passwords and the demo phone number; the user's name and email with a user, empty ones without |
| ProfilePage.Changed | src/pages/dashboard/profile.tsx:23-26 | the named field takes the value and every other field keeps its value |
| ProfilePage.ChangeLaws | src/pages/dashboard/profile.tsx:23-26 | changing a field back undoes a change, and writing the current value changes nothing |
| ProfilePage.CheckPassword | src/pages/dashboard/profile.tsx:34-47 | mismatch exactly when the entries differ; too short exactly when they agree under six code units; accepted otherwise |
| ProfilePage.AstralPasswordPasses | src/pages/dashboard/profile.tsx:40 | three characters beyond the Basic Multilingual Plane pass the six-unit rule |
| ProfilePage.ProfilePage.constructor | src/pages/dashboard/profile.tsx:15-21 | the form starts at its initial value |
| ProfilePage.ProfilePage.HandleChange | src/pages/dashboard/profile.tsx:23-26 | only the named field changes |
| ProfilePage.ProfilePage.HandlePasswordChange | src/pages/dashboard/profile.tsx:34-47 | a rejected password leaves the form; an accepted one clears only the two password fields |
| Sidebar.NavItems | src/components/dashboard/sidebar.tsx:57-154 | the menu starts with Dashboard and ends with Profile |
| Sidebar.NavItemsByRole | src/components/dashboard/sidebar.tsx:65-154 | admin gets 8 entries, staff 7, anyone else (no user included) 5, with the role's items in the middle |
| Sidebar.Active | src/components/dashboard/sidebar.tsx:188 | an entry is highlighted exactly when the path is its link (a definition; no contract); `Sidebar.AtMostOneActive` states that one entry at most is |
| Sidebar.AtMostOneActive | src/components/dashboard/sidebar.tsx:188 | no two entries share a link, so at most one is highlighted |
| Header.UnreadCount | src/components/dashboard/header.tsx:30 | the count is zero exactly when every listed notification is read |
| Header.ShowBadge | src/components/dashboard/header.tsx:55 | the badge shows exactly when the unread count is positive (a definition; no contract) |
| Header.Synced | src/components/dashboard/header.tsx:21-28 | with a user, exactly the notifications addressed to them, as a subsequence of the store's list; without one the list is left as it was |
| Header.MarkReadLowersUnread | src/components/dashboard/header.tsx:74 | marking read never raises the unread count, and lowers it when a notification with the id was unread |
| Header.Header.constructor | src/components/dashboard/header.tsx:21 | the list starts as every notification |
| Header.Header.Sync | src/components/dashboard/header.tsx:23-28 | the list becomes the user's own notifications, or stays without a user |
| Header.Header.Click | src/components/dashboard/header.tsx:74 | a click marks the notification read in the store |
| ActivityLogList.DisplayLogs | src/components/dashboard/activity-log.tsx:10-11 | a prefix of the logs; 0 shows all; a positive limit shows `min(k, n)`; a negative one drops that many from the end |
| ActivityLogList.DefaultShowsFirstFive | src/components/dashboard/activity-log.tsx:10-11 | without a limit at most the first five logs, none exactly when there are no logs |
| ActivityLogList.EmptyMessageExactlyWhenNoLogs | src/components/dashboard/activity-log.tsx:19-20 | for a non-negative limit the empty message shows exactly when there are no logs |

## Findings

| source | as written | input that shows it | evidently intended | confidence | as-written member | corrected member |
|---|---|---|---|---|---|---|
| src/pages/dashboard/rooms.tsx:88 | `getRoomTypeIcon` has the case label `"quintuple "` with a trailing space | a room of type `"quintuple"` gets the default three-bed icon | the label `"quintuple"`, giving five beds | not executed | RoomsPage.QuintupleShowsThreeBeds | RoomsPage.RoomTypeIconMatchesBeds |

## Left out

- `formatPrice` (src/contexts/data-context.tsx:215-217) uses the locale formatting of `toLocaleString('en-IN')`. That is library behaviour, so it is not modelled.
- The storage slot is a `map<string, User>`. The JSON encoding is not modelled, and neither is a parse failure on a corrupted value.
- `new Date()`, `toISOString` and `toLocaleDateString` produce opaque strings, passed in as `now` or `today`.
- `login` is treated as synchronous. React's effect and render scheduling becomes explicit calls (`Header.Header.Sync`).
- `parseInt` returning NaN for a non-numeric id is not modelled. `UsersPage.UsersPage.Valid` keeps every id a digit string.
- `toLowerCase` lower-cases ASCII letters only. Full Unicode case mapping is not modelled.
- Prices and counts are unbounded integers rather than JavaScript doubles.
- A `Partial<T>` patch cannot set an optional field back to `undefined`. A present value overwrites and an absent one keeps the old value.
- The markup, dialogs and their open flags, toasts, charts, icons and CSS classes are not modelled. So are the badge classes, beyond the four colours `RoomsPage.StatusColor` chooses between.
- The role dispatch of the home page (src/pages/dashboard/index.tsx:295-297) is not modelled; it only chooses which markup to render.
- The `Document` type in src/types/index.ts is not modelled. No page uses it; the documents page declares its own record.
- The `timeFrame` selector of the reports page is not modelled. None of the datasets reads it.
- The sidebar's `collapsed` flag and the header's role title are not modelled; they are presentation only.
- The profile page's `handleProfileUpdate` is not modelled; it only shows a toast.
- `UsersPage.Toggle` models the status as active or inactive. The source's ternary would turn any other string into "active", which the seeded data never holds.
- `ComplaintsPage.GetFilteredComplaints` states only the no-user case and the length bound. The full filter is stated by `ComplaintsPage.FilteredIsVisible` and `ComplaintsPage.FilteredMembers`.
- The landing page, the stats card and the route table (src/App.tsx) are not part of this model. They are markup or configuration of a routing library.
