/** The students page (src/pages/dashboard/students.tsx): its own list of
    students, the search box and the add-student form. */
module StudentsPage {
  import opened Seqs
  import opened Text
  import opened Types
  import opened DataContext

  datatype StudentRow = StudentRow(id: string, name: string, email: string, room: string, hostel: string, avatar: string)

  datatype StudentForm = StudentForm(name: string, email: string, room: string, hostel: string)

  const EmptyStudentForm: StudentForm := StudentForm("", "", "", "")

  const SeedStudents: seq<StudentRow> := [
    StudentRow("student1", "John Student", "student@hostel.com", "102", "Sunrise Hostel", AvatarFor("student")),
    StudentRow("student2", "Sarah Johnson", "sarah@example.com", "205", "Maple Residence", AvatarFor("sarah")),
    StudentRow("student3", "Michael Chen", "michael@example.com", "301", "Horizon Heights", AvatarFor("michael")),
    StudentRow("student4", "Lisa Anderson", "lisa@example.com", "110", "Sunrise Hostel", AvatarFor("lisa"))
  ]

  /** `{ id, ...form, avatar }` with the avatar seeded by the new id. */
  function MakeStudent(form: StudentForm, id: string): (s: StudentRow)
    ensures s.id == id && StudentForm(s.name, s.email, s.room, s.hostel) == form && s.avatar == AvatarFor(id)
  {
    StudentRow(id, form.name, form.email, form.room, form.hostel, AvatarFor(id))
  }

  /** The search predicate: name, email and hostel are compared lower-cased,
      the room number as typed. */
  function Matches(query: string): StudentRow -> bool {
    (s: StudentRow) =>
      var q := ToLower(query);
      Includes(ToLower(s.name), q) || Includes(ToLower(s.email), q)
      || Includes(s.room, query) || Includes(ToLower(s.hostel), q)
  }

  /** `filteredStudents`: exactly the students whose name, email or hostel
      holds the query ignoring case, or whose room holds it as typed, in
      their original order. */
  function FilteredStudents(students: seq<StudentRow>, query: string): (r: seq<StudentRow>)
    ensures |r| <= |students|
    ensures forall s :: s in r <==>
      s in students && (Includes(ToLower(s.name), ToLower(query)) || Includes(ToLower(s.email), ToLower(query))
                        || Includes(s.room, query) || Includes(ToLower(s.hostel), ToLower(query)))
    ensures IsSubseq(r, students)
  {
    FilterMembers(students, Matches(query));
    FilterExact(students, Matches(query));
    Filter(students, Matches(query))
  }

  /** An empty search keeps every student. */
  lemma EmptySearchKeepsAll(students: seq<StudentRow>)
    ensures FilteredStudents(students, "") == students
  {
    forall i | 0 <= i < |students| ensures Matches("")(students[i]) {
      IncludesEmpty(ToLower(students[i].name));
    }
    FilterKeepsAll(students, Matches(""));
  }

  /** The room number is the one case-sensitive field: a student in room
      "B1" is found by "B1" but not by "b1", although searching a name
      ignores case. */
  lemma {:induction false} RoomSearchIsCaseSensitive()
    ensures var s := StudentRow("s", "x", "y", "B1", "z", "");
      Matches("B1")(s) && !Matches("b1")(s)
  {
    var s := StudentRow("s", "x", "y", "B1", "z", "");
    assert "B1" <= s.room;
    assert ToLower("x") == "x" && ToLower("y") == "y" && ToLower("z") == "z" && ToLower("b1") == "b1";
    assert !Includes("x", "b1") && !Includes("y", "b1") && !Includes("z", "b1");
    assert !Includes("B1", "b1") by {
      assert "b1"[0] != "B1"[0];
      assert !Includes("1", "b1") by { assert !Includes("", "b1"); }
    }
  }

  /** The add is rejected when the name or the email is empty (no trimming:
      a blank of spaces passes). */
  predicate AddRejected(form: StudentForm) {
    form.name == "" || form.email == ""
  }

  /** Everyone but staff and admin, and a signed-out visitor, gets the
      restricted view. */
  predicate Restricted(user: Option<User>) {
    !(user.Some? && (user.value.role == Staff || user.value.role == Admin))
  }

  class StudentsPage {
    var students: seq<StudentRow>
    var searchQuery: string
    var newStudent: StudentForm

    constructor ()
      ensures students == SeedStudents && searchQuery == "" && newStudent == EmptyStudentForm
    {
      students, searchQuery, newStudent := SeedStudents, "", EmptyStudentForm;
    }

    /** `handleAddStudent`: a rejected form changes nothing; otherwise one
        student with id `student{length + 1}` is appended and the form is
        reset. */
    method HandleAddStudent() returns (added: bool)
      modifies this`students, this`newStudent
      ensures added == !AddRejected(old(newStudent))
      ensures !added ==> students == old(students) && newStudent == old(newStudent)
      ensures added ==> students == Added(old(students), MakeStudent, "student", old(newStudent))
                        && newStudent == EmptyStudentForm
    {
      if AddRejected(newStudent) {
        return false;
      }
      students := Added(students, MakeStudent, "student", newStudent);
      newStudent := EmptyStudentForm;
      added := true;
    }
  }
}
