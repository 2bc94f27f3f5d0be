/** The local relational store: four tables with the keys, checks and foreign keys of the schema. */
module Store {
  import opened Wrappers
  import opened Bytes
  import opened Sets

  type Time = int

  datatype SubjectRow = SubjectRow(code: Text, name: Text)

  /** csb.Subject */
  datatype Subject = Subject(id: int, code: Text, name: Text)

  datatype StudentRow = StudentRow(name: Text, year: Option<int>, attends: bool, createdAt: Time, updatedAt: Time)

  datatype Period = Period(year: int, term: Option<int>, importance: Option<Text>) {
    /** Period.Full without an error: valid, and every field populated. */
    predicate Full() {
      year >= 2020 && term.Some? && importance.Some? && 1 <= term.value <= 4
    }
  }

  datatype MarkData = MarkData(student: int, subject: int, teacher: Text, percentage: int, period: Period)

  datatype MarkRow = MarkRow(data: MarkData, createdAt: Time)

  datatype Tables = Tables(
    students: map<int, StudentRow>,
    subjects: map<int, SubjectRow>,
    takes: set<(int, int)>,          // student_takes: (student_id, subject_id)
    marks: map<int, MarkRow>)

  // ----- integrity -----

  /** UNIQUE(engage_code) and UNIQUE(name); ids are given out from 1. */
  ghost predicate SubjectsOk(subjects: map<int, SubjectRow>) {
    && 0 !in subjects
    && (forall i, j :: i in subjects && j in subjects && subjects[i].code == subjects[j].code ==> i == j)
    && (forall i, j :: i in subjects && j in subjects && subjects[i].name == subjects[j].name ==> i == j)
  }

  predicate MarkOk(d: MarkData, students: set<int>, subjects: set<int>) {
    d.student in students && d.subject in subjects && 0 <= d.percentage <= 100
  }

  /** Every clause of the schema. */
  ghost predicate Integrity(t: Tables) {
    && SubjectsOk(t.subjects)
    && (forall p :: p in t.takes ==> p.0 in t.students && p.1 in t.subjects)
    && (forall id :: id in t.marks ==> MarkOk(t.marks[id].data, t.students.Keys, t.subjects.Keys))
  }

  lemma IntegrityHasSubjects(t: Tables)
    requires Integrity(t)
    ensures SubjectsOk(t.subjects)
  {}

  // ----- subject lookups -----

  function FindSubjectByName(subjects: map<int, SubjectRow>, name: Text): (r: Result<Subject>)
    requires SubjectsOk(subjects)
    ensures r.Success? ==> r.value.id in subjects && r.value.name == name
                           && subjects[r.value.id] == SubjectRow(r.value.code, r.value.name)
    ensures r.Failure? ==> r.error == NotFound && forall id :: id in subjects ==> subjects[id].name != name
  {
    if exists id :: id in subjects && subjects[id].name == name then
      var id :| id in subjects && subjects[id].name == name;
      Success(Subject(id, subjects[id].code, name))
    else Failure(NotFound)
  }

  function FindSubjectByID(subjects: map<int, SubjectRow>, id: int): (r: Result<Subject>)
    ensures r.Success? <==> id in subjects
    ensures r.Success? ==> r.value.id == id && subjects[id] == SubjectRow(r.value.code, r.value.name)
    ensures r.Failure? ==> r.error == NotFound
  {
    if id in subjects then Success(Subject(id, subjects[id].code, subjects[id].name)) else Failure(NotFound)
  }

  function FindSubjectByEngageCode(subjects: map<int, SubjectRow>, code: Text): (r: Result<Subject>)
    requires SubjectsOk(subjects)
    ensures r.Success? ==> r.value.id in subjects && r.value.code == code
                           && subjects[r.value.id] == SubjectRow(r.value.code, r.value.name)
    ensures r.Failure? ==> r.error == NotFound && forall id :: id in subjects ==> subjects[id].code != code
  {
    if exists id :: id in subjects && subjects[id].code == code then
      var id :| id in subjects && subjects[id].code == code;
      Success(Subject(id, code, subjects[id].name))
    else Failure(NotFound)
  }

  /** The three lookups find the same subject, whichever key is used. */
  lemma LookupsAgree(subjects: map<int, SubjectRow>, s: Subject)
    requires SubjectsOk(subjects)
    ensures FindSubjectByID(subjects, s.id) == Success(s) <==> FindSubjectByName(subjects, s.name) == Success(s)
    ensures FindSubjectByID(subjects, s.id) == Success(s) <==> FindSubjectByEngageCode(subjects, s.code) == Success(s)
  {}

  // ----- the rows of one pupil -----

  function TakesOf(takes: set<(int, int)>, pid: int): set<int> {
    set p | p in takes && p.0 == pid :: p.1
  }

  function MarksOf(marks: map<int, MarkRow>, pid: int): map<int, MarkRow> {
    map id | id in marks && marks[id].data.student == pid :: marks[id]
  }

  predicate InsertedAt(marks: map<int, MarkRow>, marks': map<int, MarkRow>, d: MarkData, id: int, now: Time) {
    id !in marks && marks' == marks[id := MarkRow(d, now)]
  }

  /** marks' is marks with one more row, for d, under an id that was not in use. */
  ghost predicate Inserted(marks: map<int, MarkRow>, marks': map<int, MarkRow>, d: MarkData) {
    exists id, now :: InsertedAt(marks, marks', d, id, now)
  }

  // ----- statements -----

  class DB {
    var students: map<int, StudentRow>
    var subjects: map<int, SubjectRow>
    var takes: set<(int, int)>
    var marks: map<int, MarkRow>

    function Snapshot(): Tables
      reads this
    {
      Tables(students, subjects, takes, marks)
    }

    ghost predicate Valid()
      reads this
    {
      Integrity(Snapshot())
    }

    /** time.Now() */
    method Now() returns (t: Time) {
      t := *;
    }

    method InsertStudent(pid: int, row: StudentRow) returns (r: Outcome)
      requires Valid()
      modifies this
      ensures Valid()
      ensures Snapshot() == if r.Pass? then old(Snapshot()).(students := old(students)[pid := row]) else old(Snapshot())
      ensures r == if pid in old(students) then Fail(Constraint) else Pass
    {
      if pid in students {
        return Fail(Constraint);
      }
      students := students[pid := row];
      return Pass;
    }

    /** UPDATE students; an absent row is no error. */
    method UpdateStudentRow(pid: int, year: Option<int>, attends: bool, now: Time)
      requires Valid()
      modifies this`students
      ensures Valid()
      ensures students == if pid in old(students)
                          then old(students)[pid := old(students)[pid].(year := year, attends := attends,
                              updatedAt := now)]
                          else old(students)
    {
      if pid in students {
        students := students[pid := students[pid].(year := year, attends := attends, updatedAt := now)];
      }
    }

    /** DELETE FROM students, with ON DELETE CASCADE on both referring tables. */
    method DeleteStudentRow(pid: int)
      requires Valid()
      modifies this`students, this`takes, this`marks
      ensures Valid()
      ensures students == old(students) - {pid}
      ensures takes == set p | p in old(takes) && p.0 != pid
      ensures marks == map id | id in old(marks) && old(marks)[id].data.student != pid :: old(marks)[id]
    {
      students := students - {pid};
      takes := set p | p in takes && p.0 != pid;
      marks := map id | id in marks && marks[id].data.student != pid :: marks[id];
    }

    method InsertTakes(pid: int, subject: int) returns (r: Outcome)
      requires Valid()
      modifies this`takes
      ensures Valid()
      ensures r == if (pid, subject) in old(takes) || pid !in students || subject !in subjects then Fail(Constraint)
                else Pass
      ensures takes == if r.Pass? then old(takes) + {(pid, subject)} else old(takes)
    {
      if (pid, subject) in takes || pid !in students || subject !in subjects {
        return Fail(Constraint);
      }
      takes := takes + {(pid, subject)};
      return Pass;
    }

    /** INSERT INTO marks; the id is one that is not in use. */
    method InsertMark(d: MarkData) returns (r: Outcome)
      requires Valid()
      modifies this`marks
      ensures Valid()
      ensures r == if MarkOk(d, students.Keys, subjects.Keys) then Pass else Fail(Constraint)
      ensures r.Fail? ==> marks == old(marks)
      ensures r.Pass? ==> Inserted(old(marks), marks, d)
    {
      if !MarkOk(d, students.Keys, subjects.Keys) {
        return Fail(Constraint);
      }
      var now := Now();
      FreshIdExists(marks);
      var id :| id > 0 && id !in marks;
      marks := marks[id := MarkRow(d, now)];
      assert InsertedAt(old(marks), marks, d, id, now);
      return Pass;
    }
  }

  lemma FreshIdExists(marks: map<int, MarkRow>)
    ensures exists id :: id > 0 && id !in marks
  {
    var bound := UpperBound(marks.Keys);
    assert bound > 0 && bound !in marks;
  }
}
