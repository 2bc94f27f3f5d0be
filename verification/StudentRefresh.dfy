/** sqlite/student.go: the statements on one pupil, and the loop over a range of pupil ids. */
module StudentRefresh {
  import opened Wrappers
  import opened Bytes
  import opened Sets
  import opened Store
  import opened Reconcile

  // ----- what a refresh leaves behind -----

  /** Nothing stored about pupil pid differs between t and t'. */
  ghost predicate SameRows(t: Tables, t': Tables, pid: int) {
    && (pid in t'.students <==> pid in t.students)
    && (pid in t.students ==> t'.students[pid] == t.students[pid])
    && TakesOf(t'.takes, pid) == TakesOf(t.takes, pid)
    && MarksOf(t'.marks, pid) == MarksOf(t.marks, pid)
  }

  ghost predicate OthersKept(t: Tables, t': Tables, pid: int) {
    t'.subjects == t.subjects && forall q :: q != pid ==> SameRows(t, t', q)
  }

  /** The row of pupil pid keeps its creation time, and is not written at all when Engage has no answer. */
  ghost predicate Stamped(t: Tables, t': Tables, pid: int, reply: Reply) {
    pid in t'.students ==>
      if pid !in t.students then t'.students[pid].createdAt == t'.students[pid].updatedAt
      else if reply.Present? then t'.students[pid].createdAt == t.students[pid].createdAt
      else t'.students[pid] == t.students[pid]
  }

  /** Pupil pid in t' is the reconcile of its rows in t with Engage's answer; its marks go with it or stay. */
  ghost predicate RefreshedAt(t: Tables, t': Tables, pid: int, reply: Reply, purge: bool)
    requires SubjectsOk(t.subjects)
  {
    && Reconciled(t.subjects, pid, reply, EntryOf(t, pid), purge) == Success(EntryOf(t', pid))
    && MarksOf(t'.marks, pid) == (if pid in t'.students then MarksOf(t.marks, pid) else map[])
    && Stamped(t, t', pid, reply)
  }

  /** t' is t with the n pupils from start on refreshed and every other row as it was. */
  ghost predicate Refreshed(t: Tables, t': Tables, start: int, n: int, engage: int -> Reply, purge: bool)
    requires SubjectsOk(t.subjects)
  {
    && (forall pid :: start <= pid < start + n ==> RefreshedAt(t, t', pid, engage(pid), purge))
    && OutsideKept(t, t', start, n)
  }

  /** Every pupil of the range can be reconciled. */
  ghost predicate CanRefresh(t: Tables, start: int, n: int, engage: int -> Reply, purge: bool)
    requires SubjectsOk(t.subjects)
  {
    forall pid :: start <= pid < start + n ==> Reconciled(t.subjects, pid, engage(pid), EntryOf(t, pid), purge).Success?
  }

  /** Equal in everything but timestamps. */
  ghost predicate SameContent(t: Tables, t': Tables) {
    && t'.subjects == t.subjects
    && forall pid :: EntryOf(t', pid) == EntryOf(t, pid) && MarksOf(t'.marks, pid) == MarksOf(t.marks, pid)
  }

  ghost predicate OutsideKept(t: Tables, t': Tables, start: int, n: int) {
    t'.subjects == t.subjects && forall pid :: pid < start || start + n <= pid ==> SameRows(t, t', pid)
  }

  // ----- what becomes of each of Engage's answers, row by row -----

  /** No mark of pupil pid is new, changed or gone. */
  ghost predicate MarkRowsKept(t: Tables, t': Tables, pid: int) {
    && (forall id :: id in t.marks && t.marks[id].data.student == pid ==>
          id in t'.marks && t'.marks[id] == t.marks[id])
    && (forall id :: id in t'.marks && t'.marks[id].data.student == pid ==>
          id in t.marks && t.marks[id] == t'.marks[id])
  }

  /** Every row of pupil pid, in every table, is in t' exactly as it was in t. */
  ghost predicate RowsKept(t: Tables, t': Tables, pid: int) {
    && (pid in t'.students <==> pid in t.students)
    && (pid in t.students ==> t'.students[pid] == t.students[pid])
    && (forall s :: (pid, s) in t'.takes <==> (pid, s) in t.takes)
    && MarkRowsKept(t, t', pid)
  }

  /** No table has a row of pupil pid. */
  ghost predicate NoRows(t: Tables, pid: int) {
    && pid !in t.students
    && (forall s :: (pid, s) !in t.takes)
    && (forall id :: id in t.marks ==> t.marks[id].data.student != pid)
  }

  lemma TakesArePairs(takes: set<(int, int)>, pid: int)
    ensures forall s: int :: s in TakesOf(takes, pid) <==> (pid, s) in takes
  {}

  lemma SameMarksSameRows(t: Tables, t': Tables, pid: int)
    requires MarksOf(t'.marks, pid) == MarksOf(t.marks, pid)
    ensures MarkRowsKept(t, t', pid)
  {
    forall id: int | id in t.marks && t.marks[id].data.student == pid
      ensures id in t'.marks && t'.marks[id] == t.marks[id]
    {
      assert id in MarksOf(t.marks, pid);
    }
    forall id: int | id in t'.marks && t'.marks[id].data.student == pid
      ensures id in t.marks && t.marks[id] == t'.marks[id]
    {
      assert id in MarksOf(t'.marks, pid);
    }
  }

  lemma AbsentMeansNoRows(t: Tables, pid: int)
    requires Integrity(t) && pid !in t.students
    ensures NoRows(t, pid)
  {
    forall id: int | id in t.marks ensures t.marks[id].data.student != pid {
      assert MarkOk(t.marks[id].data, t.students.Keys, t.subjects.Keys);
    }
  }

  /** A pupil whom Engage does not find keeps every row, or stays absent. */
  lemma UnfoundPupilIsKept(t: Tables, t': Tables, start: int, n: int, engage: int -> Reply, purge: bool, pid: int)
    requires Integrity(t) && Integrity(t') && Refreshed(t, t', start, n, engage, purge)
    requires start <= pid < start + n && !engage(pid).Present?
    ensures RowsKept(t, t', pid)
    ensures engage(pid).Unavailable? ==> engage(pid).error == NotFound
  {
    assert RefreshedAt(t, t', pid, engage(pid), purge);
    if pid in t.students {
      TakesArePairs(t.takes, pid);
      TakesArePairs(t'.takes, pid);
      SameMarksSameRows(t, t', pid);
    } else {
      AbsentMeansNoRows(t, pid);
      AbsentMeansNoRows(t', pid);
    }
  }

  /** A pupil who no longer attends is gone from every table after a purge, and was not put there. */
  lemma LeftPupilIsPurged(t: Tables, t': Tables, start: int, n: int, engage: int -> Reply, pid: int)
    requires Integrity(t) && Integrity(t') && Refreshed(t, t', start, n, engage, true)
    requires start <= pid < start + n && engage(pid).Present? && !engage(pid).student.attends
    ensures NoRows(t', pid)
  {
    assert RefreshedAt(t, t', pid, engage(pid), true);
    AbsentMeansNoRows(t', pid);
  }

  /**
   Any other pupil whom Engage finds is valid and stored: attendance and year are Engage's, the year only for
   a pupil who attends; the name is Engage's for a new pupil and else the old one; marks and old subjects are
   kept, and new subjects are Engage's.
   */
  lemma FoundPupilIsWritten(t: Tables, t': Tables, start: int, n: int, engage: int -> Reply, purge: bool,
                            pid: int, s: Student)
    requires Integrity(t) && Integrity(t') && Refreshed(t, t', start, n, engage, purge)
    requires start <= pid < start + n && engage(pid) == Present(s) && (s.attends || !purge)
    ensures pid != 0 && |s.name| > 0 && |s.subjects| > 0
    ensures pid in t'.students
    ensures var row := t'.students[pid];
            && row.attends == s.attends
            && (s.attends ==> row.year == Some(s.year))
            && (!s.attends ==> row.year == None)
            && row.name == (if pid in t.students then t.students[pid].name else s.name)
            && row.createdAt == (if pid in t.students then t.students[pid].createdAt else row.updatedAt)
    ensures MarkRowsKept(t, t', pid)
    ensures forall x :: (pid, x) in t.takes ==> (pid, x) in t'.takes
    ensures forall x :: (pid, x) in t'.takes && (pid, x) !in t.takes ==>
              x in t.subjects && exists k :: 0 <= k < |s.subjects| && s.subjects[k].code == t.subjects[x].code
  {
    hide AttachAll, Additions, Codes, CodesIn;
    assert RefreshedAt(t, t', pid, engage(pid), purge);
    TakesArePairs(t.takes, pid);
    TakesArePairs(t'.takes, pid);
    AbsentHasNoRows(t, pid);
    SameMarksSameRows(t, t', pid);
    if pid in t.students {
      UpdateAdds(t.subjects, TakesOf(t.takes, pid), s.subjects);
    } else {
      CreateAdds(t.subjects, s.subjects);
    }
  }

  /** What an update adds to the subjects of a pupil is on Engage's list. */
  lemma UpdateAdds(subjects: map<int, SubjectRow>, takes: set<int>, next: seq<Subject>)
    requires SubjectsOk(subjects) && Known(subjects, takes) && UpdatedTakes(subjects, takes, next).Success?
    ensures var takes' := UpdatedTakes(subjects, takes, next).value;
            && takes <= takes'
            && forall x :: x in takes' && x !in takes ==>
                 x in subjects && exists k :: 0 <= k < |next| && next[k].code == subjects[x].code
  {
    hide AttachAll, Additions;
    var codes := Codes(subjects, takes);
    AdditionsAreNew(codes, next);
    AttachAllAdds(subjects, takes, Additions(codes, next));
    var takes' := UpdatedTakes(subjects, takes, next).value;
    forall x | x in takes' && x !in takes
      ensures x in subjects && exists k :: 0 <= k < |next| && next[k].code == subjects[x].code
    {
      assert subjects[x].code in Codes(subjects, takes');
      assert subjects[x].code !in codes;
    }
  }

  lemma CreateAdds(subjects: map<int, SubjectRow>, next: seq<Subject>)
    requires SubjectsOk(subjects) && AttachAll(subjects, {}, next).Success?
    ensures forall x :: x in AttachAll(subjects, {}, next).value ==>
              x in subjects && exists k :: 0 <= k < |next| && next[k].code == subjects[x].code
  {
    hide AttachAll;
    AttachAllAdds(subjects, {}, next);
    var takes' := AttachAll(subjects, {}, next).value;
    forall x | x in takes'
      ensures x in subjects && exists k :: 0 <= k < |next| && next[k].code == subjects[x].code
    {
      assert subjects[x].code in Codes(subjects, takes');
    }
  }

  // ----- lemmas about ranges -----

  lemma SameRowsCompose(t: Tables, t1: Tables, t2: Tables, pid: int)
    requires SameRows(t, t1, pid) && SameRows(t1, t2, pid)
    ensures SameRows(t, t2, pid)
  {}

  /** Refreshing (start, n) and then (start + n, m) is refreshing (start, n + m). */
  lemma RangesCompose(t: Tables, t1: Tables, t2: Tables, start: int, n: nat, m: nat, engage: int -> Reply, purge: bool)
    requires SubjectsOk(t.subjects)
    requires Refreshed(t, t1, start, n, engage, purge) && Refreshed(t1, t2, start + n, m, engage, purge)
    ensures Refreshed(t, t2, start, n + m, engage, purge)
  {
    forall pid | start <= pid < start + (n + m) ensures RefreshedAt(t, t2, pid, engage(pid), purge) {
      if pid < start + n {
        assert SameRows(t1, t2, pid);
        assert RefreshedAt(t, t1, pid, engage(pid), purge);
      } else {
        assert SameRows(t, t1, pid);
        assert RefreshedAt(t1, t2, pid, engage(pid), purge);
      }
    }
    forall pid | pid < start || start + (n + m) <= pid ensures SameRows(t, t2, pid) {
      SameRowsCompose(t, t1, t2, pid);
    }
  }

  /** A range can be refreshed in one go exactly when it can be in two. */
  lemma RangesSplit(t: Tables, t1: Tables, start: int, n: nat, m: nat, engage: int -> Reply, purge: bool)
    requires SubjectsOk(t.subjects)
    requires Refreshed(t, t1, start, n, engage, purge)
    ensures CanRefresh(t, start, n + m, engage, purge) <==> CanRefresh(t1, start + n, m, engage, purge)
  {
    forall pid | start + n <= pid ensures EntryOf(t1, pid) == EntryOf(t, pid) {
      assert SameRows(t, t1, pid);
    }
    forall pid | start <= pid < start + n
      ensures Reconciled(t.subjects, pid, engage(pid), EntryOf(t, pid), purge).Success?
    {
      assert RefreshedAt(t, t1, pid, engage(pid), purge);
    }
  }

  /** The outcome of a refresh is determined, timestamps apart. */
  lemma OutcomeIsDetermined(t: Tables, t1: Tables, t2: Tables, start: int, n: int, engage: int -> Reply, purge: bool)
    requires SubjectsOk(t.subjects)
    requires Refreshed(t, t1, start, n, engage, purge) && Refreshed(t, t2, start, n, engage, purge)
    ensures SameContent(t1, t2)
  {
    forall pid ensures EntryOf(t2, pid) == EntryOf(t1, pid) && MarksOf(t2.marks, pid) == MarksOf(t1.marks, pid) {
      if start <= pid < start + n {
        assert RefreshedAt(t, t1, pid, engage(pid), purge) && RefreshedAt(t, t2, pid, engage(pid), purge);
      } else {
        assert SameRows(t, t1, pid) && SameRows(t, t2, pid);
      }
    }
  }

  /** So two half refreshes end with the same content as one whole refresh. */
  lemma TwoHalvesAreTheWhole(t: Tables, t1: Tables, t2: Tables, whole: Tables, start: int, n: nat, m: nat,
                             engage: int -> Reply, purge: bool)
    requires SubjectsOk(t.subjects)
    requires Refreshed(t, t1, start, n, engage, purge) && Refreshed(t1, t2, start + n, m, engage, purge)
    requires Refreshed(t, whole, start, n + m, engage, purge)
    ensures SameContent(t2, whole)
  {
    RangesCompose(t, t1, t2, start, n, m, engage, purge);
    OutcomeIsDetermined(t, t2, whole, start, n + m, engage, purge);
  }

  /** Updating any pupil of the range a second time would change nothing. */
  ghost predicate AllSettle(t: Tables, start: int, n: int, engage: int -> Reply, purge: bool) {
    forall pid :: start <= pid < start + n ==> Settles(t.subjects, engage(pid), EntryOf(t, pid), purge)
  }

  /** A second refresh of the range goes through exactly when all its pupils settle, and then changes no content. */
  lemma RefreshTwice(t: Tables, t1: Tables, start: int, n: int, engage: int -> Reply, purge: bool)
    requires Integrity(t) && Refreshed(t, t1, start, n, engage, purge)
    ensures CanRefresh(t1, start, n, engage, purge) <==> AllSettle(t, start, n, engage, purge)
    ensures forall t2 :: Refreshed(t1, t2, start, n, engage, purge) ==> SameContent(t1, t2)
  {
    forall pid | start <= pid < start + n
      ensures var again := Reconciled(t.subjects, pid, engage(pid), EntryOf(t1, pid), purge);
              && (again.Success? <==> Settles(t.subjects, engage(pid), EntryOf(t, pid), purge))
              && (again.Success? ==> again.value == EntryOf(t1, pid))
    {
      assert RefreshedAt(t, t1, pid, engage(pid), purge);
      ReconcileTwice(t.subjects, pid, engage(pid), EntryOf(t, pid), purge);
    }
    forall t2 | Refreshed(t1, t2, start, n, engage, purge) ensures SameContent(t1, t2) {
      forall pid ensures EntryOf(t2, pid) == EntryOf(t1, pid) && MarksOf(t2.marks, pid) == MarksOf(t1.marks, pid) {
        if start <= pid < start + n {
          assert RefreshedAt(t, t1, pid, engage(pid), purge) && RefreshedAt(t1, t2, pid, engage(pid), purge);
        } else {
          assert SameRows(t1, t2, pid);
        }
      }
    }
  }

  /**
   After a refresh the store holds Engage's copy of a pupil that is not purged exactly when the pupil
   was new, or had the same name and took no subject that Engage no longer lists.
   */
  lemma RefreshLeavesNewest(t: Tables, t': Tables, start: int, n: int, engage: int -> Reply, purge: bool, pid: int,
      s: Student)
    requires Integrity(t) && Refreshed(t, t', start, n, engage, purge)
    requires start <= pid < start + n && engage(pid) == Present(s) && (s.attends || !purge)
    ensures IsNewest(t.subjects, EntryOf(t', pid), s) <==>
              || pid !in t.students
              || (t.students[pid].name == s.name && Codes(t.subjects, TakesOf(t.takes, pid)) <= CodesIn(s.subjects))
  {
    hide Codes, CodesIn;
    assert RefreshedAt(t, t', pid, engage(pid), purge);
    SuccessIsNewest(t.subjects, pid, s, EntryOf(t, pid), purge);
  }

  // ----- statements on one pupil -----

  /** The subjects of the list are those that pupil pid takes in the store. */
  ghost predicate Mirrors(t: Tables, pid: int, list: seq<Subject>) {
    |list| == |TakesOf(t.takes, pid)| && CodesIn(list) == Codes(t.subjects, TakesOf(t.takes, pid))
  }

  /** findStudentByPID, with findStudents taken as the filter on the pupil id. */
  method FindStudentByPID(db: DB, pid: int) returns (r: Result<Student>)
    requires db.Valid()
    ensures r == Failure(NotFound) <==> pid !in db.students
    ensures r.Success? <==> pid in db.students
    ensures r.Success? ==> && EntryOf(db.Snapshot(), pid).Entry? && r.value.name == db.students[pid].name
                           && r.value.attends == db.students[pid].attends
                           && r.value.year == (if db.students[pid].year.Some? then db.students[pid].year.value else 0)
                           && (forall s :: s in r.value.subjects ==> FindSubjectByID(db.subjects, s.id) == Success(s))
                           && Mirrors(db.Snapshot(), pid, r.value.subjects)
  {
    if pid !in db.students {
      return Failure(NotFound);
    }
    var row := db.students[pid];
    var left, list := TakesOf(db.takes, pid), [];
    ghost var all := left;
    while left != {}
      invariant left <= all
      invariant |list| == |all| - |left|
      invariant CodesIn(list) == Codes(db.subjects, all - left)
      invariant forall s :: s in list ==> FindSubjectByID(db.subjects, s.id) == Success(s)
      decreases |left|
    {
      var id := Choose(left);
      assert (pid, id) in db.takes;
      var s := Subject(id, db.subjects[id].code, db.subjects[id].name);
      assert Codes(db.subjects, all - (left - {id})) == Codes(db.subjects, all - left) + {s.code};
      CodesInSnoc(list, s);
      left, list := left - {id}, list + [s];
    }
    assert all - left == all;
    return Success(Student(row.name, if row.year.Some? then row.year.value else 0, row.attends, list));
  }

  method AttachSubjectCodeToStudent(db: DB, pid: int, code: Text) returns (r: Outcome)
    requires db.Valid()
    modifies db`takes
    ensures db.Valid()
    ensures var s := FindSubjectByEngageCode(db.subjects, code);
            && r == (if s.Failure? then Fail(NotFound)
                     else if (pid, s.value.id) in old(db.takes) || pid !in db.students then Fail(Constraint)
                     else Pass)
            && db.takes == if r.Pass? then old(db.takes) + {(pid, s.value.id)} else old(db.takes)
  {
    var s := FindSubjectByEngageCode(db.subjects, code);
    if s.Failure? {
      return Fail(s.error);
    }
    r := db.InsertTakes(pid, s.value.id);
  }

  /** The loop with which createStudent and updateStudent attach a list of subjects. */
  method AttachSubjects(db: DB, pid: int, list: seq<Subject>) returns (r: Outcome)
    requires db.Valid() && pid in db.students
    modifies db`takes
    ensures db.Valid()
    ensures forall q :: q != pid ==> TakesOf(db.takes, q) == TakesOf(old(db.takes), q)
    ensures match AttachAll(db.subjects, TakesOf(old(db.takes), pid), list)
            case Success(takes) => r == Pass && TakesOf(db.takes, pid) == takes
            case Failure(e) => r == Fail(e)
  {
    var i := 0;
    while i < |list|
      invariant 0 <= i <= |list|
      invariant db.Valid()
      invariant forall q :: q != pid ==> TakesOf(db.takes, q) == TakesOf(old(db.takes), q)
      invariant AttachAll(db.subjects, TakesOf(db.takes, pid), list[i..])
                == AttachAll(db.subjects, TakesOf(old(db.takes), pid), list)
    {
      assert list[i..][0] == list[i] && list[i..][1..] == list[i + 1..];
      ghost var was := db.takes;
      r := AttachSubjectCodeToStudent(db, pid, list[i].code);
      if r.Fail? {
        return;
      }
      var id := FindSubjectByEngageCode(db.subjects, list[i].code).value.id;
      assert TakesOf(db.takes, pid) == TakesOf(was, pid) + {id};
      assert forall q :: q != pid ==> TakesOf(db.takes, q) == TakesOf(was, q);
      i := i + 1;
    }
    return Pass;
  }

  lemma AbsentHasNoRows(t: Tables, pid: int)
    requires Integrity(t)
    ensures pid !in t.students ==> TakesOf(t.takes, pid) == {} && MarksOf(t.marks, pid) == map[]
  {
    if pid !in t.students {
      forall id | id in t.marks ensures t.marks[id].data.student != pid {
        assert MarkOk(t.marks[id].data, t.students.Keys, t.subjects.Keys);
      }
    }
  }

  /** What createStudent makes of the entry of a pupil. */
  function Created(subjects: map<int, SubjectRow>, pid: int, next: Student, local: Entry): Result<Entry>
    requires SubjectsOk(subjects)
  {
    if !IsValid(pid, next) then Failure(Invalid)
    else if local.Entry? then Failure(Constraint)
    else
      var takes :- AttachAll(subjects, {}, next.subjects);
      Success(Entry(next.name, YearColumn(next.year, next.attends), next.attends, takes))
  }

  method CreateStudent(db: DB, pid: int, next: Student) returns (r: Outcome)
    requires db.Valid()
    modifies db
    ensures db.Valid()
    ensures db.marks == old(db.marks) && OthersKept(old(db.Snapshot()), db.Snapshot(), pid)
    ensures match Created(old(db.subjects), pid, next, EntryOf(old(db.Snapshot()), pid))
            case Success(entry) =>
              && r == Pass && EntryOf(db.Snapshot(), pid) == entry
              && db.students[pid].createdAt == db.students[pid].updatedAt
            case Failure(e) => r == Fail(e)
    ensures pid == 0 || |next.name| == 0 || |next.subjects| == 0 ==>
              r == Fail(Invalid) && db.Snapshot() == old(db.Snapshot())
    ensures r.Pass? ==> && pid in db.students && db.students[pid].name == next.name
                        && db.students[pid].attends == next.attends
                        && db.students[pid].year == if next.attends then Some(next.year) else None
  {
    if !IsValid(pid, next) {
      return Fail(Invalid);
    }
    var now := db.Now();
    r := db.InsertStudent(pid, StudentRow(next.name, YearColumn(next.year, next.attends), next.attends, now, now));
    if r.Fail? {
      return;
    }
    assert TakesOf(db.takes, pid) == {};
    r := AttachSubjects(db, pid, next.subjects);
  }

  /**
   The loops of updateStudent: nothing to add when the lists are equally long, else the entries of next not in
   prev.
   */
  method AddedSubjects(prev: seq<Subject>, next: seq<Subject>) returns (r: Result<seq<Subject>>)
    ensures r == if |next| == |prev| then Success([])
                 else if |next| < |prev| then Failure(Panic)
                 else Success(Additions(CodesIn(prev), next))
  {
    var addSubjects: seq<Subject> := [];
    if |next| != |prev| {
      var diff := |next| - |prev|;
      if diff < 0 {
        return Failure(Panic);
      }
      var diffMap: set<Text>, i := {}, 0;
      while i < |prev|
        invariant 0 <= i <= |prev|
        invariant diffMap == CodesIn(prev[..i])
      {
        assert prev[..i + 1] == prev[..i] + [prev[i]];
        CodesInSnoc(prev[..i], prev[i]);
        diffMap := diffMap + {prev[i].code};
        i := i + 1;
      }
      assert prev[..i] == prev;
      assert diffMap == CodesIn(prev);
      i := 0;
      while i < |next|
        invariant 0 <= i <= |next|
        invariant addSubjects + Additions(diffMap, next[i..]) == Additions(diffMap, next)
      {
        assert next[i..][0] == next[i] && next[i..][1..] == next[i + 1..];
        if next[i].code !in diffMap {
          addSubjects := addSubjects + [next[i]];
        }
        i := i + 1;
      }
      assert addSubjects + Additions(diffMap, next[i..]) == addSubjects;
    }
    return Success(addSubjects);
  }

  method UpdateStudent(db: DB, pid: int, prev: Student, next: Student) returns (r: Outcome)
    requires db.Valid() && pid in db.students && Mirrors(db.Snapshot(), pid, prev.subjects)
    modifies db
    ensures db.Valid()
    ensures db.marks == old(db.marks) && OthersKept(old(db.Snapshot()), db.Snapshot(), pid)
    ensures pid in db.students && db.students[pid].createdAt == old(db.students)[pid].createdAt
    ensures match if IsValid(pid, next) then UpdatedTakes(old(db.subjects), old(TakesOf(db.takes, pid)), next.subjects)
                  else Failure(Invalid)
            case Success(takes) =>
              && r == Pass
              && EntryOf(db.Snapshot(), pid)
                 == Entry(old(db.students)[pid].name, YearColumn(next.year, next.attends), next.attends, takes)
            case Failure(e) => r == Fail(e) && db.students == old(db.students)
    ensures pid == 0 || |next.name| == 0 || |next.subjects| == 0 ==>
              r == Fail(Invalid) && db.Snapshot() == old(db.Snapshot())
    ensures r.Pass? ==> && db.students[pid].attends == next.attends
                        && db.students[pid].year == if next.attends then Some(next.year) else None
  {
    if !IsValid(pid, next) {
      return Fail(Invalid);
    }
    var added := AddedSubjects(prev.subjects, next.subjects);
    if added.Failure? {
      return Fail(added.error);
    }
    r := AttachSubjects(db, pid, added.value);
    if r.Fail? {
      return;
    }
    var now := db.Now();
    db.UpdateStudentRow(pid, YearColumn(next.year, next.attends), next.attends, now);
  }

  method DeleteStudent(db: DB, pid: int) returns (r: Outcome)
    requires db.Valid()
    modifies db
    ensures db.Valid()
    ensures OthersKept(old(db.Snapshot()), db.Snapshot(), pid)
    ensures r == if pid in old(db.students) then Pass else Fail(NotFound)
    ensures pid !in db.students && TakesOf(db.takes, pid) == {} && MarksOf(db.marks, pid) == map[]
  {
    AbsentHasNoRows(db.Snapshot(), pid);
    var found := FindStudentByPID(db, pid);
    if found.Failure? {
      return Fail(found.error);
    }
    db.DeleteStudentRow(pid);
    return Pass;
  }

  // ----- the loop -----

  /** The body of the loop of RefreshStudents, before the wait. */
  method RefreshStudent(db: DB, pid: int, reply: Reply, purge: bool) returns (r: Outcome)
    requires db.Valid()
    modifies db
    ensures db.Valid()
    ensures OthersKept(old(db.Snapshot()), db.Snapshot(), pid)
    ensures r.Pass? ==> RefreshedAt(old(db.Snapshot()), db.Snapshot(), pid, reply, purge)
    ensures r.Fail? ==>
              Reconciled(old(db.subjects), pid, reply, EntryOf(old(db.Snapshot()), pid), purge) == Failure(r.error)
  {
    AbsentHasNoRows(db.Snapshot(), pid);
    if reply.Unavailable? && reply.error != NotFound {
      return Fail(reply.error);
    }
    var local := FindStudentByPID(db, pid);
    if reply.Present? && local.Failure? {
      if !reply.student.attends && purge {
        return Pass;
      }
      r := CreateStudent(db, pid, reply.student);
    } else if reply.Present? {
      if !reply.student.attends && purge {
        r := DeleteStudent(db, pid);
      } else {
        r := UpdateStudent(db, pid, local.value, reply.student);
      }
    } else {
      return Pass;
    }
  }

  /** None of the waits after the first m pupils is ended by the caller's context. */
  ghost predicate Waited(start: int, m: int, cancelled: int -> bool) {
    forall pid :: start <= pid < start + m ==> !cancelled(pid)
  }

  /** error is that of the first pupil of the range that cannot be reconciled, before any wait was cancelled. */
  ghost predicate FailsAt(t: Tables, start: int, n: int, engage: int -> Reply, cancelled: int -> bool, purge: bool,
                          error: Error)
    requires SubjectsOk(t.subjects)
  {
    exists pid :: && start <= pid < start + n
                  && CanRefresh(t, start, pid - start, engage, purge) && Waited(start, pid - start, cancelled)
                  && Reconciled(t.subjects, pid, engage(pid), EntryOf(t, pid), purge) == Failure(error)
  }

  /** The first wait that is cancelled comes after a pupil up to whom all are reconciled; t' is what that leaves. */
  ghost predicate CancelledAt(t: Tables, t': Tables, start: int, n: int, engage: int -> Reply,
                              cancelled: int -> bool, purge: bool)
    requires SubjectsOk(t.subjects)
  {
    exists pid :: && start <= pid < start + n
                  && cancelled(pid) && Waited(start, pid - start, cancelled)
                  && Refreshed(t, t', start, pid - start + 1, engage, purge)
  }

  /**
   RefreshStudents.  The wait after pupil pid ends with the caller's context if cancelled(pid), and else
   with the time out.  The refresh returns without error exactly when every pupil can be reconciled and no
   wait is cancelled; otherwise it stops at the first pupil, or after the first wait, for which that fails.
   */
  method RefreshStudents(db: DB, start: int, n: int, purge: bool, engage: int -> Reply, cancelled: int -> bool)
    returns (r: Outcome)
    requires db.Valid()
    modifies db
    ensures db.Valid()
    ensures r.Pass? <==> CanRefresh(old(db.Snapshot()), start, n, engage, purge) && Waited(start, n, cancelled)
    ensures r.Pass? ==> Refreshed(old(db.Snapshot()), db.Snapshot(), start, n, engage, purge)
    ensures r.Fail? ==>
              || FailsAt(old(db.Snapshot()), start, n, engage, cancelled, purge, r.error)
              || (r.error == ContextDone
                  && CancelledAt(old(db.Snapshot()), db.Snapshot(), start, n, engage, cancelled, purge))
    ensures OutsideKept(old(db.Snapshot()), db.Snapshot(), start, n)
  {
    hide CanRefresh, Refreshed, RefreshedAt, FailsAt, CancelledAt, Waited, OutsideKept, Integrity, SubjectsOk;
    ghost var t := db.Snapshot();
    IntegrityHasSubjects(t);
    var pidCount, i := start, 0;
    NothingRefreshed(t, start, engage, cancelled, purge);
    while i < n
      invariant 0 <= i && (i <= n || i == 0) && pidCount == start + i
      invariant db.Valid() && Refreshed(t, db.Snapshot(), start, i, engage, purge) && Waited(start, i, cancelled)
    {
      ghost var t1 := db.Snapshot();
      IntegrityHasSubjects(t1);
      r := RefreshStudent(db, pidCount, engage(pidCount), purge);
      if r.Fail? {
        FailsWhereItStops(t, t1, db.Snapshot(), start, i, n, engage, cancelled, purge, r.error);
        return;
      }
      RefreshedRange(t1, db.Snapshot(), start + i, engage, purge);
      RangesCompose(t, t1, db.Snapshot(), start, i, 1, engage, purge);
      if cancelled(pidCount) {
        CancelledWhereItStops(t, db.Snapshot(), start, i, n, engage, cancelled, purge);
        return Fail(ContextDone);
      }
      WaitedOnce(start, i, cancelled);
      pidCount, i := pidCount + 1, i + 1;
    }
    AllRefreshed(t, db.Snapshot(), start, i, n, engage, cancelled, purge);
    return Pass;
  }

  lemma NothingRefreshed(t: Tables, start: int, engage: int -> Reply, cancelled: int -> bool, purge: bool)
    requires SubjectsOk(t.subjects)
    ensures Refreshed(t, t, start, 0, engage, purge) && Waited(start, 0, cancelled)
  {}

  lemma WaitedOnce(start: int, i: nat, cancelled: int -> bool)
    requires Waited(start, i, cancelled) && !cancelled(start + i)
    ensures Waited(start, i + 1, cancelled)
  {}

  /** The loop has run to its end. */
  lemma AllRefreshed(t: Tables, t': Tables, start: int, i: nat, n: int, engage: int -> Reply,
                     cancelled: int -> bool, purge: bool)
    requires SubjectsOk(t.subjects) && i >= n && (i <= n || i == 0)
    requires Refreshed(t, t', start, i, engage, purge) && Waited(start, i, cancelled)
    ensures Refreshed(t, t', start, n, engage, purge) && Waited(start, n, cancelled)
    ensures CanRefresh(t, start, n, engage, purge) && OutsideKept(t, t', start, n)
  {
    forall pid | start <= pid < start + n
      ensures Reconciled(t.subjects, pid, engage(pid), EntryOf(t, pid), purge).Success?
    {
      assert RefreshedAt(t, t', pid, engage(pid), purge);
    }
  }

  lemma CancelledWhereItStops(t: Tables, t': Tables, start: int, i: nat, n: int, engage: int -> Reply,
                              cancelled: int -> bool, purge: bool)
    requires SubjectsOk(t.subjects) && i < n && cancelled(start + i)
    requires Refreshed(t, t', start, i + 1, engage, purge) && Waited(start, i, cancelled)
    ensures CancelledAt(t, t', start, n, engage, cancelled, purge) && OutsideKept(t, t', start, n)
    ensures !Waited(start, n, cancelled)
  {
    var pid := start + i;
    assert Refreshed(t, t', start, pid - start + 1, engage, purge);
    assert start <= pid < start + n && cancelled(pid);
  }

  lemma RefreshedRange(t: Tables, t': Tables, pid: int, engage: int -> Reply, purge: bool)
    requires SubjectsOk(t.subjects) && OthersKept(t, t', pid) && RefreshedAt(t, t', pid, engage(pid), purge)
    ensures Refreshed(t, t', pid, 1, engage, purge)
  {}

  lemma FailsWhereItStops(t: Tables, t1: Tables, t2: Tables, start: int, i: nat, n: int, engage: int -> Reply,
                          cancelled: int -> bool, purge: bool, error: Error)
    requires SubjectsOk(t.subjects) && i < n
    requires Refreshed(t, t1, start, i, engage, purge) && Waited(start, i, cancelled) && OthersKept(t1, t2, start + i)
    requires Reconciled(t1.subjects, start + i, engage(start + i), EntryOf(t1, start + i), purge) == Failure(error)
    ensures FailsAt(t, start, n, engage, cancelled, purge, error) && OutsideKept(t, t2, start, n)
    ensures !CanRefresh(t, start, n, engage, purge)
  {
    forall pid | pid < start || start + n <= pid ensures SameRows(t, t2, pid) {
      SameRowsCompose(t, t1, t2, pid);
    }
    var stop := start + i;
    assert SameRows(t, t1, stop);
    forall pid | start <= pid < stop
      ensures Reconciled(t.subjects, pid, engage(pid), EntryOf(t, pid), purge).Success?
    {
      assert RefreshedAt(t, t1, pid, engage(pid), purge);
    }
    assert start <= stop < start + n
           && Reconciled(t.subjects, stop, engage(stop), EntryOf(t, stop), purge) == Failure(error);
    assert CanRefresh(t, start, stop - start, engage, purge) && Waited(start, stop - start, cancelled);
  }
}
