/** sqlite/mark.go: marks of one period, the difference with Engage, and the loop over periods. */
module MarkRefresh {
  import opened Wrappers
  import opened Bytes
  import opened Sets
  import opened Store
  import opened MarkScan
  import opened MarkStore
  import StudentRefresh

  // ----- local marks -----

  /** A period filter compares the fields that are populated in it. */
  predicate Matches(filter: Period, p: Period) {
    && filter.year == p.year
    && (filter.term.Some? ==> filter.term == p.term)
    && (filter.importance.Some? ==> filter.importance == p.importance)
  }

  /** The rows that findMarks lets through for a pupil and one period. */
  function MarksAt<K(==)>(marks: map<K, MarkRow>, pid: int, filter: Period): map<K, MarkRow> {
    map id | id in marks && marks[id].data.student == pid && Matches(filter, marks[id].data.period) :: marks[id]
  }

  lemma MarksAtCounts<K>(marks: map<K, MarkRow>, pid: int, period: Period, d: MarkData)
    requires period.Full()
    ensures Count(MarksAt(marks, pid, period), d)
            == if d.student == pid && d.period == period then Count(marks, d) else 0
  {
    if d.student == pid && d.period == period {
      assert RowsOf(MarksAt(marks, pid, period), d) == RowsOf(marks, d);
    } else {
      assert RowsOf(MarksAt(marks, pid, period), d) == {};
    }
  }

  lemma DropRowCounts<K>(marks: map<K, MarkRow>, id: K, d: MarkData)
    requires id in marks
    ensures Count(marks, d) == Count(marks - {id}, d) + if d == marks[id].data then 1 else 0
  {
    var rest := marks - {id};
    assert marks == rest[id := marks[id]];
    if d == marks[id].data {
      assert RowsOf(marks, d) == RowsOf(rest, d) + {id};
    } else {
      assert RowsOf(marks, d) == RowsOf(rest, d);
    }
  }

  function SubjectIDs(marks: seq<Mark>): set<int> {
    set m | m in marks :: m.data.subject
  }

  /** The list holds the pupil's rows of the period, in some order. */
  ghost predicate Lists(marks: map<int, MarkRow>, pid: int, period: Period, list: seq<Mark>) {
    forall d :: multiset(DataOf(list))[d] == if d.student == pid && d.period == period then Count(marks, d) else 0
  }

  /** findMarksByFullPeriod, with findMarks taken as the filter on pupil and period. */
  method FindMarksByFullPeriod(db: DB, pid: int, period: Period) returns (list: seq<Mark>)
    requires period.Full()
    ensures Lists(db.marks, pid, period, list)
  {
    var left := MarksAt(db.marks, pid, period);
    list := [];
    while left.Keys != {}
      invariant forall d :: Count(left, d) + multiset(DataOf(list))[d] == Count(MarksAt(db.marks, pid, period), d)
      decreases |left.Keys|
    {
      var id := Choose(left.Keys);
      forall d ensures Count(left, d) == Count(left - {id}, d) + if d == left[id].data then 1 else 0 {
        DropRowCounts(left, id, d);
      }
      ghost var found := list;
      list := [Mark(left[id].data, NO_SUBJECT)] + list;
      assert list[1..] == found;
      left := left - {id};
    }
    forall d
      ensures multiset(DataOf(list))[d] == if d.student == pid && d.period == period then Count(db.marks, d) else 0
    {
      assert RowsOf(left, d) == {};
      MarksAtCounts(db.marks, pid, period, d);
    }
  }

  lemma {:induction false} DataIsOfMarks(list: seq<Mark>, d: MarkData)
    ensures d in DataOf(list) <==> exists m :: m in list && m.data == d
  {
    if list != [] {
      DataIsOfMarks(list[1..], d);
      assert list == [list[0]] + list[1..];
    }
  }

  /** The subject ids of the local list are the subjects in which the pupil has a mark. */
  lemma ListedSubjects(marks: map<int, MarkRow>, pid: int, period: Period, list: seq<Mark>)
    requires Lists(marks, pid, period, list)
    ensures SubjectIDs(list) == SubjectsAt(marks, pid, period)
  {
    hide Count, SubjectsAt;
    forall s ensures s in SubjectIDs(list) <==> s in SubjectsAt(marks, pid, period) {
      SubjectsAtByCount(marks, pid, period, s);
      forall d: MarkData
        ensures (exists m :: m in list && m.data == d) <==>
                  Count(marks, d) > 0 && d.student == pid && d.period == period
      {
        DataIsOfMarks(list, d);
        assert d in DataOf(list) <==> multiset(DataOf(list))[d] > 0;
      }
      if s in SubjectIDs(list) {
        var m :| m in list && m.data.subject == s;
        assert Count(marks, m.data) > 0;
      }
    }
  }

  // ----- attaching and creating -----

  function Prepend(out: seq<Mark>, r: Result<seq<Mark>>): Result<seq<Mark>> {
    if r.Failure? then r else Success(out + r.value)
  }

  /** attachMarksSubjectsWithStudent: the pupil must be stored, then each mark gets its subject. */
  method AttachMarksSubjectsWithStudent(db: DB, pid: int, marks: seq<Mark>) returns (r: Result<seq<Mark>>)
    requires db.Valid()
    ensures r == if pid in db.students then AttachedAll(db.subjects, marks) else Failure(NotFound)
  {
    var student := StudentRefresh.FindStudentByPID(db, pid);
    if student.Failure? {
      return Failure(student.error);
    }
    var out: seq<Mark>, i := [], 0;
    ghost var all := AttachedAll(db.subjects, marks);
    assert marks[0..] == marks && (all.Success? ==> [] + all.value == all.value);
    while i < |marks|
      invariant 0 <= i <= |marks|
      invariant AttachedAll(db.subjects, marks) == Prepend(out, AttachedAll(db.subjects, marks[i..]))
    {
      assert marks[i..][0] == marks[i] && marks[i..][1..] == marks[i + 1..];
      var m := Attached(db.subjects, marks[i]);
      if m.Failure? {
        return Failure(m.error);
      }
      ghost var rest := AttachedAll(db.subjects, marks[i + 1..]);
      assert rest.Success? ==> out + ([m.value] + rest.value) == (out + [m.value]) + rest.value;
      out, i := out + [m.value], i + 1;
    }
    assert out + [] == out;
    return Success(out);
  }

  method FindMarksByFullPeriodEngage(pid: int, period: Period, render: Render) returns (r: Result<seq<Mark>>)
    ensures r == FromEngage(pid, period, render)
  {
    if render.NoTerm? {
      return Failure(render.error);
    }
    var out := ScanMarks(BufferOf(render));
    if out.Failure? {
      return Failure(out.error);
    }
    return Success(Filled(pid, period, out.value));
  }

  /** What Mark.Validate and then the schema say of a new mark. */
  function Accepts(students: set<int>, subjects: set<int>, d: MarkData): Outcome {
    if d.student == 0 || d.subject == 0 || !d.period.Full() || d.teacher == [] then Fail(Invalid)
    else if !MarkOk(d, students, subjects) then Fail(Constraint)
    else Pass
  }

  /** Period.Validate and the populated fields of a full period, written out. */
  predicate IsFullPeriod(p: Period) {
    && p.year >= 2020
    && (p.term == Some(1) || p.term == Some(2) || p.term == Some(3) || p.term == Some(4))
    && p.importance != None
  }

  method CreateMark(db: DB, d: MarkData) returns (r: Outcome)
    requires db.Valid()
    modifies db`marks
    ensures db.Valid()
    ensures r == Accepts(db.students.Keys, db.subjects.Keys, d)
    ensures if r.Pass? then Inserted(old(db.marks), db.marks, d) else db.marks == old(db.marks)
    ensures r.Pass? <==>
              && d.student != 0 && d.student in db.students && d.subject != 0 && d.subject in db.subjects
              && IsFullPeriod(d.period) && |d.teacher| > 0 && 0 <= d.percentage <= 100
    ensures r == Fail(Invalid) <==> d.student == 0 || d.subject == 0 || !IsFullPeriod(d.period) || |d.teacher| == 0
    ensures r.Fail? ==> r.error in {Invalid, Constraint}
  {
    if d.student == 0 || d.subject == 0 || !d.period.Full() || d.teacher == [] {
      return Fail(Invalid);
    }
    r := db.InsertMark(d);
  }

  /** The marks in subjects that are not known. */
  function NewData(known: set<int>, data: seq<MarkData>): seq<MarkData> {
    if data == [] then []
    else (if data[0].subject in known then [] else [data[0]]) + NewData(known, data[1..])
  }

  lemma {:induction false} NewDataCounts(known: set<int>, data: seq<MarkData>, d: MarkData)
    ensures multiset(NewData(known, data))[d] == if d.subject in known then 0 else multiset(data)[d]
  {
    if data != [] {
      NewDataCounts(known, data[1..], d);
      assert data == [data[0]] + data[1..];
    }
  }

  /** Creating the marks in order stops at the first that is not accepted. */
  function AcceptsAll(students: set<int>, subjects: set<int>, data: seq<MarkData>): Outcome {
    if data == [] then Pass
    else
      var r := Accepts(students, subjects, data[0]);
      if r.Fail? then r else AcceptsAll(students, subjects, data[1..])
  }

  /** A new mark is accepted exactly under these conditions on its own fields. */
  lemma AcceptedMarks(students: set<int>, subjects: set<int>, d: MarkData)
    ensures Accepts(students, subjects, d) == Pass <==>
              && d.student != 0 && d.student in students && d.subject != 0 && d.subject in subjects
              && IsFullPeriod(d.period) && |d.teacher| > 0 && 0 <= d.percentage <= 100
    ensures Accepts(students, subjects, d) == Fail(Invalid) <==>
              d.student == 0 || d.subject == 0 || !IsFullPeriod(d.period) || |d.teacher| == 0
    ensures Accepts(students, subjects, d) in {Pass, Fail(Invalid), Fail(Constraint)}
  {}

  /** A list passes when each of its marks is accepted, and else ends with the error of the first that is not. */
  lemma {:induction false} FirstNotAccepted(students: set<int>, subjects: set<int>, data: seq<MarkData>)
    ensures AcceptsAll(students, subjects, data) == Pass
            <==> forall d :: d in data ==> Accepts(students, subjects, d) == Pass
    ensures AcceptsAll(students, subjects, data).Fail? ==>
              exists k :: 0 <= k < |data|
                          && Accepts(students, subjects, data[k]) == AcceptsAll(students, subjects, data)
                          && forall j :: 0 <= j < k ==> Accepts(students, subjects, data[j]) == Pass
  {
    hide Accepts;
    if data != [] {
      FirstNotAccepted(students, subjects, data[1..]);
      assert data == [data[0]] + data[1..];
      var rest := AcceptsAll(students, subjects, data[1..]);
      if Accepts(students, subjects, data[0]).Pass? && rest.Fail? {
        var k :| 0 <= k < |data[1..]| && Accepts(students, subjects, data[1..][k]) == rest
                 && forall j :: 0 <= j < k ==> Accepts(students, subjects, data[1..][j]) == Pass;
        assert Accepts(students, subjects, data[k + 1]) == rest;
        forall j | 0 <= j < k + 1 ensures Accepts(students, subjects, data[j]) == Pass {
          if j > 0 {
            assert data[j] == data[1..][j - 1];
          }
        }
      }
    }
  }

  /** createDiff: only the subject ids are compared, and the local ones are not extended while marks are created. */
  method CreateDiff(db: DB, local: seq<Mark>, engage: seq<Mark>) returns (r: Outcome)
    requires db.Valid()
    modifies db`marks
    ensures db.Valid() && Extends(old(db.marks), db.marks)
    ensures r == AcceptsAll(db.students.Keys, db.subjects.Keys, NewData(SubjectIDs(local), DataOf(engage)))
    ensures forall d :: Count(db.marks, d) <= Count(old(db.marks), d)
              + multiset(NewData(SubjectIDs(local), DataOf(engage)))[d]
    ensures r.Pass? ==>
              forall d :: Count(db.marks, d)
                  == Count(old(db.marks), d) + multiset(NewData(SubjectIDs(local), DataOf(engage)))[d]
  {
    var diff: set<int>, i := {}, 0;
    while i < |local|
      invariant 0 <= i <= |local|
      invariant diff == SubjectIDs(local[..i])
    {
      assert local[..i + 1] == local[..i] + [local[i]];
      diff := diff + {local[i].data.subject};
      i := i + 1;
    }
    assert local[..i] == local;
    r := CreateNew(db, diff, engage);
  }

  /** The second loop of createDiff. */
  method CreateNew(db: DB, diff: set<int>, engage: seq<Mark>) returns (r: Outcome)
    requires db.Valid()
    modifies db`marks
    ensures db.Valid() && Extends(old(db.marks), db.marks)
    ensures r == AcceptsAll(db.students.Keys, db.subjects.Keys, NewData(diff, DataOf(engage)))
    ensures forall d :: Count(db.marks, d) <= Count(old(db.marks), d) + multiset(NewData(diff, DataOf(engage)))[d]
    ensures r.Pass? ==>
              forall d :: Count(db.marks, d) == Count(old(db.marks), d) + multiset(NewData(diff, DataOf(engage)))[d]
  {
    hide Count, Accepts, AcceptsAll, Extends, NewData, DataOf;
    EveryRowStays(db.marks);
    var i := 0;
    ghost var news := NewData(diff, DataOf(engage));
    assert engage[i..] == engage;
    while i < |engage|
      invariant 0 <= i <= |engage|
      invariant db.Valid() && Extends(old(db.marks), db.marks)
      invariant AcceptsAll(db.students.Keys, db.subjects.Keys, NewData(diff, DataOf(engage[i..])))
                == AcceptsAll(db.students.Keys, db.subjects.Keys, news)
      invariant forall d :: Count(db.marks, d) + multiset(NewData(diff, DataOf(engage[i..])))[d]
                            == Count(old(db.marks), d) + multiset(news)[d]
    {
      var d := engage[i].data;
      NewDataStep(db.students.Keys, db.subjects.Keys, diff, engage, i);
      if d.subject !in diff {
        ghost var was := db.marks;
        r := CreateMark(db, d);
        if r.Fail? {
          return;
        }
        forall e ensures Extends(was, db.marks) && Count(db.marks, e) == Count(was, e) + if e == d then 1 else 0 {
          InsertCounts(was, db.marks, d, e);
        }
        ExtendsTransitive(old(db.marks), was, db.marks);
      }
      i := i + 1;
    }
    NothingNew(db.students.Keys, db.subjects.Keys, diff, engage[i..]);
    return Pass;
  }

  lemma EveryRowStays(marks: map<int, MarkRow>)
    ensures Extends(marks, marks)
  {}

  lemma NothingNew(students: set<int>, subjects: set<int>, known: set<int>, marks: seq<Mark>)
    requires marks == []
    ensures NewData(known, DataOf(marks)) == [] && AcceptsAll(students, subjects, []) == Pass
  {}

  lemma NewDataStep(students: set<int>, subjects: set<int>, known: set<int>, marks: seq<Mark>, i: nat)
    requires i < |marks|
    ensures var d, now, later := marks[i].data, NewData(known, DataOf(marks[i..])),
              NewData(known, DataOf(marks[i + 1..]));
            && (forall e :: multiset(now)[e] == multiset(later)[e] + if d.subject !in known && e == d then 1 else 0)
            && AcceptsAll(students, subjects, now)
               == if d.subject !in known && Accepts(students, subjects, d).Fail? then Accepts(students, subjects, d)
                  else AcceptsAll(students, subjects, later)
  {
    var d, later := marks[i].data, NewData(known, DataOf(marks[i + 1..]));
    NewDataUnfolds(known, marks, i);
    hide Accepts, NewData, DataOf;
    assert ([d] + later)[1..] == later;
    assert [] + later == later;
  }

  lemma NewDataUnfolds(known: set<int>, marks: seq<Mark>, i: nat)
    requires i < |marks|
    ensures NewData(known, DataOf(marks[i..]))
            == (if marks[i].data.subject in known then [] else [marks[i].data]) + NewData(known, DataOf(marks[i + 1..]))
  {
    assert marks[i..][0] == marks[i] && marks[i..][1..] == marks[i + 1..];
    assert DataOf(marks[i..])[1..] == DataOf(marks[i + 1..]);
  }

  lemma ExtendsTransitive(a: map<int, MarkRow>, b: map<int, MarkRow>, c: map<int, MarkRow>)
    requires Extends(a, b) && Extends(b, c)
    ensures Extends(a, c)
  {}

  // ----- refreshing -----

  /** How the refresh of one period ends: Engage's marks must be readable, the pupil stored, the new marks accepted. */
  function PeriodOutcome(t: Tables, pid: int, p: Period, engage: Period -> Render): Outcome
    requires SubjectsOk(t.subjects)
  {
    if FromEngage(pid, p, engage(p)).Success? && pid !in t.students then Fail(NotFound)
    else
      match EngageMarks(t.subjects, pid, p, engage(p))
      case Failure(e) => Fail(e)
      case Success(marks) => AcceptsAll(t.students.Keys, t.subjects.Keys,
          NewData(SubjectsAt(t.marks, pid, p), DataOf(marks)))
  }

  /**
   A period without a percentage in its render, or whose render could not be fetched, ends the refresh with
   ENOTFOUND.
   */
  lemma PeriodWithoutMarksFails(t: Tables, pid: int, p: Period, engage: Period -> Render)
    requires SubjectsOk(t.subjects) && !engage(p).NoTerm?
    ensures FromEngage(pid, p, engage(p)) == Failure(NotFound) <==> forall i: nat :: !PercentAt(BufferOf(engage(p)), i)
    ensures (forall i: nat :: !PercentAt(BufferOf(engage(p)), i)) ==> PeriodOutcome(t, pid, p, engage) == Fail(NotFound)
    ensures engage(p).NotFetched? ==> PeriodOutcome(t, pid, p, engage) == Fail(NotFound)
  {
    hide Scan, AcceptsAll;
    NothingToScan(BufferOf(engage(p)));
  }

  /** How Engage ends a period: with the error for its term, or of a scan that breaks off. */
  lemma EngageErrorsEnd(t: Tables, pid: int, p: Period, engage: Period -> Render)
    requires SubjectsOk(t.subjects)
    ensures engage(p).NoTerm? ==> PeriodOutcome(t, pid, p, engage) == Fail(engage(p).error)
    ensures engage(p).Fetched? && Scan(engage(p).buf).Failure? ==>
              PeriodOutcome(t, pid, p, engage) == Fail(Scan(engage(p).buf).error)
    ensures engage(p).Fetched? && Scan(engage(p).buf).Success? && pid !in t.students ==>
              PeriodOutcome(t, pid, p, engage) == Fail(NotFound)
  {
    hide Scan, AcceptsAll;
  }

  /** The marks in the list that are in subjects not known. */
  lemma {:induction false} NewDataIsUnknown(known: set<int>, data: seq<MarkData>)
    ensures forall d :: d in NewData(known, data) <==> d in data && d.subject !in known
  {
    if data != [] {
      NewDataIsUnknown(known, data[1..]);
      assert data == [data[0]] + data[1..];
    }
  }

  /**
   A printed period of a stored pupil passes exactly when every printed subject is known to the store, and every
   mark in a subject that had none names its subject and a teacher and is at most 100 percent.
   */
  lemma PrintedPeriodPasses(t: Tables, pid: int, p: Period, engage: Period -> Render, cells: seq<Cell>, tail: Text)
    requires Integrity(t) && pid in t.students && pid != 0 && IsFullPeriod(p)
    requires cells != [] && engage(p) == Fetched(PrintAll(cells, tail))
    requires forall k :: 0 <= k < |cells| ==> IsCell(cells[k])
    requires forall i :: 0 <= i < |tail| ==> !PercentAt(tail, i)
    ensures PeriodOutcome(t, pid, p, engage) == Pass <==>
              forall k :: 0 <= k < |cells| ==>
                var about := NamedSubject(t.subjects, cells[k].mark.subject);
                && about.Success?
                && (about.value.id !in SubjectsAt(t.marks, pid, p) ==>
                      |cells[k].mark.subject| > 0 && |cells[k].mark.teacher| > 0 && cells[k].mark.percentage <= 100)
  {
    hide EngageMarks, NamedSubject, SubjectsAt, PrintAll, IsCell, PercentAt, Accepts, AcceptsAll, NewData, FromEngage,
      IsFullPeriod, Scan;
    PrintedMarksAreRead(t.subjects, pid, p, cells, tail);
    ReadIsFromEngage(t.subjects, pid, p, engage(p));
    if EngageMarks(t.subjects, pid, p, engage(p)).Success? {
      var marks := EngageMarks(t.subjects, pid, p, engage(p)).value;
      var known := SubjectsAt(t.marks, pid, p);
      FirstNotAccepted(t.students.Keys, t.subjects.Keys, NewData(known, DataOf(marks)));
      NewDataIsUnknown(known, DataOf(marks));
      forall k | 0 <= k < |cells|
        ensures marks[k].data in DataOf(marks)
        ensures Accepts(t.students.Keys, t.subjects.Keys, marks[k].data) == Pass <==>
                  |cells[k].mark.subject| > 0 && |cells[k].mark.teacher| > 0 && cells[k].mark.percentage <= 100
      {
        DataAt(marks, k);
        AcceptedMarks(t.students.Keys, t.subjects.Keys, marks[k].data);
        NamedIsStored(t.subjects, cells[k].mark.subject);
      }
      forall d | d in DataOf(marks) ensures exists k :: 0 <= k < |cells| && marks[k].data == d {
        DataIsOfMarks(marks, d);
      }
    }
  }

  lemma ReadIsFromEngage(subjects: map<int, SubjectRow>, pid: int, p: Period, render: Render)
    requires SubjectsOk(subjects)
    ensures EngageMarks(subjects, pid, p, render).Success? ==> FromEngage(pid, p, render).Success?
  {
    hide FromEngage;
  }

  /** A subject that is named is a stored one with a positive id, and an empty name has id 0, which no row has. */
  lemma NamedIsStored(subjects: map<int, SubjectRow>, name: Text)
    requires SubjectsOk(subjects) && NamedSubject(subjects, name).Success?
    ensures var id := NamedSubject(subjects, name).value.id;
            if |name| > 0 then id != 0 && id in subjects else id == 0 && id !in subjects
  {}

  /** The new marks of one period are those that a refresh of the period adds. */
  lemma NewDataIsAdded(t: Tables, pid: int, p: Period, engage: Period -> Render, d: MarkData)
    requires SubjectsOk(t.subjects)
    ensures multiset(NewData(SubjectsAt(t.marks, pid, p), EngageData(t.subjects, pid, p, engage(p))))[d]
            == Added(t, pid, {p}, engage, d)
  {
    hide EngageData, SubjectsAt;
    NewDataCounts(SubjectsAt(t.marks, pid, p), EngageData(t.subjects, pid, p, engage(p)), d);
    EngageDataIsOfPeriod(t.subjects, pid, p, engage(p));
    assert d !in EngageData(t.subjects, pid, p, engage(p)) ==>
        multiset(EngageData(t.subjects, pid, p, engage(p)))[d] == 0;
  }

  /** Find, scan, attach, compare: one period of RefreshMarks, and of findMarksByFullPeriodFallback. */
  method RefreshPeriod(db: DB, pid: int, period: Period, ghost engage: Period -> Render, render: Render)
    returns (r: Outcome, marks: seq<Mark>)
    requires db.Valid() && period.Full() && render == engage(period)
    modifies db`marks
    ensures db.Valid()
    ensures r == PeriodOutcome(old(db.Snapshot()), pid, period, engage)
    ensures MarksGrew(old(db.Snapshot()), db.Snapshot(), pid, {period}, engage)
    ensures r.Pass? ==> && MarksRefreshed(old(db.Snapshot()), db.Snapshot(), pid, {period}, engage)
                        && EngageMarks(db.subjects, pid, period, render) == Success(marks)
  {
    hide Count, SubjectsAt, Scan, Extends;
    ghost var t := db.Snapshot();
    EveryRowStays(db.marks);
    marks := [];
    var marksLocal := FindMarksByFullPeriod(db, pid, period);
    ListedSubjects(db.marks, pid, period, marksLocal);
    var fetched := FindMarksByFullPeriodEngage(pid, period, render);
    if fetched.Failure? {
      return Fail(fetched.error), marks;
    }
    var marksEngage := AttachMarksSubjectsWithStudent(db, pid, fetched.value);
    if marksEngage.Failure? {
      return Fail(marksEngage.error), marks;
    }
    marks := marksEngage.value;
    r := CreateDiff(db, marksLocal, marks);
    forall d ensures multiset(NewData(SubjectIDs(marksLocal), DataOf(marks)))[d] == Added(t, pid, {period}, engage, d) {
      NewDataIsAdded(t, pid, period, engage, d);
    }
  }

  /** None of the first k waits is ended by the caller's context. */
  ghost predicate Waited(k: nat, cancelled: nat -> bool) {
    forall j :: 0 <= j < k ==> !cancelled(j)
  }

  /** Every period of the list passes, from t. */
  ghost predicate HavePassed(t: Tables, pid: int, periods: seq<Period>, engage: Period -> Render)
    requires SubjectsOk(t.subjects)
  {
    forall p :: p in periods ==> PeriodOutcome(t, pid, p, engage) == Pass
  }

  /** error is how the first period that does not pass ends, before any wait was cancelled. */
  ghost predicate FailsAt(t: Tables, pid: int, periods: seq<Period>, engage: Period -> Render,
                          cancelled: nat -> bool, error: Error)
    requires SubjectsOk(t.subjects)
  {
    exists k :: 0 <= k < |periods| && PeriodOutcome(t, pid, periods[k], engage) == Fail(error)
                && HavePassed(t, pid, periods[..k], engage) && Waited(k, cancelled)
  }

  /** The first wait that is cancelled is that after a period up to which all pass, and t' is where that leaves t. */
  ghost predicate CancelledAt(t: Tables, t': Tables, pid: int, periods: seq<Period>, engage: Period -> Render,
                              cancelled: nat -> bool)
    requires SubjectsOk(t.subjects)
  {
    exists k: nat :: k < |periods| && cancelled(k) && Waited(k, cancelled)
                     && HavePassed(t, pid, periods[..k + 1], engage)
                     && MarksRefreshed(t, t', pid, PeriodSet(periods[..k + 1]), engage)
  }

  function PeriodSet(periods: seq<Period>): set<Period> {
    set p | p in periods
  }

  /** A period that passes before other periods are refreshed passes afterwards; one that fails has failed before. */
  lemma OutcomeIsKept(t: Tables, t1: Tables, pid: int, periods: set<Period>, p: Period, engage: Period -> Render)
    requires SubjectsOk(t.subjects) && MarksRefreshed(t, t1, pid, periods, engage)
    requires forall q :: q in periods ==> PeriodOutcome(t, pid, q, engage) == Pass
    ensures PeriodOutcome(t1, pid, p, engage) == PeriodOutcome(t, pid, p, engage)
  {
    hide SubjectsAt, EngageMarks, Accepts, MarksRefreshed;
    assert t1.subjects == t.subjects && t1.students == t.students by {
      Frame(t, t1, pid, periods, engage);
    }
    SubjectsAreUnited(t, t1, pid, periods, engage, p);
    if p in periods {
      var marks := EngageMarks(t.subjects, pid, p, engage(p)).value;
      AllKnown(SubjectsAt(t1.marks, pid, p), DataOf(marks));
    } else {
      assert SubjectsAt(t1.marks, pid, p) == SubjectsAt(t.marks, pid, p);
    }
  }

  lemma Frame(t: Tables, t1: Tables, pid: int, periods: set<Period>, engage: Period -> Render)
    requires SubjectsOk(t.subjects) && MarksRefreshed(t, t1, pid, periods, engage)
    ensures t1.subjects == t.subjects && t1.students == t.students
  {}

  lemma {:induction false} AllKnown(known: set<int>, data: seq<MarkData>)
    requires SubjectsOf(data) <= known
    ensures NewData(known, data) == []
  {
    if data != [] {
      assert data[0].subject in SubjectsOf(data);
      AllKnown(known, data[1..]);
    }
  }

  /**
   RefreshMarks, for the periods that the period service answers; cancelled(k) says whether the wait after
   k + 1 of them ends with the caller's context.  The refresh returns without error exactly when the pupil is
   stored, the periods are known, each of them passes and no wait is cancelled.
   */
  method RefreshMarks(db: DB, pid: int, range: Result<seq<Period>>, engage: Period -> Render, cancelled: nat -> bool)
    returns (r: Outcome)
    requires db.Valid()
    requires range.Success? ==> forall p :: p in range.value ==> p.Full()
    modifies db`marks
    ensures db.Valid()
    ensures var t := old(db.Snapshot());
            if pid !in db.students then r == Fail(NotFound) && db.Snapshot() == t
            else if range.Failure? then r == Fail(range.error) && db.Snapshot() == t
            else
              && MarksGrew(t, db.Snapshot(), pid, PeriodSet(range.value), engage)
              && (r.Pass? <==> HavePassed(t, pid, range.value, engage) && Waited(|range.value|, cancelled))
              && (r.Pass? ==> MarksRefreshed(t, db.Snapshot(), pid, PeriodSet(range.value), engage))
              && (r.Fail? ==> || FailsAt(t, pid, range.value, engage, cancelled, r.error)
                              || (r.error == ContextDone
                                  && CancelledAt(t, db.Snapshot(), pid, range.value, engage, cancelled)))
  {
    var student := StudentRefresh.FindStudentByPID(db, pid);
    if student.Failure? {
      return Fail(student.error);
    }
    if range.Failure? {
      return Fail(range.error);
    }
    r := RefreshPeriods(db, pid, range.value, engage, cancelled);
  }

  /** The loop of RefreshMarks; k counts the waits. */
  method RefreshPeriods(db: DB, pid: int, periods: seq<Period>, engage: Period -> Render, cancelled: nat -> bool)
    returns (r: Outcome)
    requires db.Valid() && pid in db.students
    requires forall p :: p in periods ==> p.Full()
    modifies db`marks
    ensures db.Valid()
    ensures MarksGrew(old(db.Snapshot()), db.Snapshot(), pid, PeriodSet(periods), engage)
    ensures r.Pass? <==> HavePassed(old(db.Snapshot()), pid, periods, engage) && Waited(|periods|, cancelled)
    ensures r.Pass? ==> MarksRefreshed(old(db.Snapshot()), db.Snapshot(), pid, PeriodSet(periods), engage)
    ensures r.Fail? ==>
              || FailsAt(old(db.Snapshot()), pid, periods, engage, cancelled, r.error)
              || (r.error == ContextDone
                  && CancelledAt(old(db.Snapshot()), db.Snapshot(), pid, periods, engage, cancelled))
  {
    hide PeriodOutcome, MarksRefreshed, MarksGrew, PeriodSet, FailsAt, CancelledAt, HavePassed, Waited, Integrity,
      SubjectsOk;
    ghost var t := db.Snapshot();
    IntegrityHasSubjects(t);
    var left, k := periods, 0;
    NoPeriods(t, pid, periods[..k], engage, cancelled);
    while |left| > 0
      invariant 0 <= k <= |periods| && left == periods[k..]
      invariant db.Valid() && pid in db.students && db.students == old(db.students) && db.subjects == old(db.subjects)
      invariant MarksRefreshed(t, db.Snapshot(), pid, PeriodSet(periods[..k]), engage)
      invariant HavePassed(t, pid, periods[..k], engage) && Waited(k, cancelled)
    {
      var period := left[0];
      ghost var t1 := db.Snapshot();
      assert period == periods[k] && period in periods;
      var outcome, _ := RefreshPeriod(db, pid, period, engage, engage(period));
      PeriodsAfter(t, t1, db.Snapshot(), pid, periods, k, engage, cancelled, outcome);
      if outcome.Fail? {
        return outcome;
      }
      if cancelled(k) {
        CancelledWhereItStops(t, db.Snapshot(), pid, periods, k, engage, cancelled);
        return Fail(ContextDone);
      }
      WaitedOnce(k, cancelled);
      left := left[1..];
      k := k + 1;
    }
    assert periods[..k] == periods;
    RefreshedGrew(t, db.Snapshot(), pid, PeriodSet(periods), engage);
    return Pass;
  }

  lemma WaitedOnce(k: nat, cancelled: nat -> bool)
    requires Waited(k, cancelled) && !cancelled(k)
    ensures Waited(k + 1, cancelled)
  {}

  lemma CancelledWhereItStops(t: Tables, t': Tables, pid: int, periods: seq<Period>, k: nat,
                              engage: Period -> Render, cancelled: nat -> bool)
    requires SubjectsOk(t.subjects) && k < |periods| && cancelled(k) && Waited(k, cancelled)
    requires HavePassed(t, pid, periods[..k + 1], engage)
    requires MarksRefreshed(t, t', pid, PeriodSet(periods[..k + 1]), engage)
    ensures CancelledAt(t, t', pid, periods, engage, cancelled) && !Waited(|periods|, cancelled)
  {
    hide MarksRefreshed, HavePassed, PeriodSet, SubjectsOk;
  }

  /** One more period, after k that have passed. */
  lemma PeriodsAfter(t: Tables, t1: Tables, t2: Tables, pid: int, periods: seq<Period>, k: nat,
                     engage: Period -> Render, cancelled: nat -> bool, outcome: Outcome)
    requires Waited(k, cancelled)
    requires SubjectsOk(t.subjects) && t1.subjects == t.subjects && k < |periods|
    requires MarksRefreshed(t, t1, pid, PeriodSet(periods[..k]), engage)
    requires HavePassed(t, pid, periods[..k], engage)
    requires MarksGrew(t1, t2, pid, {periods[k]}, engage) && outcome == PeriodOutcome(t1, pid, periods[k], engage)
    requires outcome.Pass? ==> MarksRefreshed(t1, t2, pid, {periods[k]}, engage)
    ensures MarksGrew(t, t2, pid, PeriodSet(periods), engage)
    ensures PeriodOutcome(t, pid, periods[k], engage) == outcome
    ensures outcome.Pass? ==> MarksRefreshed(t, t2, pid, PeriodSet(periods[..k + 1]), engage)
    ensures outcome.Pass? ==> HavePassed(t, pid, periods[..k + 1], engage)
    ensures outcome.Fail? ==> FailsAt(t, pid, periods, engage, cancelled, outcome.error)
    ensures outcome.Fail? ==> !HavePassed(t, pid, periods, engage)
  {
    hide PeriodOutcome, MarksRefreshed, MarksGrew, SubjectsOk;
    assert forall p :: p in periods[..k] <==> p in PeriodSet(periods[..k]);
    hide PeriodSet;
    OutcomeIsKept(t, t1, pid, PeriodSet(periods[..k]), periods[k], engage);
    NextPeriod(periods, k);
    RefreshThenGrow(t, t1, t2, pid, PeriodSet(periods[..k]), {periods[k]}, engage);
    GrowInMore(t, t2, pid, PeriodSet(periods[..k + 1]), PeriodSet(periods), engage);
    if outcome.Pass? {
      RefreshesCompose(t, t1, t2, pid, PeriodSet(periods[..k]), {periods[k]}, engage);
    }
  }

  lemma NextPeriod(periods: seq<Period>, k: nat)
    requires k < |periods|
    ensures PeriodSet(periods[..k + 1]) == PeriodSet(periods[..k]) + {periods[k]}
    ensures PeriodSet(periods[..k + 1]) <= PeriodSet(periods)
    ensures forall p :: p in periods[..k + 1] <==> p in periods[..k] || p == periods[k]
  {
    assert periods[..k + 1] == periods[..k] + [periods[k]];
  }

  lemma NoPeriods(t: Tables, pid: int, periods: seq<Period>, engage: Period -> Render, cancelled: nat -> bool)
    requires SubjectsOk(t.subjects) && periods == []
    ensures MarksRefreshed(t, t, pid, PeriodSet(periods), engage) && HavePassed(t, pid, periods, engage)
    ensures Waited(0, cancelled)
  {}

  lemma RefreshedGrew(t: Tables, t1: Tables, pid: int, periods: set<Period>, engage: Period -> Render)
    requires SubjectsOk(t.subjects) && MarksRefreshed(t, t1, pid, periods, engage)
    ensures MarksGrew(t, t1, pid, periods, engage)
  {}

  lemma GrowInMore(t: Tables, t1: Tables, pid: int, ps: set<Period>, qs: set<Period>, engage: Period -> Render)
    requires SubjectsOk(t.subjects) && MarksGrew(t, t1, pid, ps, engage) && ps <= qs
    ensures MarksGrew(t, t1, pid, qs, engage)
  {}

  /**
   findMarksByFullPeriodFallback: with the fallback the answer is Engage's list, and the store is brought up to
   date.
   */
  method FindMarksByFullPeriodFallback(db: DB, pid: int, period: Period, fallback: bool, engage: Period -> Render)
    returns (r: Result<seq<Mark>>)
    requires db.Valid() && period.Full()
    modifies db`marks
    ensures db.Valid()
    ensures !fallback ==> db.marks == old(db.marks) && r.Success? && Lists(db.marks, pid, period, r.value)
    ensures fallback ==>
              var outcome := PeriodOutcome(old(db.Snapshot()), pid, period, engage);
              && (outcome.Fail? ==> r == Failure(outcome.error))
              && (outcome.Pass? ==> && r == EngageMarks(db.subjects, pid, period, engage(period))
                                    && MarksRefreshed(old(db.Snapshot()), db.Snapshot(), pid, {period}, engage))
  {
    if !fallback {
      var local := FindMarksByFullPeriod(db, pid, period);
      return Success(local);
    }
    hide PeriodOutcome, MarksRefreshed, MarksGrew, EngageMarks;
    var outcome, marks := RefreshPeriod(db, pid, period, engage, engage(period));
    if outcome.Fail? {
      return Failure(outcome.error);
    }
    return Success(marks);
  }
}
