/** What a refresh of marks leaves behind, counted mark by mark, and the laws of such refreshes. */
module MarkStore {
  import opened Wrappers
  import opened Bytes
  import opened Sets
  import opened Store
  import opened MarkScan

  /** csb.Mark: data.subject is its SubjectID, about its Subject. */
  datatype Mark = Mark(data: MarkData, about: Subject)

  const NO_SUBJECT := Subject(0, [], [])

  /** What Engage has for a pupil and period: the name of the term may be refused, or the fetch may fail. */
  datatype Render = NoTerm(error: Error) | NotFetched | Fetched(buf: Text)

  // ----- attaching subjects -----

  /** attachMarkSubject */
  function Attached(subjects: map<int, SubjectRow>, m: Mark): Result<Mark>
    requires SubjectsOk(subjects)
  {
    if m.about.name != [] then
      var s :- FindSubjectByName(subjects, m.about.name);
      Success(m.(data := m.data.(subject := s.id), about := s))
    else if m.data.subject != 0 then
      var s :- FindSubjectByID(subjects, m.data.subject);
      Success(m.(about := s))
    else Success(m)
  }

  /** Attaching by name and attaching again by the id found give the same subject. */
  lemma AttachByNameThenById(subjects: map<int, SubjectRow>, m: Mark)
    requires SubjectsOk(subjects) && Attached(subjects, m).Success?
    requires m.about.name != [] || m.data.subject != 0
    ensures var found := Attached(subjects, m).value;
            && FindSubjectByID(subjects, found.data.subject) == Success(found.about)
            && Attached(subjects, found.(about := NO_SUBJECT)) == Success(found)
            && Attached(subjects, found) == Success(found)
  {}

  function AttachedAll(subjects: map<int, SubjectRow>, marks: seq<Mark>): Result<seq<Mark>>
    requires SubjectsOk(subjects)
  {
    if marks == [] then Success([])
    else
      var m :- Attached(subjects, marks[0]);
      var rest :- AttachedAll(subjects, marks[1..]);
      Success([m] + rest)
  }

  // ----- marks from Engage -----

  /** The scanned marks, with the pupil and period they were asked for. */
  function Filled(pid: int, period: Period, scanned: seq<ScannedMark>): seq<Mark> {
    if scanned == [] then []
    else
      var s := scanned[0];
      [Mark(MarkData(pid, 0, s.teacher, s.percentage, period), Subject(0, [], s.subject))]
          + Filled(pid, period, scanned[1..])
  }

  /** The error of a failed fetch is not looked at: the buffer is then empty. */
  function BufferOf(render: Render): Text {
    if render.Fetched? then render.buf else []
  }

  /** findMarksByFullPeriodEngage, with the pupil and period of the request filled in. */
  function FromEngage(pid: int, period: Period, render: Render): Result<seq<Mark>> {
    if render.NoTerm? then Failure(render.error)
    else
      var scanned :- Scan(BufferOf(render));
      Success(Filled(pid, period, scanned))
  }

  /** findMarksByFullPeriodEngage, then attachMarksSubjectsWithStudent for a pupil that is stored. */
  function EngageMarks(subjects: map<int, SubjectRow>, pid: int, period: Period, render: Render): Result<seq<Mark>>
    requires SubjectsOk(subjects)
  {
    var marks :- FromEngage(pid, period, render);
    AttachedAll(subjects, marks)
  }

  function DataOf(marks: seq<Mark>): seq<MarkData> {
    if marks == [] then [] else [marks[0].data] + DataOf(marks[1..])
  }

  function EngageData(subjects: map<int, SubjectRow>, pid: int, period: Period, render: Render): seq<MarkData>
    requires SubjectsOk(subjects)
  {
    var r := EngageMarks(subjects, pid, period, render);
    if r.Success? then DataOf(r.value) else []
  }

  lemma {:induction false} FilledData(pid: int, period: Period, scanned: seq<ScannedMark>)
    ensures forall d :: d in DataOf(Filled(pid, period, scanned)) ==> d.student == pid && d.period == period
  {
    if scanned != [] {
      FilledData(pid, period, scanned[1..]);
      var marks := Filled(pid, period, scanned);
      assert marks[1..] == Filled(pid, period, scanned[1..]);
    }
  }

  lemma {:induction false} AttachedData(subjects: map<int, SubjectRow>, marks: seq<Mark>, pid: int, period: Period)
    requires SubjectsOk(subjects) && AttachedAll(subjects, marks).Success?
    requires forall d :: d in DataOf(marks) ==> d.student == pid && d.period == period
    ensures forall d :: d in DataOf(AttachedAll(subjects, marks).value) ==> d.student == pid && d.period == period
  {
    if marks != [] {
      assert marks[0].data in DataOf(marks);
      AttachedData(subjects, marks[1..], pid, period);
      var all := AttachedAll(subjects, marks).value;
      assert all[1..] == AttachedAll(subjects, marks[1..]).value;
    }
  }

  /** Engage's marks are all for the pupil and period asked for. */
  lemma EngageDataIsOfPeriod(subjects: map<int, SubjectRow>, pid: int, period: Period, render: Render)
    requires SubjectsOk(subjects)
    ensures forall d :: d in EngageData(subjects, pid, period, render) ==> d.student == pid && d.period == period
  {
    hide Scan;
    if EngageMarks(subjects, pid, period, render).Success? {
      var scanned := Scan(BufferOf(render)).value;
      FilledData(pid, period, scanned);
      AttachedData(subjects, Filled(pid, period, scanned), pid, period);
    }
  }

  // ----- counting rows -----

  function RowsOf<K(==)>(marks: map<K, MarkRow>, d: MarkData): set<K> {
    set id | id in marks && marks[id].data == d
  }

  /** How many rows hold the mark d, whatever their ids and timestamps. */
  function Count<K(==)>(marks: map<K, MarkRow>, d: MarkData): nat {
    |RowsOf(marks, d)|
  }

  /** The subjects in which the pupil has a mark for the period. */
  function SubjectsAt(marks: map<int, MarkRow>, pid: int, period: Period): set<int> {
    set id | id in marks && marks[id].data.student == pid && marks[id].data.period == period :: marks[id].data.subject
  }

  lemma CountIsPositive(marks: map<int, MarkRow>, d: MarkData)
    ensures Count(marks, d) > 0 <==> exists id :: id in marks && marks[id].data == d
  {
    if Count(marks, d) > 0 {
      var id := Pick(RowsOf(marks, d));
      assert id in marks && marks[id].data == d;
    } else {
      assert RowsOf(marks, d) == {};
      assert forall id: int :: id in marks && marks[id].data == d ==> id in RowsOf(marks, d);
    }
  }

  lemma SubjectsAtByCount(marks: map<int, MarkRow>, pid: int, period: Period, s: int)
    ensures s in SubjectsAt(marks, pid, period) <==>
              exists d: MarkData :: Count(marks, d) > 0 && d.student == pid && d.period == period && d.subject == s
  {
    if s in SubjectsAt(marks, pid, period) {
      var id :| id in marks && marks[id].data.student == pid && marks[id].data.period == period
          && marks[id].data.subject == s;
      CountIsPositive(marks, marks[id].data);
    }
    forall d: MarkData | Count(marks, d) > 0 && d.student == pid && d.period == period && d.subject == s
      ensures s in SubjectsAt(marks, pid, period)
    {
      CountIsPositive(marks, d);
    }
  }

  lemma InsertCounts(marks: map<int, MarkRow>, marks': map<int, MarkRow>, d: MarkData, e: MarkData)
    requires Inserted(marks, marks', d)
    ensures Extends(marks, marks') && Count(marks', e) == Count(marks, e) + if e == d then 1 else 0
  {
    var id, now :| InsertedAt(marks, marks', d, id, now);
    NewRowCounts(marks, marks', d, e, id, now);
  }

  lemma NewRowCounts<K>(marks: map<K, MarkRow>, marks': map<K, MarkRow>, d: MarkData, e: MarkData, id: K, now: Time)
    requires id !in marks && marks' == marks[id := MarkRow(d, now)]
    ensures Extends(marks, marks') && Count(marks', e) == Count(marks, e) + if e == d then 1 else 0
  {
    if e == d {
      assert RowsOf(marks', e) == RowsOf(marks, e) + {id};
    } else {
      assert RowsOf(marks', e) == RowsOf(marks, e);
    }
  }

  /** No mark changed or removed. */
  predicate Extends<K(==)>(marks: map<K, MarkRow>, marks': map<K, MarkRow>) {
    forall id :: id in marks ==> id in marks' && marks'[id] == marks[id]
  }

  lemma RowsGrow<K>(marks: map<K, MarkRow>, marks': map<K, MarkRow>, d: MarkData)
    requires Extends(marks, marks')
    ensures RowsOf(marks, d) <= RowsOf(marks', d)
  {
    forall id | id in RowsOf(marks, d) ensures id in RowsOf(marks', d) {
      assert id in marks && marks'[id] == marks[id];
    }
  }

  /** Rows that extend others by no count are the same rows. */
  lemma ExtendsByNothing<K>(marks: map<K, MarkRow>, marks': map<K, MarkRow>)
    requires Extends(marks, marks') && forall d :: Count(marks', d) == Count(marks, d)
    ensures marks' == marks
  {
    forall id | id in marks' ensures id in marks {
      var d := marks'[id].data;
      RowsGrow(marks, marks', d);
      SubsetOfSameSize(RowsOf(marks, d), RowsOf(marks', d));
      assert Count(marks', d) == Count(marks, d);
      assert id in RowsOf(marks', d);
    }
    assert marks'.Keys == marks.Keys;
  }

  // ----- refreshed marks -----

  /** How many rows for d a refresh of the periods adds: Engage's marks, in subjects that had none. */
  function Added(t: Tables, pid: int, periods: set<Period>, engage: Period -> Render, d: MarkData): nat
    requires SubjectsOk(t.subjects)
  {
    if d.student == pid && d.period in periods && d.subject !in SubjectsAt(t.marks, pid, d.period) then
      multiset(EngageData(t.subjects, pid, d.period, engage(d.period)))[d]
    else 0
  }

  /** t' is t with the pupil's marks of the periods brought up to date; ids and timestamps of new rows are free. */
  ghost predicate MarksRefreshed(t: Tables, t': Tables, pid: int, periods: set<Period>, engage: Period -> Render)
    requires SubjectsOk(t.subjects)
  {
    && t' == t.(marks := t'.marks)
    && Extends(t.marks, t'.marks)
    && forall d :: Count(t'.marks, d) == Count(t.marks, d) + Added(t, pid, periods, engage, d)
  }

  /**
   t' holds the marks of t and no more new ones than a refresh would add: what a refresh that stopped early
   leaves.
   */
  ghost predicate MarksGrew(t: Tables, t': Tables, pid: int, periods: set<Period>, engage: Period -> Render)
    requires SubjectsOk(t.subjects)
  {
    && t' == t.(marks := t'.marks)
    && Extends(t.marks, t'.marks)
    && forall d :: Count(t'.marks, d) <= Count(t.marks, d) + Added(t, pid, periods, engage, d)
  }

  /** The same marks, ids and timestamps apart. */
  ghost predicate SameMarks(t: Tables, t': Tables) {
    t' == t.(marks := t'.marks) && forall d :: Count(t'.marks, d) == Count(t.marks, d)
  }

  function SubjectsOf(list: seq<MarkData>): set<int> {
    set d | d in list :: d.subject
  }

  /**
   The pupil's stored subjects become the old ones united with Engage's, and stay as they are in every other
   period.
   */
  lemma SubjectsAreUnited(t: Tables, t': Tables, pid: int, periods: set<Period>, engage: Period -> Render, p: Period)
    requires SubjectsOk(t.subjects) && MarksRefreshed(t, t', pid, periods, engage)
    ensures SubjectsAt(t'.marks, pid, p)
            == SubjectsAt(t.marks, pid, p)
               + if p in periods then SubjectsOf(EngageData(t.subjects, pid, p, engage(p))) else {}
  {
    hide EngageData, Count, SubjectsAt, Extends;
    var data := EngageData(t.subjects, pid, p, engage(p));
    EngageDataIsOfPeriod(t.subjects, pid, p, engage(p));
    var was := SubjectsAt(t.marks, pid, p);
    forall s
      ensures s in SubjectsAt(t'.marks, pid, p) <==> s in was || (p in periods && s in SubjectsOf(data))
    {
      SubjectsAtByCount(t.marks, pid, p, s);
      SubjectsAtByCount(t'.marks, pid, p, s);
      if s in SubjectsAt(t'.marks, pid, p) && s !in was {
        var d: MarkData :| Count(t'.marks, d) > 0 && d.student == pid && d.period == p && d.subject == s;
        assert Count(t.marks, d) == 0;
        assert d in data;
      }
      if p in periods && s in SubjectsOf(data) && s !in was {
        var d :| d in data && d.subject == s;
        assert multiset(data)[d] > 0;
        assert Count(t'.marks, d) > 0;
      }
    }
  }

  /** Marks of other pupils and of other periods keep their rows, and get no new ones. */
  lemma OthersUntouched(t: Tables, t': Tables, pid: int, periods: set<Period>, engage: Period -> Render)
    requires SubjectsOk(t.subjects) && MarksGrew(t, t', pid, periods, engage)
    ensures forall id :: id in t'.marks && (t'.marks[id].data.student != pid || t'.marks[id].data.period !in periods)
                         ==> id in t.marks && t.marks[id] == t'.marks[id]
  {
    forall id | id in t'.marks && (t'.marks[id].data.student != pid || t'.marks[id].data.period !in periods)
      ensures id in t.marks
    {
      var d := t'.marks[id].data;
      RowsGrow(t.marks, t'.marks, d);
      SubsetOfSameSize(RowsOf(t.marks, d), RowsOf(t'.marks, d));
      assert Count(t'.marks, d) <= Count(t.marks, d) + Added(t, pid, periods, engage, d);
      assert id in RowsOf(t'.marks, d);
    }
  }

  /** Refreshing some periods and then others is refreshing all of them: order and repetition do not matter. */
  lemma RefreshesCompose(t: Tables, t1: Tables, t2: Tables, pid: int, ps: set<Period>, qs: set<Period>,
      engage: Period -> Render)
    requires SubjectsOk(t.subjects)
    requires MarksRefreshed(t, t1, pid, ps, engage) && MarksRefreshed(t1, t2, pid, qs, engage)
    ensures MarksRefreshed(t, t2, pid, ps + qs, engage)
  {
    hide EngageData, SubjectsAt, Count;
    forall d
      ensures Count(t2.marks, d) == Count(t.marks, d) + Added(t, pid, ps + qs, engage, d)
    {
      assert Count(t2.marks, d) == Count(t1.marks, d) + Added(t1, pid, qs, engage, d);
      assert Count(t1.marks, d) == Count(t.marks, d) + Added(t, pid, ps, engage, d);
      SubjectsAreUnited(t, t1, pid, ps, engage, d.period);
      var data := EngageData(t.subjects, pid, d.period, engage(d.period));
      assert d in data ==> d.subject in SubjectsOf(data);
    }
  }

  /** Refreshing some periods and then growing in others. */
  lemma RefreshThenGrow(t: Tables, t1: Tables, t2: Tables, pid: int, ps: set<Period>, qs: set<Period>,
      engage: Period -> Render)
    requires SubjectsOk(t.subjects)
    requires MarksRefreshed(t, t1, pid, ps, engage) && MarksGrew(t1, t2, pid, qs, engage)
    ensures MarksGrew(t, t2, pid, ps + qs, engage)
  {
    hide EngageData, SubjectsAt, Count;
    forall d
      ensures Count(t2.marks, d) <= Count(t.marks, d) + Added(t, pid, ps + qs, engage, d)
    {
      assert Count(t2.marks, d) <= Count(t1.marks, d) + Added(t1, pid, qs, engage, d);
      assert Count(t1.marks, d) == Count(t.marks, d) + Added(t, pid, ps, engage, d);
      SubjectsAreUnited(t, t1, pid, ps, engage, d.period);
      var data := EngageData(t.subjects, pid, d.period, engage(d.period));
      assert d in data ==> d.subject in SubjectsOf(data);
    }
  }

  /** The refreshed marks are determined, ids and timestamps apart. */
  lemma MarksAreDetermined(t: Tables, t1: Tables, t2: Tables, pid: int, periods: set<Period>, engage: Period -> Render)
    requires SubjectsOk(t.subjects)
    requires MarksRefreshed(t, t1, pid, periods, engage) && MarksRefreshed(t, t2, pid, periods, engage)
    ensures SameMarks(t1, t2)
  {}

  /** A second refresh, of the same periods or some of them, adds nothing. */
  lemma SecondRefreshAddsNothing(t: Tables, t1: Tables, t2: Tables, pid: int, ps: set<Period>, qs: set<Period>,
      engage: Period -> Render)
    requires SubjectsOk(t.subjects) && qs <= ps
    requires MarksRefreshed(t, t1, pid, ps, engage) && MarksRefreshed(t1, t2, pid, qs, engage)
    ensures t2 == t1
  {
    RefreshesCompose(t, t1, t2, pid, ps, qs, engage);
    assert ps + qs == ps;
    MarksAreDetermined(t, t1, t2, pid, ps, engage);
    ExtendsByNothing(t1.marks, t2.marks);
  }

  // ----- one mark per subject -----

  predicate SameSlot(d: MarkData, e: MarkData) {
    d.student == e.student && d.subject == e.subject && d.period == e.period
  }

  /** At most one row for each pupil, subject and period. */
  predicate Unique(marks: map<int, MarkRow>) {
    forall i, j :: i in marks && j in marks && SameSlot(marks[i].data, marks[j].data) ==> i == j
  }

  /** At most one mark for each subject that is not among the known. */
  predicate OneEach(list: seq<MarkData>, known: set<int>) {
    forall i, j :: 0 <= i < j < |list| && list[i].subject !in known ==> list[i].subject != list[j].subject
  }

  /** Uniqueness in terms of counts. */
  lemma UniqueByCount(marks: map<int, MarkRow>)
    ensures Unique(marks) <==>
              && (forall d :: Count(marks, d) <= 1)
              && (forall d, e :: Count(marks, d) > 0 && Count(marks, e) > 0 && SameSlot(d, e) ==> d == e)
  {
    if Unique(marks) {
      forall d ensures Count(marks, d) <= 1 {
        var rows := RowsOf(marks, d);
        if rows != {} {
          var id := Pick(rows);
          assert forall other: int :: other in rows ==> other == id;
          assert rows == {id};
        }
      }
      forall d, e | Count(marks, d) > 0 && Count(marks, e) > 0 && SameSlot(d, e) ensures d == e {
        CountIsPositive(marks, d);
        CountIsPositive(marks, e);
      }
    }
    if (forall d :: Count(marks, d) <= 1)
        && (forall d, e :: Count(marks, d) > 0 && Count(marks, e) > 0 && SameSlot(d, e) ==> d == e) {
      forall i, j | i in marks && j in marks && SameSlot(marks[i].data, marks[j].data) ensures i == j {
        CountIsPositive(marks, marks[i].data);
        CountIsPositive(marks, marks[j].data);
        AtMostOne(RowsOf(marks, marks[i].data), i, j);
      }
    }
  }

  lemma AtMostOne(s: set<int>, i: int, j: int)
    requires i in s && j in s && |s| <= 1
    ensures i == j
  {
    SubsetOfSameSize({i}, s);
  }

  lemma {:induction false} Occurrences(list: seq<MarkData>, known: set<int>)
    ensures OneEach(list, known) <==>
              && (forall d: MarkData :: d.subject !in known ==> multiset(list)[d] <= 1)
              && (forall d, e :: d in list && e in list && d.subject !in known && d.subject == e.subject ==> d == e)
  {
    if OneEach(list, known) {
      forall d: MarkData | d.subject !in known ensures multiset(list)[d] <= 1 {
        OneOccurrence(list, known, d);
      }
      forall d, e | d in list && e in list && d.subject !in known && d.subject == e.subject ensures d == e {
        var i :| 0 <= i < |list| && list[i] == d;
        var j :| 0 <= j < |list| && list[j] == e;
        assert i == j || i < j || j < i;
      }
    } else {
      var i, j :| 0 <= i < j < |list| && list[i].subject !in known && list[i].subject == list[j].subject;
      if list[i] == list[j] {
        TwoOccurrences(list, i, j);
      }
    }
  }

  lemma TwoOccurrences(list: seq<MarkData>, i: nat, j: nat)
    requires i < j < |list| && list[i] == list[j]
    ensures multiset(list)[list[i]] >= 2
  {
    assert list == list[..j] + list[j..];
    assert list[i] in list[..j] && list[i] in list[j..];
  }

  lemma {:induction false} OneOccurrence(list: seq<MarkData>, known: set<int>, d: MarkData)
    requires OneEach(list, known) && d.subject !in known
    ensures multiset(list)[d] <= 1
  {
    if multiset(list)[d] >= 1 {
      var i :| 0 <= i < |list| && list[i] == d;
      assert list == list[..i] + [d] + list[i + 1..];
      assert d !in list[..i] && d !in list[i + 1..];
    }
  }

  /** No two of Engage's marks for a period are in the same subject, among the subjects that had no mark. */
  predicate OneMarkPerSubject(t: Tables, pid: int, periods: set<Period>, engage: Period -> Render)
    requires SubjectsOk(t.subjects)
  {
    forall p :: p in periods ==> OneEach(EngageData(t.subjects, pid, p, engage(p)), SubjectsAt(t.marks, pid, p))
  }

  /** A refresh keeps the rows unique exactly when Engage gives at most one new mark per subject. */
  lemma UniquenessIsKept(t: Tables, t': Tables, pid: int, periods: set<Period>, engage: Period -> Render)
    requires SubjectsOk(t.subjects) && MarksRefreshed(t, t', pid, periods, engage) && Unique(t.marks)
    ensures Unique(t'.marks) <==> OneMarkPerSubject(t, pid, periods, engage)
  {
    hide EngageData, Count, Unique, OneEach, SubjectsAt;
    UniqueByCount(t.marks);
    UniqueByCount(t'.marks);
    forall d: MarkData
      ensures d.subject in SubjectsAt(t.marks, pid, d.period) <==>
                exists e: MarkData :: Count(t.marks, e) > 0 && e.student == pid && e.period == d.period
                    && e.subject == d.subject
    {
      SubjectsAtByCount(t.marks, pid, d.period, d.subject);
    }
    if OneMarkPerSubject(t, pid, periods, engage) {
      UniqueIfOneEach(t, t', pid, periods, engage);
    }
    if Unique(t'.marks) {
      forall p | p in periods
        ensures OneEach(EngageData(t.subjects, pid, p, engage(p)), SubjectsAt(t.marks, pid, p))
      {
        OneEachIfUnique(t, t', pid, periods, engage, p);
      }
    }
  }

  lemma OneEachIfUnique(t: Tables, t': Tables, pid: int, periods: set<Period>, engage: Period -> Render, p: Period)
    requires SubjectsOk(t.subjects) && MarksRefreshed(t, t', pid, periods, engage) && Unique(t'.marks) && p in periods
    ensures OneEach(EngageData(t.subjects, pid, p, engage(p)), SubjectsAt(t.marks, pid, p))
  {
    hide EngageData, Count, Unique, OneEach, SubjectsAt;
    var data, known := EngageData(t.subjects, pid, p, engage(p)), SubjectsAt(t.marks, pid, p);
    UniqueByCount(t'.marks);
    EngageDataIsOfPeriod(t.subjects, pid, p, engage(p));
    Occurrences(data, known);
    forall d: MarkData | d.subject !in known
      ensures multiset(data)[d] <= Count(t'.marks, d)
    {
      if d in data {
        assert Added(t, pid, periods, engage, d) == multiset(data)[d];
      }
    }
    forall d, e | d in data && e in data && d.subject !in known && d.subject == e.subject ensures d == e {
      assert multiset(data)[d] > 0 && multiset(data)[e] > 0;
      assert SameSlot(d, e);
    }
  }

  lemma UniqueIfOneEach(t: Tables, t': Tables, pid: int, periods: set<Period>, engage: Period -> Render)
    requires SubjectsOk(t.subjects) && MarksRefreshed(t, t', pid, periods, engage) && Unique(t.marks)
    requires OneMarkPerSubject(t, pid, periods, engage)
    ensures Unique(t'.marks)
  {
    hide EngageData, Count, Unique, OneEach, SubjectsAt;
    UniqueByCount(t.marks);
    UniqueByCount(t'.marks);
    forall d ensures Count(t'.marks, d) <= 1 {
      AddedOnlyWhereNone(t, t', pid, periods, engage, d);
    }
    forall d, e | Count(t'.marks, d) > 0 && Count(t'.marks, e) > 0 && SameSlot(d, e) ensures d == e {
      AddedOnlyWhereNone(t, t', pid, periods, engage, d);
      AddedOnlyWhereNone(t, t', pid, periods, engage, e);
      SubjectsAtByCount(t.marks, pid, d.period, d.subject);
    }
  }

  /** A mark is either an old row and not added, or added once, alone in its subject, where there was none. */
  lemma AddedOnlyWhereNone(t: Tables, t': Tables, pid: int, periods: set<Period>, engage: Period -> Render, d: MarkData)
    requires SubjectsOk(t.subjects) && MarksRefreshed(t, t', pid, periods, engage) && Unique(t.marks)
    requires OneMarkPerSubject(t, pid, periods, engage)
    ensures Count(t'.marks, d) <= 1
    ensures Count(t'.marks, d) > 0 && Count(t.marks, d) == 0 ==>
              && d.student == pid && d.period in periods && d.subject !in SubjectsAt(t.marks, pid, d.period)
              && d in EngageData(t.subjects, pid, d.period, engage(d.period))
              && forall e ::
                   e in EngageData(t.subjects, pid, d.period, engage(d.period)) && e.subject == d.subject ==> e == d
  {
    hide EngageData, Count, Unique, OneEach, SubjectsAt;
    UniqueByCount(t.marks);
    var data := EngageData(t.subjects, pid, d.period, engage(d.period));
    Occurrences(data, SubjectsAt(t.marks, pid, d.period));
    SubjectsAtByCount(t.marks, pid, d.period, d.subject);
    assert Count(t'.marks, d) == Count(t.marks, d) + Added(t, pid, periods, engage, d);
  }

  // ----- from the render to the rows -----

  /** The stored subject that a scanned mark names; an empty name is not looked up. */
  function NamedSubject(subjects: map<int, SubjectRow>, name: Text): Result<Subject>
    requires SubjectsOk(subjects)
  {
    if name == [] then Success(NO_SUBJECT) else FindSubjectByName(subjects, name)
  }

  lemma {:induction false} AttachedFilled(subjects: map<int, SubjectRow>, pid: int, period: Period,
      scanned: seq<ScannedMark>)
    requires SubjectsOk(subjects)
    ensures var r := AttachedAll(subjects, Filled(pid, period, scanned));
            && (r.Success? <==> forall s :: s in scanned ==> NamedSubject(subjects, s.subject).Success?)
            && (r.Success? ==>
                  && |r.value| == |scanned|
                  && forall k :: 0 <= k < |scanned| ==>
                       var about := NamedSubject(subjects, scanned[k].subject);
                       about.Success? && r.value[k]
                       == Mark(MarkData(pid, about.value.id, scanned[k].teacher, scanned[k].percentage, period),
                           about.value))
  {
    if scanned != [] {
      AttachedFilled(subjects, pid, period, scanned[1..]);
      assert scanned == [scanned[0]] + scanned[1..];
      var marks := Filled(pid, period, scanned);
      assert marks[1..] == Filled(pid, period, scanned[1..]);
      assert Attached(subjects, marks[0]).Success? <==> NamedSubject(subjects, scanned[0].subject).Success?;
      hide Attached, NamedSubject;
    }
  }

  lemma {:induction false} MarksOfCells(cells: seq<Cell>)
    ensures |Marks(cells)| == |cells| && forall k :: 0 <= k < |cells| ==> Marks(cells)[k] == cells[k].mark
  {
    if cells != [] {
      MarksOfCells(cells[1..]);
    }
  }

  /**
   Engage's list for a printed render: readable exactly when every printed subject is known, and then mark for
   mark the printed one.
   */
  lemma PrintedMarksAreRead(subjects: map<int, SubjectRow>, pid: int, period: Period, cells: seq<Cell>, tail: Text)
    requires SubjectsOk(subjects) && cells != []
    requires forall k :: 0 <= k < |cells| ==> IsCell(cells[k])
    requires forall i :: 0 <= i < |tail| ==> !PercentAt(tail, i)
    ensures var r := EngageMarks(subjects, pid, period, Fetched(PrintAll(cells, tail)));
            && (r.Success? <==> forall k :: 0 <= k < |cells| ==> NamedSubject(subjects, cells[k].mark.subject).Success?)
            && (r.Success? ==>
                  && |r.value| == |cells|
                  && forall k :: 0 <= k < |cells| ==>
                       var about := NamedSubject(subjects, cells[k].mark.subject);
                       about.Success? && r.value[k].data
                       == MarkData(pid, about.value.id, cells[k].mark.teacher, cells[k].mark.percentage, period))
  {
    hide Scan, IsCell, PercentAt, PrintAll, NamedSubject, AttachedAll, Filled;
    ScanInvertsPrinting(cells, tail);
    MarksOfCells(cells);
    AttachedFilled(subjects, pid, period, Marks(cells));
    forall s | s in Marks(cells) ensures exists k :: 0 <= k < |cells| && cells[k].mark == s {
      var k :| 0 <= k < |cells| && Marks(cells)[k] == s;
    }
  }

  /** After a refresh, every mark printed for a refreshed period is stored, unless its subject had a mark already. */
  lemma PrintedMarksAreStored(t: Tables, t': Tables, pid: int, periods: set<Period>, engage: Period -> Render,
                              p: Period, cells: seq<Cell>, tail: Text, k: nat)
    requires SubjectsOk(t.subjects) && MarksRefreshed(t, t', pid, periods, engage)
    requires p in periods && engage(p) == Fetched(PrintAll(cells, tail)) && k < |cells|
    requires forall i :: 0 <= i < |cells| ==>
              IsCell(cells[i]) && NamedSubject(t.subjects, cells[i].mark.subject).Success?
    requires forall i :: 0 <= i < |tail| ==> !PercentAt(tail, i)
    ensures var s := NamedSubject(t.subjects, cells[k].mark.subject).value.id;
            s in SubjectsAt(t.marks, pid, p)
            || exists id :: id in t'.marks
                 && t'.marks[id].data == MarkData(pid, s, cells[k].mark.teacher, cells[k].mark.percentage, p)
  {
    hide EngageMarks, NamedSubject, SubjectsAt, Count, PrintAll, IsCell, PercentAt;
    PrintedMarksAreRead(t.subjects, pid, p, cells, tail);
    var s := NamedSubject(t.subjects, cells[k].mark.subject).value.id;
    var d := MarkData(pid, s, cells[k].mark.teacher, cells[k].mark.percentage, p);
    if s !in SubjectsAt(t.marks, pid, p) {
      DataAt(EngageMarks(t.subjects, pid, p, engage(p)).value, k);
      assert d in EngageData(t.subjects, pid, p, engage(p));
      assert Count(t'.marks, d) == Count(t.marks, d) + Added(t, pid, periods, engage, d);
      CountIsPositive(t'.marks, d);
    }
  }

  lemma {:induction false} DataAt(marks: seq<Mark>, k: nat)
    requires k < |marks|
    ensures |DataOf(marks)| == |marks| && DataOf(marks)[k] == marks[k].data
  {
    if k > 0 {
      DataAt(marks[1..], k - 1);
    } else if |marks| > 1 {
      DataAt(marks[1..], 0);
    }
  }
}
