/** What a refresh should make of one pupil, as a function; and when doing it again changes nothing. */
module Reconcile {
  import opened Wrappers
  import opened Bytes
  import opened Sets
  import opened Store

  /** csb.Student without its key, marks and timestamps. */
  datatype Student = Student(name: Text, year: int, attends: bool, subjects: seq<Subject>)

  /** Engage's answer for one pupil id. */
  datatype Reply = Absent | Present(student: Student) | Unavailable(error: Error)

  /** What the store holds for one pupil id, timestamps and marks aside. */
  datatype Entry = NoEntry | Entry(name: Text, year: Option<int>, attends: bool, takes: set<int>)

  function EntryOf(t: Tables, pid: int): Entry {
    if pid in t.students then
      Entry(t.students[pid].name, t.students[pid].year, t.students[pid].attends, TakesOf(t.takes, pid))
    else NoEntry
  }

  /** The current_year column is NULL for a pupil who does not attend. */
  function YearColumn(year: int, attends: bool): Option<int> {
    if attends then Some(year) else None
  }

  /** Student.Validate */
  predicate IsValid(pid: int, s: Student) {
    pid != 0 && s.name != [] && s.subjects != []
  }

  /** Attaching each subject of the list by its code, in order. */
  function AttachAll(subjects: map<int, SubjectRow>, takes: set<int>, list: seq<Subject>): Result<set<int>>
    requires SubjectsOk(subjects)
    decreases |list|
  {
    if list == [] then Success(takes)
    else
      var s :- FindSubjectByEngageCode(subjects, list[0].code);
      if s.id in takes then Failure(Constraint)
      else AttachAll(subjects, takes + {s.id}, list[1..])
  }

  /** The codes of the subjects in takes. */
  function Codes(subjects: map<int, SubjectRow>, takes: set<int>): set<Text> {
    set id | id in takes && id in subjects :: subjects[id].code
  }

  /** The entries of next whose code is not among the old ones. */
  function Additions(codes: set<Text>, next: seq<Subject>): seq<Subject> {
    if next == [] then []
    else (if next[0].code in codes then [] else [next[0]]) + Additions(codes, next[1..])
  }

  /** The subject part of updateStudent: the lists are compared by length before they are compared by code. */
  function UpdatedTakes(subjects: map<int, SubjectRow>, takes: set<int>, next: seq<Subject>): Result<set<int>>
    requires SubjectsOk(subjects)
  {
    if |next| == |takes| then Success(takes)
    else if |next| < |takes| then Failure(Panic)
    else AttachAll(subjects, takes, Additions(Codes(subjects, takes), next))
  }

  function Reconciled(subjects: map<int, SubjectRow>, pid: int, reply: Reply, local: Entry, purge: bool): Result<Entry>
    requires SubjectsOk(subjects)
  {
    match reply
    case Unavailable(e) => if e == NotFound then Success(local) else Failure(e)
    case Absent => Success(local)
    case Present(s) =>
      if !s.attends && purge then Success(NoEntry)
      else if !IsValid(pid, s) then Failure(Invalid)
      else if local.NoEntry? then
        var takes :- AttachAll(subjects, {}, s.subjects);
        Success(Entry(s.name, YearColumn(s.year, s.attends), s.attends, takes))
      else
        var takes :- UpdatedTakes(subjects, local.takes, s.subjects);
        Success(Entry(local.name, YearColumn(s.year, s.attends), s.attends, takes))
  }

  // ----- attaching -----

  predicate Known(subjects: map<int, SubjectRow>, takes: set<int>) {
    takes <= subjects.Keys
  }

  function CodesIn(list: seq<Subject>): set<Text> {
    set i | 0 <= i < |list| :: list[i].code
  }

  predicate RepeatFree(list: seq<Subject>) {
    forall i, j :: 0 <= i < j < |list| ==> list[i].code != list[j].code
  }

  /** Attaching succeeds exactly for known codes that are new and not repeated, and adds one subject for each. */
  lemma {:induction false} AttachAllAdds(subjects: map<int, SubjectRow>, takes: set<int>, list: seq<Subject>)
    requires SubjectsOk(subjects) && Known(subjects, takes)
    ensures AttachAll(subjects, takes, list).Success? <==>
              && RepeatFree(list)
              && (forall i :: 0 <= i < |list| ==>
                  list[i].code in Codes(subjects, subjects.Keys) && list[i].code !in Codes(subjects, takes))
    ensures AttachAll(subjects, takes, list).Success? ==>
              var takes' := AttachAll(subjects, takes, list).value;
              && takes <= takes' && Known(subjects, takes')
              && Codes(subjects, takes') == Codes(subjects, takes) + CodesIn(list)
              && |takes'| == |takes| + |list|
    decreases |list|
  {
    if list == [] {
      assert CodesIn(list) == {};
    } else {
      hide Codes, CodesIn, RepeatFree, SubjectsOk, FindSubjectByEngageCode, Known;
      CodesInCons(list);
      RepeatFreeSplits(list);
      FoundByCode(subjects, takes, list[0].code);
      var r := FindSubjectByEngageCode(subjects, list[0].code);
      if r.Success? && r.value.id !in takes {
        AttachAllAdds(subjects, takes + {r.value.id}, list[1..]);
        assert forall i :: 1 <= i < |list| ==> list[1..][i - 1] == list[i];
      }
    }
  }

  lemma FoundByCode(subjects: map<int, SubjectRow>, takes: set<int>, code: Text)
    requires SubjectsOk(subjects) && Known(subjects, takes)
    ensures var r := FindSubjectByEngageCode(subjects, code);
            && (r.Success? <==> code in Codes(subjects, subjects.Keys))
            && (r.Success? ==>
                  && (r.value.id in takes <==> code in Codes(subjects, takes))
                  && Known(subjects, takes + {r.value.id})
                  && Codes(subjects, takes + {r.value.id}) == Codes(subjects, takes) + {code})
  {}

  lemma RepeatFreeSplits(list: seq<Subject>)
    requires list != []
    ensures RepeatFree(list) <==> RepeatFree(list[1..]) && forall i :: 1 <= i < |list| ==> list[i].code != list[0].code
  {
    if RepeatFree(list[1..]) && forall i :: 1 <= i < |list| ==> list[i].code != list[0].code {
      forall i, j | 0 <= i < j < |list| ensures list[i].code != list[j].code {
        if i > 0 {
          assert list[1..][i - 1].code != list[1..][j - 1].code;
        }
      }
    } else if RepeatFree(list) {
      forall i, j | 0 <= i < j < |list[1..]| ensures list[1..][i].code != list[1..][j].code {
        assert list[i + 1].code != list[j + 1].code;
      }
    }
  }

  /**
   How attaching fails: at the first entry whose code is unknown, with ENOTFOUND, or whose subject is taken
   already or came before, with the error of the UNIQUE clause.
   */
  lemma {:induction false} AttachAllFails(subjects: map<int, SubjectRow>, takes: set<int>, list: seq<Subject>)
    returns (k: nat)
    requires SubjectsOk(subjects) && Known(subjects, takes) && AttachAll(subjects, takes, list).Failure?
    ensures k < |list| && AttachAll(subjects, takes, list[..k]).Success?
    ensures var code := list[k].code;
            if code !in Codes(subjects, subjects.Keys) then AttachAll(subjects, takes, list) == Failure(NotFound)
            else AttachAll(subjects, takes, list) == Failure(Constraint)
                 && (code in Codes(subjects, takes) || code in CodesIn(list[..k]))
    decreases |list|
  {
    hide Codes, CodesIn, SubjectsOk, FindSubjectByEngageCode, Known;
    FoundByCode(subjects, takes, list[0].code);
    var r := FindSubjectByEngageCode(subjects, list[0].code);
    if r.Failure? || r.value.id in takes {
      k := 0;
    } else {
      var rest := AttachAllFails(subjects, takes + {r.value.id}, list[1..]);
      k := rest + 1;
      assert list[..k][0] == list[0] && list[..k][1..] == list[1..][..rest];
      CodesInCons(list[..k]);
    }
  }

  // ----- the length shortcut -----

  lemma {:induction false} AdditionsAreNew(codes: set<Text>, next: seq<Subject>)
    ensures CodesIn(Additions(codes, next)) == CodesIn(next) - codes
    ensures forall s :: s in Additions(codes, next) ==> s.code !in codes
  {
    if next != [] {
      AdditionsAreNew(codes, next[1..]);
      CodesInCons(next);
      if next[0].code !in codes {
        var adds := Additions(codes, next);
        assert adds[1..] == Additions(codes, next[1..]);
        CodesInCons(adds);
      } else {
        assert Additions(codes, next) == Additions(codes, next[1..]);
      }
    }
  }

  /** Every entry with a new code is added as often as it is listed. */
  lemma {:induction false} AdditionsKeepRepeats(codes: set<Text>, next: seq<Subject>, s: Subject)
    ensures multiset(Additions(codes, next))[s] == if s.code in codes then 0 else multiset(next)[s]
  {
    if next != [] {
      AdditionsKeepRepeats(codes, next[1..], s);
      assert next == [next[0]] + next[1..];
    }
  }

  lemma {:induction false} AdditionsAreRepeatFree(codes: set<Text>, next: seq<Subject>)
    requires RepeatFree(next)
    ensures RepeatFree(Additions(codes, next))
  {
    if next != [] {
      RepeatFreeSplits(next);
      AdditionsAreRepeatFree(codes, next[1..]);
      if next[0].code !in codes {
        var rest := Additions(codes, next[1..]);
        AdditionsAreNew(codes, next[1..]);
        assert next[0].code !in CodesIn(next[1..]);
        forall i | 0 <= i < |rest| ensures rest[i].code != next[0].code {
          assert rest[i].code in CodesIn(rest);
        }
        assert ([next[0]] + rest)[1..] == rest;
        RepeatFreeSplits([next[0]] + rest);
      }
    }
  }

  lemma CodesInCons(list: seq<Subject>)
    requires list != []
    ensures CodesIn(list) == {list[0].code} + CodesIn(list[1..])
  {
    assert forall i :: 1 <= i < |list| ==> list[1..][i - 1] == list[i];
  }

  lemma CodesInSnoc(list: seq<Subject>, s: Subject)
    ensures CodesIn(list + [s]) == CodesIn(list) + {s.code}
  {
    assert forall i :: 0 <= i < |list| ==> (list + [s])[i] == list[i];
    assert (list + [s])[|list|] == s;
  }

  /** A repeat-free list has as many codes as entries. */
  lemma {:induction false} RepeatFreeCount(list: seq<Subject>)
    ensures |CodesIn(list)| <= |list|
    ensures RepeatFree(list) ==> |CodesIn(list)| == |list|
  {
    if list == [] {
      assert CodesIn(list) == {};
    } else {
      RepeatFreeCount(list[1..]);
      RepeatFreeSplits(list);
      CodesInCons(list);
      assert RepeatFree(list) ==> list[0].code !in CodesIn(list[1..]);
    }
  }

  lemma {:induction false} AdditionsCount(codes: set<Text>, next: seq<Subject>)
    requires RepeatFree(next)
    ensures |Additions(codes, next)| == |next| - |codes * CodesIn(next)|
  {
    AdditionsAreNew(codes, next);
    AdditionsAreRepeatFree(codes, next);
    var adds := Additions(codes, next);
    RepeatFreeCount(next);
    RepeatFreeCount(adds);
    assert CodesIn(next) == CodesIn(adds) + codes * CodesIn(next);
  }

  lemma {:induction false} CodesCount(subjects: map<int, SubjectRow>, takes: set<int>)
    requires SubjectsOk(subjects) && Known(subjects, takes)
    ensures |Codes(subjects, takes)| == |takes|
  {
    if takes != {} {
      var id := Pick(takes);
      CodesCount(subjects, takes - {id});
      assert Codes(subjects, takes) == Codes(subjects, takes - {id}) + {subjects[id].code};
    } else {
      assert Codes(subjects, takes) == {};
    }
  }

  /** When the new list contains the old codes, the shortcut is right: the stored subjects become the new ones. */
  lemma ShortcutOnGrowth(subjects: map<int, SubjectRow>, takes: set<int>, next: seq<Subject>)
    requires SubjectsOk(subjects) && Known(subjects, takes)
    requires RepeatFree(next) && Codes(subjects, takes) <= CodesIn(next) <= Codes(subjects, subjects.Keys)
    ensures |next| == |takes| <==> Codes(subjects, takes) == CodesIn(next)
    ensures |Additions(Codes(subjects, takes), next)| == |next| - |takes|
    ensures var r := UpdatedTakes(subjects, takes, next);
            && r.Success? && takes <= r.value
            && Codes(subjects, r.value) == CodesIn(next) && |r.value| == |next|
  {
    hide Codes, CodesIn, RepeatFree, AttachAll, Additions, SubjectsOk;
    var codes := Codes(subjects, takes);
    CodesCount(subjects, takes);
    RepeatFreeCount(next);
    AdditionsCount(codes, next);
    AdditionsAreNew(codes, next);
    AdditionsAreRepeatFree(codes, next);
    assert codes * CodesIn(next) == codes;
    SubsetOfSameSize(codes, CodesIn(next));
    var adds := Additions(codes, next);
    forall i | 0 <= i < |adds| ensures adds[i].code in Codes(subjects, subjects.Keys) && adds[i].code !in codes {
      CodesInHas(adds, i);
    }
    AttachAllAdds(subjects, takes, adds);
  }

  /**
   The length shortcut is set difference exactly when the new list contains the old codes.  Only
   then does an update leave the subjects of the new list; and then equal lengths mean equal sets,
   otherwise the additions number exactly the difference, no pair being inserted twice.
   */
  lemma LengthShortcutIsSetDifference(subjects: map<int, SubjectRow>, takes: set<int>, next: seq<Subject>)
    requires SubjectsOk(subjects) && Known(subjects, takes)
    requires RepeatFree(next) && CodesIn(next) <= Codes(subjects, subjects.Keys)
    ensures var r := UpdatedTakes(subjects, takes, next);
            r.Success? && Codes(subjects, r.value) == CodesIn(next) <==> Codes(subjects, takes) <= CodesIn(next)
    ensures Codes(subjects, takes) <= CodesIn(next) ==>
              var r := UpdatedTakes(subjects, takes, next);
              && (|next| == |takes| <==> Codes(subjects, takes) == CodesIn(next))
              && |Additions(Codes(subjects, takes), next)| == |next| - |takes|
              && r.Success? && takes <= r.value && |r.value| == |next|
  {
    hide CodesIn, RepeatFree, AttachAll, Additions, SubjectsOk;
    var r := UpdatedTakes(subjects, takes, next);
    if Codes(subjects, takes) <= CodesIn(next) {
      ShortcutOnGrowth(subjects, takes, next);
    }
    if r.Success? {
      UpdateOnlyAdds(subjects, takes, next);
    }
  }

  lemma UpdateOnlyAdds(subjects: map<int, SubjectRow>, takes: set<int>, next: seq<Subject>)
    requires SubjectsOk(subjects) && Known(subjects, takes) && UpdatedTakes(subjects, takes, next).Success?
    ensures takes <= UpdatedTakes(subjects, takes, next).value
  {
    AttachAllAdds(subjects, takes, Additions(Codes(subjects, takes), next));
  }

  // ----- the newest data -----

  /** The entry is Engage's copy. */
  predicate IsNewest(subjects: map<int, SubjectRow>, e: Entry, s: Student) {
    && e.Entry?
    && e.name == s.name && e.year == YearColumn(s.year, s.attends) && e.attends == s.attends
    && Codes(subjects, e.takes) == CodesIn(s.subjects)
  }

  /**
   A reconcile leaves the newest data exactly when the pupil is new, or has the same name and takes
   no subject that Engage no longer lists.
   */
  lemma ReconciledIsNewest(subjects: map<int, SubjectRow>, pid: int, s: Student, local: Entry, purge: bool)
    requires SubjectsOk(subjects) && (local.Entry? ==> Known(subjects, local.takes))
    requires IsValid(pid, s) && (s.attends || !purge)
    requires RepeatFree(s.subjects) && CodesIn(s.subjects) <= Codes(subjects, subjects.Keys)
    ensures var r := Reconciled(subjects, pid, Present(s), local, purge);
            r.Success? && IsNewest(subjects, r.value, s) <==>
              local.NoEntry? || (local.name == s.name && Codes(subjects, local.takes) <= CodesIn(s.subjects))
  {
    hide UpdatedTakes, AttachAll, CodesIn, RepeatFree;
    if local.NoEntry? {
      forall i | 0 <= i < |s.subjects| ensures s.subjects[i].code in Codes(subjects, subjects.Keys) {
        CodesInHas(s.subjects, i);
      }
      assert Codes(subjects, {}) == {};
      AttachAllAdds(subjects, {}, s.subjects);
    } else {
      hide Codes;
      LengthShortcutIsSetDifference(subjects, local.takes, s.subjects);
    }
  }

  /** The same for any list of Engage's, once the reconcile has succeeded. */
  lemma SuccessIsNewest(subjects: map<int, SubjectRow>, pid: int, s: Student, local: Entry, purge: bool)
    requires SubjectsOk(subjects) && (local.Entry? ==> Known(subjects, local.takes)) && (s.attends || !purge)
    requires Reconciled(subjects, pid, Present(s), local, purge).Success?
    ensures IsNewest(subjects, Reconciled(subjects, pid, Present(s), local, purge).value, s) <==>
              local.NoEntry? || (local.name == s.name && Codes(subjects, local.takes) <= CodesIn(s.subjects))
  {
    if local.NoEntry? {
      AttachedIsNewest(subjects, s.subjects);
    } else {
      UpdatedIsNewest(subjects, local.takes, s.subjects);
    }
    hide Codes, CodesIn, AttachAll, UpdatedTakes;
  }

  lemma AttachedIsNewest(subjects: map<int, SubjectRow>, next: seq<Subject>)
    requires SubjectsOk(subjects) && AttachAll(subjects, {}, next).Success?
    ensures Codes(subjects, AttachAll(subjects, {}, next).value) == CodesIn(next)
  {
    AttachAllAdds(subjects, {}, next);
    assert Codes(subjects, {}) == {};
  }

  lemma UpdatedIsNewest(subjects: map<int, SubjectRow>, takes: set<int>, next: seq<Subject>)
    requires SubjectsOk(subjects) && Known(subjects, takes) && UpdatedTakes(subjects, takes, next).Success?
    ensures Codes(subjects, UpdatedTakes(subjects, takes, next).value) == CodesIn(next) <==>
              Codes(subjects, takes) <= CodesIn(next)
  {
    hide AttachAll, Codes, CodesIn, Additions, RepeatFree, SubjectsOk;
    var codes := Codes(subjects, takes);
    CodesCount(subjects, takes);
    RepeatFreeCount(next);
    AdditionsAreNew(codes, next);
    AttachAllAdds(subjects, takes, Additions(codes, next));
    if codes <= CodesIn(next) {
      SubsetOfSameSize(codes, CodesIn(next));
    }
  }

  /** The errors of Engage and of Validate end the reconcile, and so does a list shorter than the stored one. */
  lemma ReconcileErrors(subjects: map<int, SubjectRow>, pid: int, reply: Reply, local: Entry, purge: bool)
    requires SubjectsOk(subjects)
    ensures reply.Unavailable? && reply.error != NotFound ==>
              Reconciled(subjects, pid, reply, local, purge) == Failure(reply.error)
    ensures reply.Present? && (reply.student.attends || !purge)
            && (pid == 0 || |reply.student.name| == 0 || |reply.student.subjects| == 0) ==>
              Reconciled(subjects, pid, reply, local, purge) == Failure(Invalid)
    ensures reply.Present? && (reply.student.attends || !purge) && local.Entry?
            && pid != 0 && |reply.student.name| > 0 && 0 < |reply.student.subjects| < |local.takes| ==>
              Reconciled(subjects, pid, reply, local, purge) == Failure(Panic)
  {}

  /**
   A pupil who swaps one subject for another: the lists are equally long, and the update reports success and
   changes nothing.
   */
  lemma SwappedSubjectStays()
    ensures var subjects := map[1 := SubjectRow([65], [65]), 2 := SubjectRow([66], [66])];
            && SubjectsOk(subjects)
            && var r := Reconciled(subjects, 7, Present(Student([80], 9, true, [Subject(2, [66], [66])])),
                                   Entry([80], Some(9), true, {1}), false);
            && r == Success(Entry([80], Some(9), true, {1}))
            && Codes(subjects, r.value.takes) == {[65]}
  {
    var a: Text, b: Text := [65], [66];
    assert a[0] != b[0];
  }

  /** A pupil whose name was corrected keeps the old one. */
  lemma NameIsKept(subjects: map<int, SubjectRow>, pid: int, s: Student, local: Entry, purge: bool)
    requires SubjectsOk(subjects) && local.Entry? && (s.attends || !purge)
    requires Reconciled(subjects, pid, Present(s), local, purge).Success?
    ensures Reconciled(subjects, pid, Present(s), local, purge).value.name == local.name
  {}

  lemma CodesInHas(list: seq<Subject>, i: nat)
    requires i < |list|
    ensures list[i].code in CodesIn(list)
  {}

  // ----- doing it again -----

  /**
   The condition under which updating again with the same answer changes nothing: enough of the list was
   already stored.
   */
  predicate Settles(subjects: map<int, SubjectRow>, reply: Reply, local: Entry, purge: bool) {
    reply.Present? && !(!reply.student.attends && purge) && local.Entry? ==>
      || |reply.student.subjects| == |local.takes|
      || |local.takes| + |Additions(Codes(subjects, local.takes), reply.student.subjects)| <= |reply.student.subjects|
  }

  /**
   A second refresh with the same answer leaves the entry as it is exactly when the entry settles; otherwise it
   panics.
   */
  lemma ReconcileTwice(subjects: map<int, SubjectRow>, pid: int, reply: Reply, local: Entry, purge: bool)
    requires SubjectsOk(subjects) && (local.Entry? ==> Known(subjects, local.takes))
    requires Reconciled(subjects, pid, reply, local, purge).Success?
    ensures var first := Reconciled(subjects, pid, reply, local, purge).value;
            var again := Reconciled(subjects, pid, reply, first, purge);
            && (again == Success(first) <==> Settles(subjects, reply, local, purge))
            && (again.Failure? <==> !Settles(subjects, reply, local, purge))
            && (again.Failure? ==> again == Failure(Panic))
  {
    var first := Reconciled(subjects, pid, reply, local, purge).value;
    if reply.Present? && (reply.student.attends || !purge) {
      var next := reply.student.subjects;
      if local.NoEntry? {
        AttachAllAdds(subjects, {}, next);
      } else if |next| > |local.takes| {
        var codes := Codes(subjects, local.takes);
        AttachAllAdds(subjects, local.takes, Additions(codes, next));
        AdditionsAreNew(codes, next);
        var codes' := Codes(subjects, first.takes);
        AdditionsAreNew(codes', next);
        assert CodesIn(next) <= codes';
        NoAdditions(codes', next);
      }
    }
  }

  lemma {:induction false} NoAdditions(codes: set<Text>, next: seq<Subject>)
    requires CodesIn(next) <= codes
    ensures Additions(codes, next) == []
  {
    if next != [] {
      CodesInCons(next);
      NoAdditions(codes, next[1..]);
    }
  }

  /** For a repeat-free answer the condition is that the remote list has grown over the local one, or is as long. */
  lemma SettlesWhenRemoteGrows(subjects: map<int, SubjectRow>, reply: Reply, local: Entry, purge: bool)
    requires SubjectsOk(subjects) && local.Entry? && Known(subjects, local.takes)
    requires reply.Present? && !(!reply.student.attends && purge) && RepeatFree(reply.student.subjects)
    ensures Settles(subjects, reply, local, purge) <==>
              |reply.student.subjects| == |local.takes|
                  || Codes(subjects, local.takes) <= CodesIn(reply.student.subjects)
  {
    var codes := Codes(subjects, local.takes);
    CodesCount(subjects, local.takes);
    AdditionsCount(codes, reply.student.subjects);
    var both := codes * CodesIn(reply.student.subjects);
    SubsetOfSameSize(both, codes);
    assert both == codes <==> codes <= CodesIn(reply.student.subjects);
  }

  /** A pupil who dropped one subject and took up two: the first refresh succeeds, the second panics. */
  lemma DroppedSubjectPanics()
    ensures var subjects := map[1 := SubjectRow([65], [65]), 2 := SubjectRow([66], [66]), 3 := SubjectRow([67], [67])];
            var reply := Present(Student([80], 9, true, [Subject(2, [66], [66]), Subject(3, [67], [67])]));
            && SubjectsOk(subjects)
            && var first := Reconciled(subjects, 7, reply, Entry([80], Some(8), true, {1}), false);
            && first.Success?
            && Reconciled(subjects, 7, reply, first.value, false) == Failure(Panic)
  {
    var a: Text, b: Text, c: Text := [65], [66], [67];
    assert a[0] != b[0] && b[0] != c[0] && a[0] != c[0];
    var subjects := map[1 := SubjectRow(a, a), 2 := SubjectRow(b, b), 3 := SubjectRow(c, c)];
    var next := [Subject(2, b, b), Subject(3, c, c)];
    ThreeSubjects(subjects, a, b, c);
    TwoAdditions(a, b, c, next);
    hide *;
    AttachAllAdds(subjects, {1}, next);
    TwoNewSubjectsPanic(subjects, 7, Student([80], 9, true, next), Entry([80], Some(8), true, {1}));
  }

  lemma ThreeSubjects(subjects: map<int, SubjectRow>, a: Text, b: Text, c: Text)
    requires a != b && b != c && a != c
    requires subjects == map[1 := SubjectRow(a, a), 2 := SubjectRow(b, b), 3 := SubjectRow(c, c)]
    ensures SubjectsOk(subjects) && Known(subjects, {1})
    ensures Codes(subjects, {1}) == {a}
    ensures b in Codes(subjects, subjects.Keys) && c in Codes(subjects, subjects.Keys)
  {
    assert subjects[2].code == b && subjects[3].code == c;
  }

  lemma TwoAdditions(a: Text, b: Text, c: Text, next: seq<Subject>)
    requires a != b && b != c && a != c
    requires next == [Subject(2, b, b), Subject(3, c, c)]
    ensures Additions({a}, next) == next && RepeatFree(next)
  {
    assert Additions({a}, next[1..]) == next[1..] + Additions({a}, []);
  }

  lemma TwoNewSubjectsPanic(subjects: map<int, SubjectRow>, pid: int, next: Student, local: Entry)
    requires SubjectsOk(subjects) && local.Entry? && Known(subjects, local.takes)
    requires |local.takes| == 1 && |next.subjects| == 2 && next.attends && IsValid(pid, next)
    requires Additions(Codes(subjects, local.takes), next.subjects) == next.subjects
    requires AttachAll(subjects, local.takes, next.subjects).Success?
    ensures var first := Reconciled(subjects, pid, Present(next), local, false);
            first.Success? && Reconciled(subjects, pid, Present(next), first.value, false) == Failure(Panic)
  {
    hide SubjectsOk, AttachAll, Additions, Codes;
    ReconcileTwice(subjects, pid, Present(next), local, false);
  }
}
