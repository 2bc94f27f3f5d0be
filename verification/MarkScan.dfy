/** GetMarkFromRender of engage.go and the loop that calls it until the render is used up. */
module MarkScan {
  import opened Wrappers
  import opened Bytes

  datatype ScannedMark = ScannedMark(percentage: nat, subject: Text, teacher: Text)

  /** A mark and the number of bytes read to find it. */
  datatype Found = Found(mark: ScannedMark, n: nat)

  /** The (string, int) result of a helper: a text and the index just past it, -1, or a run-time panic. */
  datatype Piece = Piece(text: Text, end: nat) | Missing | OutOfRange

  /** `\\t\d+` can match at i. */
  predicate PercentAt(buf: Text, i: nat) {
    i + 3 <= |buf| && buf[i] == BACKSLASH && buf[i + 1] == LOWER_T && IsDigit(buf[i + 2])
  }

  /** The leftmost match at or after i, with its digits matched greedily. */
  function PercentFrom(buf: Text, i: nat): (r: Option<(nat, nat)>)
    requires i <= |buf|
    ensures r.Some? ==> i <= r.value.0 && PercentAt(buf, r.value.0) && r.value.1 == DigitsEnd(buf, r.value.0 + 2)
                        && r.value.0 + 3 <= r.value.1
    ensures r.Some? ==> forall m :: i <= m < r.value.0 ==> !PercentAt(buf, m)
    ensures r.None? ==> forall m :: i <= m ==> !PercentAt(buf, m)
    decreases |buf| - i
  {
    if PercentAt(buf, i) then Some((i, DigitsEnd(buf, i + 2)))
    else if i == |buf| then None
    else PercentFrom(buf, i + 1)
  }

  /** The text between the byte after the first comma and the next comma. */
  function GetSubjectName(buf: Text): (p: Piece)
    ensures p.Piece? ==> 2 <= p.end < |buf| && buf[p.end] == COMMA
  {
    var x := IndexByte(buf, COMMA);
    if x.None? then Missing
    else if x.value + 2 > |buf| then OutOfRange
    else
      var y := IndexByte(buf[x.value + 2..], COMMA);
      if y.None? then Missing
      else Piece(buf[x.value + 2..x.value + 2 + y.value], x.value + 2 + y.value)
  }

  /** The text between the byte after the last comma before the first '<' and that '<'. */
  function GetTeacherName(buf: Text): (p: Piece)
    ensures p.Piece? ==> 2 <= p.end < |buf| && buf[p.end] == LT
  {
    var x := IndexByte(buf, LT);
    if x.None? then Missing
    else
      var y := LastIndexByte(buf[..x.value + 1], COMMA);
      if y.None? then Missing
      else if y.value + 2 > x.value then OutOfRange
      else Piece(buf[y.value + 2..x.value], x.value)
  }

  /** What GetMarkFromRender returns; a missing teacher is not noticed there and moves n back by one. */
  function GetMark(buf: Text): (r: Result<Found>)
    ensures r.Success? ==> 0 < r.value.n <= |buf|
  {
    var res := PercentFrom(buf, 0);
    if res.None? then Failure(NotFound)
    else
      var n := res.value.1;
      var percentage := Atoi(buf[res.value.0 + 2..n]);
      if percentage.None? then Failure(Internal)
      else
        match GetSubjectName(buf[n..])
        case Missing => Failure(Internal)
        case OutOfRange => Failure(Panic)
        case Piece(subject, x) =>
          match GetTeacherName(buf[n + x..])
          case OutOfRange => Failure(Panic)
          case Missing => Success(Found(ScannedMark(percentage.value, subject, []), n + x - 1))
          case Piece(teacher, y) => Success(Found(ScannedMark(percentage.value, subject, teacher), n + x + y))
  }

  // ----- what the extraction means, in terms of the buffer -----

  /** The first percentage of buf: its mark-up starts at percent, and its digits end before digits. */
  predicate IsPercent(buf: Text, percent: nat, digits: nat) {
    && percent + 3 <= digits <= |buf|
    && PercentAt(buf, percent) && (forall m :: 0 <= m < percent ==> !PercentAt(buf, m))
    && AllDigits(buf[percent + 2..digits]) && (digits < |buf| ==> !IsDigit(buf[digits]))
  }

  /** The first b at or after from is at i. */
  predicate IsFirst(buf: Text, b: Byte, from: nat, i: nat) {
    from <= i < |buf| && buf[i] == b && b !in buf[from..i]
  }

  /** The last b of buf[from..to] is at i. */
  predicate IsLast(buf: Text, b: Byte, from: nat, to: nat, i: nat) {
    from <= i < to <= |buf| && buf[i] == b && b !in buf[i + 1..to]
  }

  /** Where the percentage and the subject of the first mark are: the subject lies between open + 2 and shut. */
  datatype Layout = Layout(percent: nat, digits: nat, open: nat, shut: nat)

  /** A percentage that is an int, and two commas with a byte after the first. */
  predicate IsLayout(buf: Text, at: Layout) {
    && IsPercent(buf, at.percent, at.digits) && Value(buf[at.percent + 2..at.digits]) < INT_LIMIT
    && IsFirst(buf, COMMA, at.digits, at.open)
    && at.open + 2 <= |buf| && IsFirst(buf, COMMA, at.open + 2, at.shut)
  }

  /** A comma at i right before the '<' at end leaves no byte to skip before the teacher. */
  predicate TeacherOverruns(buf: Text, shut: nat, i: nat, end: nat) {
    IsFirst(buf, LT, shut, end) && IsLast(buf, COMMA, shut, end, i) && i + 1 == end
  }

  /** The teacher is the text from the second byte after the last comma before the first '<', which is at end. */
  predicate IsTeacher(buf: Text, shut: nat, i: nat, end: nat, teacher: Text) {
    && IsFirst(buf, LT, shut, end) && IsLast(buf, COMMA, shut, end, i)
    && i + 2 <= end && teacher == buf[i + 2..end]
  }

  /**
   f is the mark that at describes, read up to the '<' after its teacher, or to the byte before its subject's
   last comma.
   */
  predicate IsFound(buf: Text, at: Layout, f: Found) {
    && IsLayout(buf, at)
    && f.mark.percentage == Value(buf[at.percent + 2..at.digits])
    && f.mark.subject == buf[at.open + 2..at.shut]
    && if LT !in buf[at.shut..] then f.mark.teacher == [] && f.n + 1 == at.shut
       else exists i :: 0 <= i < |buf| && IsTeacher(buf, at.shut, i, f.n, f.mark.teacher)
  }

  /** A comma in last place leaves no byte to skip before the subject. */
  predicate SubjectOverruns(buf: Text, percent: nat, digits: nat, open: nat) {
    && IsPercent(buf, percent, digits) && Value(buf[percent + 2..digits]) < INT_LIMIT
    && IsFirst(buf, COMMA, digits, open) && open + 1 == |buf|
  }

  /** The extraction slices outside the bounds of its buffer, or from a higher index to a lower. */
  ghost predicate Overruns(buf: Text) {
    || (exists percent: nat, digits: nat, open: nat :: SubjectOverruns(buf, percent, digits, open))
    || (exists at: Layout, i: nat, end: nat :: IsLayout(buf, at) && TeacherOverruns(buf, at.shut, i, end))
  }

  lemma PercentIs(buf: Text, i: nat, n: nat)
    ensures IsPercent(buf, i, n) <==> PercentFrom(buf, 0) == Some((i, n))
  {
    var r := PercentFrom(buf, 0);
    if IsPercent(buf, i, n) {
      DigitsEndAt(buf, i + 2, n);
      assert r.Some?;
      assert !(r.value.0 < i) && !(i < r.value.0);
    }
  }

  lemma FirstIs(buf: Text, b: Byte, from: nat, i: nat)
    requires from <= |buf|
    ensures IsFirst(buf, b, from, i) <==> from <= i && IndexByte(buf[from..], b) == Some(i - from)
  {
    hide IndexByte;
    var r := IndexByte(buf[from..], b);
    if from <= i && r == Some(i - from) {
      assert buf[from..i] == buf[from..][..i - from];
    }
    if IsFirst(buf, b, from, i) {
      assert buf[from..] == buf[from..i] + [b] + buf[i + 1..];
      IndexOf(buf[from..i], b, buf[i + 1..]);
    }
  }

  lemma LastIs(buf: Text, b: Byte, from: nat, to: nat, i: nat)
    requires from <= to <= |buf|
    ensures IsLast(buf, b, from, to, i) <==> from <= i && LastIndexByte(buf[from..to], b) == Some(i - from)
  {
    hide LastIndexByte;
    var r := LastIndexByte(buf[from..to], b);
    if from <= i && r == Some(i - from) {
      assert buf[i + 1..to] == buf[from..to][i - from + 1..];
    }
    if IsLast(buf, b, from, to, i) {
      assert buf[from..to] == buf[from..i] + [b] + buf[i + 1..to];
      LastIndexOf(buf[from..i], b, buf[i + 1..to]);
    }
  }

  /** Where getSubjectName finds its commas in the rest of buf from n on. */
  lemma SubjectIs(buf: Text, n: nat) returns (open: nat, shut: nat)
    requires n <= |buf|
    ensures match GetSubjectName(buf[n..])
            case Piece(text, x) =>
              shut == n + x && open + 2 <= |buf| && IsFirst(buf, COMMA, n, open) && IsFirst(buf, COMMA, open + 2, shut)
              && text == buf[open + 2..shut]
            case OutOfRange => IsFirst(buf, COMMA, n, open) && open + 1 == |buf|
            case Missing => true
  {
    hide IndexByte, IsFirst;
    open, shut := 0, 0;
    var rest := buf[n..];
    var x := IndexByte(rest, COMMA);
    if x.Some? {
      open := n + x.value;
      FirstIs(buf, COMMA, n, open);
      if x.value + 2 <= |rest| {
        assert rest[x.value + 2..] == buf[open + 2..];
        var y := IndexByte(buf[open + 2..], COMMA);
        if y.Some? {
          shut := open + 2 + y.value;
          FirstIs(buf, COMMA, open + 2, shut);
          assert rest[x.value + 2..x.value + 2 + y.value] == buf[open + 2..shut];
        }
      }
    }
  }

  /** The converse: where the commas are decides what getSubjectName returns. */
  lemma SubjectAt(buf: Text, n: nat, open: nat, shut: nat)
    requires n <= |buf| && IsFirst(buf, COMMA, n, open)
    ensures open + 1 == |buf| ==> GetSubjectName(buf[n..]) == OutOfRange
    ensures open + 2 <= |buf| && IsFirst(buf, COMMA, open + 2, shut) ==>
              GetSubjectName(buf[n..]) == Piece(buf[open + 2..shut], shut - n)
  {
    var rest := buf[n..];
    hide IndexByte, IsFirst;
    FirstIs(buf, COMMA, n, open);
    OpenIsInside(buf, n, open);
    if open + 2 <= |buf| {
      FirstIs(buf, COMMA, open + 2, shut);
      if IsFirst(buf, COMMA, open + 2, shut) {
        OpenIsInside(buf, open + 2, shut);
        SameSlices(buf, n, open - n + 2, shut - n);
      }
    }
  }

  lemma SameSlices(buf: Text, n: nat, from: nat, to: nat)
    requires from <= to && n + to <= |buf|
    ensures buf[n..][from..] == buf[n + from..] && buf[n..][from..to] == buf[n + from..n + to]
  {}

  lemma OpenIsInside(buf: Text, n: nat, open: nat)
    requires IsFirst(buf, COMMA, n, open)
    ensures n <= open < |buf| && buf[open] == COMMA
  {}

  /** Where getTeacherName finds its delimiters in the rest of buf from a comma on. */
  lemma TeacherIs(buf: Text, shut: nat) returns (i: nat, end: nat)
    requires shut < |buf| && buf[shut] == COMMA
    ensures match GetTeacherName(buf[shut..])
            case Piece(teacher, y) => end == shut + y && IsTeacher(buf, shut, i, end, teacher)
            case OutOfRange => TeacherOverruns(buf, shut, i, end)
            case Missing => LT !in buf[shut..]
  {
    hide IndexByte, LastIndexByte, IsFirst, IsLast;
    i, end := 0, 0;
    var rest := buf[shut..];
    var x := IndexByte(rest, LT);
    if x.Some? {
      end := shut + x.value;
      FirstIs(buf, LT, shut, end);
      assert rest[..x.value + 1] == buf[shut..end + 1];
      assert rest[0] == COMMA && rest[..x.value + 1][0] == COMMA;
      var y := LastIndexByte(buf[shut..end + 1], COMMA);
      i := shut + y.value;
      LastIs(buf, COMMA, shut, end + 1, i);
      LastBeforeLast(buf, shut, end, i);
      if i + 2 <= end {
        assert rest[y.value + 2..x.value] == buf[i + 2..end];
      }
    }
  }

  /** The converse: where the delimiters are decides what getTeacherName returns. */
  lemma TeacherAt(buf: Text, shut: nat, i: nat, end: nat)
    requires shut < |buf| && IsFirst(buf, LT, shut, end) && IsLast(buf, COMMA, shut, end, i)
    ensures GetTeacherName(buf[shut..]) == if i + 2 <= end then Piece(buf[i + 2..end], end - shut) else OutOfRange
  {
    hide IndexByte, LastIndexByte, IsFirst, IsLast;
    var rest := buf[shut..];
    EndIsInside(buf, shut, i, end);
    FirstIs(buf, LT, shut, end);
    LastBeforeLast(buf, shut, end, i);
    LastIs(buf, COMMA, shut, end + 1, i);
    assert rest[..end - shut + 1] == buf[shut..end + 1];
    if i + 2 <= end {
      assert rest[i - shut + 2..end - shut] == buf[i + 2..end];
    }
  }

  lemma EndIsInside(buf: Text, shut: nat, i: nat, end: nat)
    requires IsFirst(buf, LT, shut, end) && IsLast(buf, COMMA, shut, end, i)
    ensures shut <= i < end < |buf|
  {}

  /** The '<' at end is no comma, so it does not matter whether it is searched. */
  lemma LastBeforeLast(buf: Text, shut: nat, end: nat, i: nat)
    requires IsFirst(buf, LT, shut, end)
    ensures IsLast(buf, COMMA, shut, end, i) <==> IsLast(buf, COMMA, shut, end + 1, i)
  {
    if shut <= i < end {
      assert buf[i + 1..end + 1] == buf[i + 1..end] + [LT];
    }
  }

  lemma IntIs(digits: Text)
    requires digits != [] && AllDigits(digits)
    ensures Atoi(digits) == if Value(digits) < INT_LIMIT then Some(Value(digits)) else None
  {}

  /** The mark that the buffer describes is the one that is found. */
  lemma FoundIsReturned(buf: Text, at: Layout, f: Found)
    requires IsFound(buf, at, f)
    ensures GetMark(buf) == Success(f)
  {
    hide PercentFrom, GetSubjectName, GetTeacherName, Atoi, Value, AllDigits, PercentAt, IsFirst, IsTeacher, DigitsEnd;
    var n := at.digits;
    PercentIs(buf, at.percent, n);
    IntIs(buf[at.percent + 2..n]);
    SubjectAt(buf, n, at.open, at.shut);
    OpenIsInside(buf, n, at.open);
    OpenIsInside(buf, at.open + 2, at.shut);
    TeacherReturned(buf, at.shut, f.mark.teacher, f.n);
  }

  lemma TeacherReturned(buf: Text, shut: nat, teacher: Text, n: nat)
    requires shut < |buf| && buf[shut] == COMMA
    ensures LT !in buf[shut..] ==> GetTeacherName(buf[shut..]) == Missing
    ensures LT in buf[shut..] && (exists i :: 0 <= i < |buf| && IsTeacher(buf, shut, i, n, teacher)) ==>
              GetTeacherName(buf[shut..]) == Piece(teacher, n - shut)
  {
    if LT in buf[shut..] {
      forall i | 0 <= i < |buf| && IsTeacher(buf, shut, i, n, teacher)
        ensures GetTeacherName(buf[shut..]) == Piece(teacher, n - shut)
      {
        TeacherAt(buf, shut, i, n);
      }
    }
  }
  /** Where the delimiters of a mark that is returned are. */
  lemma ReturnedIsFound(buf: Text) returns (at: Layout)
    requires GetMark(buf).Success?
    ensures IsFound(buf, at, GetMark(buf).value)
  {
    hide PercentFrom, GetSubjectName, GetTeacherName, Atoi, Value, AllDigits, PercentAt, IsFirst, IsTeacher,
      IsPercent, DigitsEnd;
    var (i, n) := PercentFrom(buf, 0).value;
    PercentIs(buf, i, n);
    PercentIsInside(buf, i, n);
    IntIs(buf[i + 2..n]);
    var open, shut := SubjectIs(buf, n);
    OpenIsInside(buf, n, open);
    OpenIsInside(buf, open + 2, shut);
    at := Layout(i, n, open, shut);
    var c, end := TeacherIs(buf, shut);
    TeacherIsInside(buf, shut, c, end);
    assert GetTeacherName(buf[shut..]).Missing? <==> LT !in buf[shut..] by {
      TeacherMissing(buf, shut, c, end);
    }
  }

  lemma PercentIsInside(buf: Text, i: nat, n: nat)
    requires IsPercent(buf, i, n)
    ensures i + 3 <= n <= |buf| && AllDigits(buf[i + 2..n])
  {}

  lemma TeacherIsInside(buf: Text, shut: nat, i: nat, end: nat)
    ensures forall teacher :: IsTeacher(buf, shut, i, end, teacher) ==> i < |buf|
  {}

  lemma TeacherMissing(buf: Text, shut: nat, i: nat, end: nat)
    requires shut < |buf| && buf[shut] == COMMA
    ensures GetTeacherName(buf[shut..]).Missing? <==> LT !in buf[shut..]
  {
    hide LastIndexByte;
    assert buf[shut..][0] == COMMA;
  }

  /** The extraction panics exactly on an overrun. */
  lemma OverrunPanics(buf: Text)
    ensures GetMark(buf) == Failure(Panic) <==> Overruns(buf)
  {
    if GetMark(buf) == Failure(Panic) {
      PanicIsOverrun(buf);
    }
    if Overruns(buf) {
      OverrunIsPanic(buf);
    }
  }

  lemma PanicIsOverrun(buf: Text)
    requires GetMark(buf) == Failure(Panic)
    ensures Overruns(buf)
  {
    hide PercentFrom, GetSubjectName, GetTeacherName, Atoi, Value, AllDigits, PercentAt, IsFirst, TeacherOverruns,
      IsPercent, DigitsEnd;
    var (i, n) := PercentFrom(buf, 0).value;
    PercentIs(buf, i, n);
    PercentIsInside(buf, i, n);
    IntIs(buf[i + 2..n]);
    var open, shut := SubjectIs(buf, n);
    if GetSubjectName(buf[n..]).Piece? {
      OpenIsInside(buf, n, open);
      OpenIsInside(buf, open + 2, shut);
      var c, end := TeacherIs(buf, shut);
      assert IsLayout(buf, Layout(i, n, open, shut));
    } else {
      assert SubjectOverruns(buf, i, n, open);
    }
  }

  lemma EarlyOverrun(buf: Text, i: nat, n: nat, open: nat)
    requires SubjectOverruns(buf, i, n, open)
    ensures GetMark(buf) == Failure(Panic)
  {
    hide PercentFrom, GetSubjectName, GetTeacherName, Atoi, Value, AllDigits, PercentAt, IsFirst, DigitsEnd;
    PercentIs(buf, i, n);
    IntIs(buf[i + 2..n]);
    SubjectAt(buf, n, open, 0);
  }

  lemma LateOverrun(buf: Text, at: Layout, i: nat, end: nat)
    requires IsLayout(buf, at) && TeacherOverruns(buf, at.shut, i, end)
    ensures GetMark(buf) == Failure(Panic)
  {
    hide PercentFrom, GetSubjectName, GetTeacherName, Atoi, Value, AllDigits, PercentAt, IsFirst, IsLast, DigitsEnd;
    var n := at.digits;
    PercentIs(buf, at.percent, n);
    IntIs(buf[at.percent + 2..n]);
    SubjectAt(buf, n, at.open, at.shut);
    OpenIsInside(buf, n, at.open);
    OpenIsInside(buf, at.open + 2, at.shut);
    TeacherAt(buf, at.shut, i, end);
  }

  lemma OverrunIsPanic(buf: Text)
    requires Overruns(buf)
    ensures GetMark(buf) == Failure(Panic)
  {
    hide PercentFrom, GetSubjectName, GetTeacherName, Atoi, Value, AllDigits, PercentAt, IsFirst, IsPercent,
      DigitsEnd, IsLayout,
      SubjectOverruns, TeacherOverruns;
    if at: Layout, i: nat, end: nat :| IsLayout(buf, at) && TeacherOverruns(buf, at.shut, i, end) {
      LateOverrun(buf, at, i, end);
    } else {
      var i: nat, n: nat, open: nat :| SubjectOverruns(buf, i, n, open);
      EarlyOverrun(buf, i, n, open);
    }
  }

  /** What GetMarkFromRender returns, read off the buffer. */
  lemma GetMarkMeans(buf: Text)
    ensures forall f :: GetMark(buf) == Success(f) <==> exists at :: IsFound(buf, at, f)
    ensures GetMark(buf) == Failure(NotFound) <==> forall i: nat :: !PercentAt(buf, i)
    ensures GetMark(buf) == Failure(Panic) <==> Overruns(buf)
    ensures GetMark(buf).Failure? ==> GetMark(buf).error in {NotFound, Panic, Internal}
  {
    OverrunPanics(buf);
    OnlyNotFound(buf);
    hide GetMark, Overruns, IsFound, PercentAt;
    if GetMark(buf).Success? {
      var at := ReturnedIsFound(buf);
    }
    forall f, at | IsFound(buf, at, f) ensures GetMark(buf) == Success(f) {
      FoundIsReturned(buf, at, f);
    }
  }

  lemma OnlyNotFound(buf: Text)
    ensures GetMark(buf) == Failure(NotFound) <==> forall i: nat :: !PercentAt(buf, i)
    ensures GetMark(buf).Failure? ==> GetMark(buf).error in {NotFound, Panic, Internal}
  {
    hide GetSubjectName, GetTeacherName, Atoi, PercentAt, DigitsEnd;
  }

  /**
   A mark is returned exactly when the buffer describes it, with its fields and the end of its
   teacher; ENOTFOUND exactly when there is no percentage; a panic exactly on an overrun.
   */
  method GetMarkFromRender(buf: Text) returns (r: Result<Found>)
    ensures r == GetMark(buf)
    ensures forall f :: r == Success(f) <==> exists at :: IsFound(buf, at, f)
    ensures r == Failure(NotFound) <==> forall i: nat :: !PercentAt(buf, i)
    ensures r == Failure(Panic) <==> Overruns(buf)
    ensures r.Failure? ==> r.error in {NotFound, Panic, Internal}
  {
    hide PercentFrom, GetSubjectName, GetTeacherName, Atoi, IsFound, Overruns, PercentAt;
    GetMarkMeans(buf);
    var mark := ScannedMark(0, [], []);
    var n := 0;
    var res := PercentFrom(buf, 0);
    if res.None? {
      return Failure(NotFound);
    }
    var percentage := Atoi(buf[res.value.0 + 2..res.value.1]);
    if percentage.None? {
      return Failure(Internal);
    }
    mark := mark.(percentage := percentage.value);
    n := n + res.value.1;

    var subject := GetSubjectName(buf[n..]);
    if !subject.Piece? {
      return Failure(if subject.Missing? then Internal else Panic);
    }
    mark := mark.(subject := subject.text);
    n := n + subject.end;

    var teacher := GetTeacherName(buf[n..]);
    if teacher.OutOfRange? {
      return Failure(Panic);
    }
    mark := mark.(teacher := if teacher.Piece? then teacher.text else []);
    n := if teacher.Piece? then n + teacher.end else n - 1;
    return Success(Found(mark, n));
  }

  /** The marks found from here on; "no percentage left" is the end of the render. */
  function ScanRest(buf: Text): Result<seq<ScannedMark>>
    decreases |buf|
  {
    match GetMark(buf)
    case Failure(e) => if e == NotFound then Success([]) else Failure(e)
    case Success(Found(mark, n)) =>
      var rest :- ScanRest(buf[n..]);
      Success([mark] + rest)
  }

  /** As ScanRest, but the render must hold at least one mark. */
  function Scan(buf: Text): Result<seq<ScannedMark>> {
    if GetMark(buf).Failure? then Failure(GetMark(buf).error) else ScanRest(buf)
  }

  /** The scan loop of findMarksByFullPeriodEngage. */
  method ScanMarks(buf: Text) returns (r: Result<seq<ScannedMark>>)
    ensures r == Scan(buf)
  {
    hide GetMark, ScanRest;
    var bufResp: Text, out: seq<ScannedMark> := buf, [];
    var first := GetMarkFromRender(bufResp);
    if first.Failure? {
      return Failure(first.error);
    }
    ScanRestUnfolds(buf);
    out := out + [first.value.mark];
    assert out == [first.value.mark];
    bufResp := bufResp[first.value.n..];
    while true
      invariant Scan(buf) == Prepend(out, ScanRest(bufResp))
      decreases |bufResp|
    {
      ScanRestUnfolds(bufResp);
      var next := GetMarkFromRender(bufResp);
      if next.Failure? {
        assert out + [] == out;
        if next.error == NotFound {
          return Success(out);
        }
        return Failure(next.error);
      }
      PrependOne(out, next.value.mark, ScanRest(bufResp[next.value.n..]));
      out := out + [next.value.mark];
      bufResp := bufResp[next.value.n..];
    }
  }

  lemma ScanRestUnfolds(buf: Text)
    ensures GetMark(buf).Success? ==>
              ScanRest(buf) == Prepend([GetMark(buf).value.mark], ScanRest(buf[GetMark(buf).value.n..]))
    ensures GetMark(buf).Success? ==> Scan(buf) == ScanRest(buf)
    ensures GetMark(buf).Failure? ==>
              ScanRest(buf) == if GetMark(buf).error == NotFound then Success([]) else Failure(GetMark(buf).error)
  {}

  /** Once a mark has been found, ENOTFOUND only ends the loop. */
  lemma {:induction false} RestIsNotNotFound(buf: Text)
    ensures ScanRest(buf) != Failure(NotFound)
    decreases |buf|
  {
    hide GetMark;
    if GetMark(buf).Success? {
      RestIsNotNotFound(buf[GetMark(buf).value.n..]);
    }
  }

  /** The scan reports ENOTFOUND exactly for a buffer without a percentage. */
  lemma NothingToScan(buf: Text)
    ensures Scan(buf) == Failure(NotFound) <==> forall i: nat :: !PercentAt(buf, i)
  {
    hide GetMark, PercentAt;
    OnlyNotFound(buf);
    RestIsNotNotFound(buf);
  }

  // ----- what the loop means, call by call -----

  /** Successive calls read marks off buf, and rest is left. */
  ghost predicate IsChain(buf: Text, marks: seq<ScannedMark>, rest: Text)
    decreases |marks|
  {
    if marks == [] then rest == buf
    else
      var r := GetMark(buf);
      r.Success? && r.value.mark == marks[0] && IsChain(buf[r.value.n..], marks[1..], rest)
  }

  lemma {:induction false} RestOfChain(buf: Text, marks: seq<ScannedMark>, rest: Text)
    requires IsChain(buf, marks, rest) && GetMark(rest).Failure?
    ensures ScanRest(buf) == if GetMark(rest).error == NotFound then Success(marks) else Failure(GetMark(rest).error)
    decreases |marks|
  {
    hide GetMark;
    if marks != [] {
      RestOfChain(buf[GetMark(buf).value.n..], marks[1..], rest);
      assert marks == [marks[0]] + marks[1..];
    }
  }

  /**
   The loop collects the marks of the calls that succeed, up to the first that fails: ENOTFOUND ends it, unless
   it comes first, and any other error is returned in place of the marks.
   */
  lemma ScanOfChain(buf: Text, marks: seq<ScannedMark>, rest: Text)
    requires IsChain(buf, marks, rest) && GetMark(rest).Failure?
    ensures Scan(buf) == if GetMark(rest).error == NotFound && marks != [] then Success(marks)
                         else Failure(GetMark(rest).error)
  {
    RestOfChain(buf, marks, rest);
    hide GetMark;
  }

  /** Every buffer has such a chain. */
  lemma {:induction false} ChainExists(buf: Text) returns (marks: seq<ScannedMark>, rest: Text)
    ensures IsChain(buf, marks, rest) && GetMark(rest).Failure?
    decreases |buf|
  {
    if GetMark(buf).Failure? {
      marks, rest := [], buf;
    } else {
      var f := GetMark(buf).value;
      hide GetMark;
      var more, last := ChainExists(buf[f.n..]);
      marks, rest := [f.mark] + more, last;
      assert marks[1..] == more;
    }
  }

  function Prepend(out: seq<ScannedMark>, r: Result<seq<ScannedMark>>): Result<seq<ScannedMark>> {
    if r.Failure? then r else Success(out + r.value)
  }

  lemma PrependOne(out: seq<ScannedMark>, mark: ScannedMark, r: Result<seq<ScannedMark>>)
    ensures Prepend(out, Prepend([mark], r)) == Prepend(out + [mark], r)
  {
    if r.Success? {
      assert out + ([mark] + r.value) == (out + [mark]) + r.value;
    }
  }

  // ----- printing -----

  /** A mark as it stands in a render, with the text around its three fields. */
  datatype Cell = Cell(
    pre: Text,            // before the percentage
    mark: ScannedMark,
    gap: Text,            // between the percentage and the first comma
    sep: Byte,            // after the first comma
    filler: Text,         // after the subject's comma: empty, or ending in a comma
    space: Byte)           // before the teacher

  predicate IsCell(c: Cell) {
    && (forall i :: 0 <= i < |c.pre| ==> !PercentAt(c.pre, i))
    && c.mark.percentage < INT_LIMIT
    && COMMA !in c.gap && (c.gap != [] ==> c.gap[0] < 48 || 57 < c.gap[0])
    && COMMA !in c.mark.subject
    && LT !in c.filler && (c.filler != [] ==> c.filler[|c.filler| - 1] == COMMA)
    && c.space != COMMA && c.space != LT
    && COMMA !in c.mark.teacher && LT !in c.mark.teacher
  }

  /** From the subject's closing comma to the '<' that ends the cell. */
  function TeacherPart(c: Cell): Text {
    [COMMA] + c.filler + [c.space] + c.mark.teacher + [LT]
  }

  /** From the end of the percentage on. */
  function NamesPart(c: Cell): Text {
    c.gap + [COMMA] + ([c.sep] + c.mark.subject) + TeacherPart(c)
  }

  function Print(c: Cell): Text {
    c.pre + MARKER + Itoa(c.mark.percentage) + NamesPart(c)
  }

  function PrintAll(cells: seq<Cell>, tail: Text): Text {
    if cells == [] then tail else Print(cells[0]) + PrintAll(cells[1..], tail)
  }

  function Marks(cells: seq<Cell>): seq<ScannedMark> {
    if cells == [] then [] else [cells[0].mark] + Marks(cells[1..])
  }

  lemma TeacherOfCell(c: Cell, rest: Text)
    requires IsCell(c)
    ensures GetTeacherName(TeacherPart(c) + rest) == Piece(c.mark.teacher, |TeacherPart(c)| - 1)
  {
    var front := ([COMMA] + c.filler)[..|c.filler|];
    PartOfTeacher(c, front, rest);
    hide *;
    TeacherBetween(front, c.space, c.mark.teacher, rest);
  }

  lemma PartOfTeacher(c: Cell, front: Text, rest: Text)
    requires IsCell(c) && front == ([COMMA] + c.filler)[..|c.filler|]
    ensures LT !in front && c.space != LT && c.space != COMMA && LT !in c.mark.teacher && COMMA !in c.mark.teacher
    ensures TeacherPart(c) + rest == front + [COMMA] + ([c.space] + c.mark.teacher) + [LT] + rest
    ensures |TeacherPart(c)| - 1 == |front| + 2 + |c.mark.teacher|
  {
    assert [COMMA] + c.filler == front + [COMMA];
  }

  lemma TeacherBetween(front: Text, sep: Byte, teacher: Text, rest: Text)
    requires LT !in front && sep != LT && sep != COMMA && LT !in teacher && COMMA !in teacher
    ensures GetTeacherName(front + [COMMA] + ([sep] + teacher) + [LT] + rest) == Piece(teacher, |front| + 2 + |teacher|)
  {
    hide IndexByte, LastIndexByte;
    var a := front + [COMMA] + ([sep] + teacher);
    var buf := a + [LT] + rest;
    IndexOf(a, LT, rest);
    assert buf[..|a| + 1] == front + [COMMA] + ([sep] + teacher + [LT]);
    LastIndexOf(front, COMMA, [sep] + teacher + [LT]);
    assert buf[|front| + 2..|a|] == teacher;
  }

  lemma SubjectOfCell(c: Cell, rest: Text)
    requires IsCell(c)
    ensures var x := |c.gap| + 2 + |c.mark.subject|;
            && GetSubjectName(NamesPart(c) + rest) == Piece(c.mark.subject, x)
            && (NamesPart(c) + rest)[x..] == TeacherPart(c) + rest
  {
    hide *;
    var after := c.filler + [c.space] + c.mark.teacher + [LT];
    NamesOfCell(c, after);
    SubjectBetween(c.gap, c.sep, c.mark.subject, after + rest);
    Names(c.gap, [COMMA], [c.sep], c.mark.subject, after, rest);
  }

  lemma NamesOfCell(c: Cell, after: Text)
    requires IsCell(c) && after == c.filler + [c.space] + c.mark.teacher + [LT]
    ensures COMMA !in c.gap && COMMA !in c.mark.subject
    ensures TeacherPart(c) == [COMMA] + after
    ensures NamesPart(c) == c.gap + [COMMA] + ([c.sep] + c.mark.subject) + TeacherPart(c)
  {}

  lemma Names(gap: Text, comma: Text, sep: Text, subject: Text, after: Text, rest: Text)
    ensures gap + comma + (sep + subject) + (comma + after) + rest
              == gap + comma + sep + subject + comma + (after + rest)
    ensures comma + after + rest == comma + (after + rest)
  {}

  lemma SubjectBetween(gap: Text, sep: Byte, subject: Text, rest: Text)
    requires COMMA !in gap && COMMA !in subject
    ensures var buf := gap + [COMMA] + [sep] + subject + [COMMA] + rest;
            var x := |gap| + 2 + |subject|;
            GetSubjectName(buf) == Piece(subject, x) && buf[x..] == [COMMA] + rest
  {
    hide IndexByte;
    var buf := gap + [COMMA] + [sep] + subject + [COMMA] + rest;
    var tail := [sep] + subject + [COMMA] + rest;
    assert buf == gap + [COMMA] + tail;
    IndexOf(gap, COMMA, tail);
    assert buf[|gap| + 2..] == subject + [COMMA] + rest;
    IndexOf(subject, COMMA, rest);
    Middle(gap + [COMMA] + [sep], subject, [COMMA] + rest);
    assert buf == gap + [COMMA] + [sep] + subject + ([COMMA] + rest);
  }

  const MARKER: Text := [BACKSLASH, LOWER_T]

  lemma PercentBetween(lead: Text, digits: Text, rest: Text)
    requires forall i :: 0 <= i < |lead| ==> !PercentAt(lead, i)
    requires digits != [] && AllDigits(digits) && rest != [] && !IsDigit(rest[0])
    ensures var buf := lead + MARKER + digits + rest;
            var n := |lead| + 2 + |digits|;
            PercentFrom(buf, 0) == Some((|lead|, n)) && buf[|lead| + 2..n] == digits && buf[n..] == rest
  {
    hide DigitsEnd;
    var buf := lead + MARKER + digits + rest;
    var i, n := |lead|, |lead| + 2 + |digits|;
    Middle(lead + MARKER, digits, rest);
    assert PercentAt(buf, i);
    forall m | 0 <= m < i ensures !PercentAt(buf, m) {
      assert !PercentAt(lead, m);
    }
    DigitsEndAt(buf, i + 2, n);
    hide PercentFrom;
    var r := PercentFrom(buf, 0);
    assert r.Some?;
    assert !(r.value.0 < i) && !(i < r.value.0);
  }

  /** One call on a printed cell, after any text lead without a percentage, reads the cell and stops at its '<'. */
  lemma MarkOfCell(lead: Text, c: Cell, rest: Text)
    requires IsCell(c) && forall i :: 0 <= i < |lead| ==> !PercentAt(lead, i)
    ensures var d := Itoa(c.mark.percentage);
            GetMark(lead + MARKER + d + (NamesPart(c) + rest))
                == Success(Found(c.mark, |lead| + 2 + |d| + |NamesPart(c)| - 1))
  {
    hide *;
    var d, names := Itoa(c.mark.percentage), NamesPart(c) + rest;
    var x, y := |c.gap| + 2 + |c.mark.subject|, |TeacherPart(c)| - 1;
    NamesStart(c);
    NamesLength(c);
    AtoiInvertsItoa(c.mark.percentage);
    SubjectOfCell(c, rest);
    TeacherOfCell(c, rest);
    MarkOfPieces(lead, d, names, c.mark, x, y);
  }

  /** One call, from what it finds in the pieces of its buffer. */
  lemma MarkOfPieces(lead: Text, d: Text, names: Text, mark: ScannedMark, x: nat, y: nat)
    requires forall i :: 0 <= i < |lead| ==> !PercentAt(lead, i)
    requires d != [] && AllDigits(d) && Atoi(d) == Some(mark.percentage) && names != [] && !IsDigit(names[0])
    requires GetSubjectName(names) == Piece(mark.subject, x) && x <= |names|
    requires GetTeacherName(names[x..]) == Piece(mark.teacher, y)
    ensures GetMark(lead + MARKER + d + names) == Success(Found(mark, |lead| + 2 + |d| + x + y))
  {
    hide *;
    PercentBetween(lead, d, names);
    MarkInBuffer(lead + MARKER + d + names, |lead|, d, names, mark, x, y);
  }

  lemma MarkInBuffer(buf: Text, i: nat, d: Text, names: Text, mark: ScannedMark, x: nat, y: nat)
    requires PercentFrom(buf, 0) == Some((i, i + 2 + |d|)) && i + 2 + |d| + |names| == |buf|
    requires buf[i + 2..i + 2 + |d|] == d && buf[i + 2 + |d|..] == names && Atoi(d) == Some(mark.percentage)
    requires GetSubjectName(names) == Piece(mark.subject, x) && x <= |names|
    requires GetTeacherName(names[x..]) == Piece(mark.teacher, y)
    ensures GetMark(buf) == Success(Found(mark, i + 2 + |d| + x + y))
  {
    hide *;
    var n := i + 2 + |d|;
    DropTwice(buf, n, x);
    GetMarkIs(buf, i, n, mark, x, y);
  }

  lemma DropTwice(buf: Text, n: nat, x: nat)
    requires n + x <= |buf|
    ensures buf[n..][x..] == buf[n + x..]
  {}

  lemma GetMarkIs(buf: Text, i: nat, n: nat, mark: ScannedMark, x: nat, y: nat)
    requires PercentFrom(buf, 0) == Some((i, n)) && i + 2 <= n <= |buf|
    requires Atoi(buf[i + 2..n]) == Some(mark.percentage)
    requires GetSubjectName(buf[n..]) == Piece(mark.subject, x) && n + x <= |buf|
    requires GetTeacherName(buf[n + x..]) == Piece(mark.teacher, y)
    ensures GetMark(buf) == Success(Found(mark, n + x + y))
  {
    hide PercentFrom, PercentAt, Atoi, GetSubjectName, GetTeacherName, DigitsEnd, AllDigits, IndexByte, LastIndexByte,
      Value;
  }

  lemma NamesStart(c: Cell)
    requires IsCell(c)
    ensures NamesPart(c) != [] && !IsDigit(NamesPart(c)[0]) && c.mark.percentage <= 9223372036854775807
  {
    assert NamesPart(c)[0] == (c.gap + [COMMA])[0];
  }

  lemma NamesLength(c: Cell)
    ensures |NamesPart(c)| == |c.gap| + 2 + |c.mark.subject| + |TeacherPart(c)|
  {}

  /** One mark, byte by byte: `\t85, Maths, Mr B<`. */
  lemma OneMarkIsRead()
    ensures GetMark([92, 116, 56, 53, 44, 32, 77, 97, 116, 104, 115, 44, 32, 77, 114, 32, 66, 60])
            == Success(Found(ScannedMark(85, [77, 97, 116, 104, 115], [77, 114, 32, 66]), 17))
  {
    hide *;
    var buf: Text := [92, 116, 56, 53, 44, 32, 77, 97, 116, 104, 115, 44, 32, 77, 114, 32, 66, 60];
    var maths: Text, mrB: Text := [77, 97, 116, 104, 115], [77, 114, 32, 66];
    var c := Cell([], ScannedMark(85, maths, mrB), [], 32, [], 32);
    PrintedMaths(c, maths, mrB);
    EightyFive();
    MarkBytes(buf, maths, mrB);
    MarkOfBytes(buf, c, [56, 53], [44, 32] + maths + [44, 32] + mrB + [60]);
  }

  /** A buffer that holds a printed cell and nothing else. */
  lemma MarkOfBytes(buf: Text, c: Cell, d: Text, names: Text)
    requires IsCell(c) && d == Itoa(c.mark.percentage) && names == NamesPart(c) && buf == MARKER + d + names
    ensures |names| > 0 && GetMark(buf) == Success(Found(c.mark, 2 + |d| + |names| - 1))
  {
    hide *;
    NamesStart(c);
    NothingBefore(d, names);
    MarkOfCell([], c, []);
  }

  lemma NothingBefore(d: Text, names: Text)
    ensures [] + MARKER + d + (names + []) == MARKER + d + names
  {}

  lemma EightyFive()
    ensures Itoa(85) == [56, 53]
  {
    DecimalDigits(0, 8, 5);
  }

  lemma PrintedMaths(c: Cell, maths: Text, mrB: Text)
    requires maths == [77, 97, 116, 104, 115] && mrB == [77, 114, 32, 66]
    requires c == Cell([], ScannedMark(85, maths, mrB), [], 32, [], 32)
    ensures IsCell(c) && NamesPart(c) == [44, 32] + maths + [44, 32] + mrB + [60] && |NamesPart(c)| == 14
  {
    hide Bytes.AllDigits, Bytes.Value;
  }

  lemma MarkBytes(buf: Text, maths: Text, mrB: Text)
    requires buf == [92, 116, 56, 53, 44, 32, 77, 97, 116, 104, 115, 44, 32, 77, 114, 32, 66, 60]
    requires maths == [77, 97, 116, 104, 115] && mrB == [77, 114, 32, 66]
    ensures buf == MARKER + [56, 53] + ([44, 32] + maths + [44, 32] + mrB + [60])
  {}

  /** Scanning a printed list of cells, behind any lead without a percentage, gives back its marks. */
  lemma {:induction false} ScanRestInvertsPrinting(lead: Text, cells: seq<Cell>, tail: Text)
    requires |lead| <= 1 && (lead != [] ==> lead[0] == LT)
    requires forall k :: 0 <= k < |cells| ==> IsCell(cells[k])
    requires forall i :: 0 <= i < |tail| ==> !PercentAt(tail, i)
    ensures ScanRest(lead + PrintAll(cells, tail)) == Success(Marks(cells))
    decreases |cells|
  {
    hide *;
    var buf := lead + PrintAll(cells, tail);
    if cells == [] {
      NothingLeft(lead, tail);
    } else {
      var c, rest := cells[0], PrintAll(cells[1..], tail);
      PrintAllUnfolds(cells, tail);
      NoPercentBefore(lead, c);
      CellInFront(lead, c, rest);
      MarkOfCell(lead + c.pre, c, rest);
      ScanRestInvertsPrinting([LT], cells[1..], tail);
      ScanRestStep(buf, GetMark(buf).value, Marks(cells[1..]));
    }
  }

  lemma ScanRestStep(buf: Text, f: Found, rest: seq<ScannedMark>)
    requires GetMark(buf) == Success(f) && f.n <= |buf| && ScanRest(buf[f.n..]) == Success(rest)
    ensures ScanRest(buf) == Success([f.mark] + rest)
  {
    hide GetMark;
  }

  lemma NothingLeft(lead: Text, tail: Text)
    requires |lead| <= 1 && (lead != [] ==> lead[0] == LT)
    requires forall i :: 0 <= i < |tail| ==> !PercentAt(tail, i)
    ensures ScanRest(lead + PrintAll([], tail)) == Success(Marks([]))
  {
    NoPercentIn(lead, tail);
    hide PercentAt, GetMark, Itoa, AllDigits, Value;
    NoMarkIn(lead + tail);
  }

  lemma NoPercentIn(lead: Text, tail: Text)
    requires |lead| <= 1 && (lead != [] ==> lead[0] == LT)
    requires forall i :: 0 <= i < |tail| ==> !PercentAt(tail, i)
    ensures forall i :: 0 <= i < |lead + tail| ==> !PercentAt(lead + tail, i)
  {
    forall i | 0 <= i < |lead + tail| ensures !PercentAt(lead + tail, i) {
      if i >= |lead| {
        assert !PercentAt(tail, i - |lead|);
      }
    }
  }

  lemma NoPercentBefore(lead: Text, c: Cell)
    requires IsCell(c) && |lead| <= 1 && (lead != [] ==> lead[0] == LT)
    ensures forall i :: 0 <= i < |lead + c.pre| ==> !PercentAt(lead + c.pre, i)
  {
    NoPercentIn(lead, c.pre);
  }

  lemma PrintAllUnfolds(cells: seq<Cell>, tail: Text)
    requires cells != []
    ensures PrintAll(cells, tail) == Print(cells[0]) + PrintAll(cells[1..], tail)
    ensures Marks(cells) == [cells[0].mark] + Marks(cells[1..])
  {}

  lemma CellInFront(lead: Text, c: Cell, rest: Text)
    ensures var buf := lead + (Print(c) + rest);
            var n := |lead + c.pre| + 2 + |Itoa(c.mark.percentage)| + |NamesPart(c)| - 1;
            && buf == lead + c.pre + MARKER + Itoa(c.mark.percentage) + (NamesPart(c) + rest)
            && buf[n..] == [LT] + rest
  {
    var names := NamesPart(c);
    assert names[|names| - 1] == LT;
    hide NamesPart, Itoa;
    assert names == names[..|names| - 1] + [LT];
    Glue(lead, c.pre, MARKER, Itoa(c.mark.percentage), names, rest);
  }

  lemma Glue(lead: Text, pre: Text, m: Text, d: Text, names: Text, rest: Text)
    requires names != []
    ensures var buf := lead + (pre + m + d + names + rest);
            && buf == lead + pre + m + d + (names + rest)
            && buf[|lead + pre + m + d| + |names| - 1..] == [names[|names| - 1]] + rest
  {}

  /** The scan loop returns exactly the marks of a printed, non-empty list; of an empty one, NotFound. */
  lemma ScanInvertsPrinting(cells: seq<Cell>, tail: Text)
    requires forall k :: 0 <= k < |cells| ==> IsCell(cells[k])
    requires forall i :: 0 <= i < |tail| ==> !PercentAt(tail, i)
    ensures Scan(PrintAll(cells, tail)) == if cells == [] then Failure(NotFound) else Success(Marks(cells))
  {
    hide GetMark, IsCell;
    ScanRestInvertsPrinting([], cells, tail);
    assert [] + PrintAll(cells, tail) == PrintAll(cells, tail);
    if cells == [] {
      NoMarkIn(tail);
    } else {
      FirstMark(cells, tail);
    }
  }

  lemma NoMarkIn(tail: Text)
    requires forall i :: 0 <= i < |tail| ==> !PercentAt(tail, i)
    ensures GetMark(tail) == Failure(NotFound)
  {}

  lemma FirstMark(cells: seq<Cell>, tail: Text)
    requires cells != [] && IsCell(cells[0])
    ensures GetMark(PrintAll(cells, tail)).Success?
  {
    var c, rest := cells[0], PrintAll(cells[1..], tail);
    CellInFront([], c, rest);
    assert [] + (Print(c) + rest) == PrintAll(cells, tail);
    assert [] + c.pre == c.pre;
    CellHasPre(c);
    hide GetMark, Print, IsCell;
    MarkOfCell(c.pre, c, rest);
  }

  lemma CellHasPre(c: Cell)
    requires IsCell(c)
    ensures forall i :: 0 <= i < |c.pre| ==> !PercentAt(c.pre, i)
  {}
}
