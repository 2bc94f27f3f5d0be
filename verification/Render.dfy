/** Bytes, searches in them, and the parts of the bytes, strings and strconv packages the scanner uses. */
module Bytes {
  import opened Wrappers

  type Byte = b: nat | b < 256
  type Text = seq<Byte>

  const NEWLINE: Byte := 10
  const SPACE: Byte := 32
  const COMMA: Byte := 44
  const SLASH: Byte := 47
  const LT: Byte := 60      // <
  const GT: Byte := 62      // >
  const BACKSLASH: Byte := 92
  const LOWER_A: Byte := 97
  const LOWER_T: Byte := 116

  /** The least int that strconv.Atoi no longer accepts. */
  const INT_LIMIT := 0x8000_0000_0000_0000

  predicate IsDigit(b: Byte) {
    48 <= b <= 57
  }

  predicate AllDigits(s: Text) {
    forall i :: 0 <= i < |s| ==> IsDigit(s[i])
  }

  /** bytes.IndexByte */
  function IndexByte(buf: Text, b: Byte): (r: Option<nat>)
    ensures r.None? ==> b !in buf
    ensures r.Some? ==> r.value < |buf| && buf[r.value] == b && b !in buf[..r.value]
  {
    if buf == [] then None
    else if buf[0] == b then Some(0)
    else
      var rest := IndexByte(buf[1..], b);
      if rest.None? then None
      else
        assert buf[..rest.value + 1] == [buf[0]] + buf[1..][..rest.value];
        Some(rest.value + 1)
  }

  /** bytes.LastIndexByte */
  function LastIndexByte(buf: Text, b: Byte): (r: Option<nat>)
    ensures r.None? ==> b !in buf
    ensures r.Some? ==> r.value < |buf| && buf[r.value] == b && b !in buf[r.value + 1..]
  {
    if buf == [] then None
    else if buf[|buf| - 1] == b then Some(|buf| - 1)
    else
      var front := buf[..|buf| - 1];
      assert buf == front + [buf[|buf| - 1]];
      LastIndexByte(front, b)
  }

  lemma {:induction false} IndexOf(a: Text, b: Byte, rest: Text)
    requires b !in a
    ensures IndexByte(a + [b] + rest, b) == Some(|a|)
  {
    if a != [] {
      assert (a + [b] + rest)[1..] == a[1..] + [b] + rest;
      IndexOf(a[1..], b, rest);
    }
  }

  lemma {:induction false} LastIndexOf(a: Text, b: Byte, rest: Text)
    requires b !in rest
    ensures LastIndexByte(a + [b] + rest, b) == Some(|a|)
  {
    var buf := a + [b] + rest;
    if rest != [] {
      assert buf[|buf| - 1] == rest[|rest| - 1];
      assert buf[..|buf| - 1] == a + [b] + rest[..|rest| - 1];
      LastIndexOf(a, b, rest[..|rest| - 1]);
    }
  }

  // Reading a concatenation back.

  lemma Middle(a: Text, b: Text, c: Text)
    ensures (a + b + c)[|a|..|a| + |b|] == b && (a + b + c)[|a| + |b|..] == c
  {}

  /** strings.TrimLeft with an ASCII cutset */
  function TrimLeft(s: Text, cut: set<Byte>): (r: Text)
    ensures |r| <= |s| && r == s[|s| - |r|..]
    ensures forall i :: 0 <= i < |s| - |r| ==> s[i] in cut
    ensures r != [] ==> r[0] !in cut
  {
    if s == [] || s[0] !in cut then s else TrimLeft(s[1..], cut)
  }

  /** strings.TrimRight with an ASCII cutset */
  function TrimRight(s: Text, cut: set<Byte>): (r: Text)
    ensures |r| <= |s| && r == s[..|r|]
    ensures forall i :: |r| <= i < |s| ==> s[i] in cut
    ensures r != [] ==> r[|r| - 1] !in cut
  {
    if s == [] || s[|s| - 1] !in cut then s else TrimRight(s[..|s| - 1], cut)
  }

  /** The end of the run of digits that starts at i: what \d* matches greedily. */
  function DigitsEnd(buf: Text, i: nat): (j: nat)
    requires i <= |buf|
    ensures i <= j <= |buf| && AllDigits(buf[i..j])
    ensures j < |buf| ==> !IsDigit(buf[j])
    decreases |buf| - i
  {
    if i == |buf| || !IsDigit(buf[i]) then i
    else
      var j := DigitsEnd(buf, i + 1);
      assert buf[i..j] == [buf[i]] + buf[i + 1..j];
      j
  }

  lemma {:induction false} DigitsEndAt(buf: Text, i: nat, j: nat)
    requires i <= j <= |buf| && AllDigits(buf[i..j]) && (j < |buf| ==> !IsDigit(buf[j]))
    ensures DigitsEnd(buf, i) == j
    decreases j - i
  {
    if i < j {
      assert buf[i..j][0] == buf[i];
      assert buf[i + 1..j] == buf[i..j][1..];
      DigitsEndAt(buf, i + 1, j);
    }
  }

  function Value(s: Text): nat
    requires AllDigits(s)
  {
    if s == [] then 0 else 10 * Value(s[..|s| - 1]) + (s[|s| - 1] - 48)
  }

  /** strconv.Atoi, on texts without a sign. */
  function Atoi(s: Text): Option<nat> {
    if s == [] || !AllDigits(s) || Value(s) >= INT_LIMIT then None else Some(Value(s))
  }

  /** strconv.Itoa */
  function Itoa(n: nat): (s: Text)
    ensures s != [] && AllDigits(s)
  {
    if n < 10 then [48 + n] else Itoa(n / 10) + [48 + n % 10]
  }

  lemma {:induction false} AtoiInvertsItoa(n: nat)
    ensures Value(Itoa(n)) == n
    ensures Atoi(Itoa(n)) == if n <= 9223372036854775807 then Some(n) else None
  {
    if n >= 10 {
      AtoiInvertsItoa(n / 10);
      assert Itoa(n)[..|Itoa(n)| - 1] == Itoa(n / 10);
    }
  }

  /** The ten digits, and how longer numbers are printed with them. */
  lemma DecimalDigits(b: Byte, n: nat, d: nat)
    requires d < 10
    ensures Itoa(0) == [48] && Itoa(1) == [49] && Itoa(2) == [50] && Itoa(3) == [51] && Itoa(4) == [52]
    ensures Itoa(5) == [53] && Itoa(6) == [54] && Itoa(7) == [55] && Itoa(8) == [56] && Itoa(9) == [57]
    ensures n > 0 ==> Itoa(10 * n + d) == Itoa(n) + Itoa(d)
    ensures IsDigit(b) <==> exists k :: 0 <= k < 10 && Itoa(k) == [b]
  {
    if IsDigit(b) {
      var k: nat := b - 48;
      assert Itoa(k) == [b];
    }
    forall k: nat | k < 10 && Itoa(k) == [b] ensures IsDigit(b) {
      assert Itoa(k)[0] == b;
    }
  }
}

/** NameFromRender and CurrentYearFromRender of engage.go, and their use on one buffer. */
module Render {
  import opened Wrappers
  import opened Bytes

  const OPEN_TAG: Text := [LT, LOWER_A, GT]
  const CLOSE_TAG: Text := [LT, SLASH, LOWER_A, GT]
  const OPEN_CUTSET: set<Byte> := {LT, LOWER_A, GT}
  const CLOSE_CUTSET: set<Byte> := {LT, SLASH, LOWER_A, GT}

  // ----- nameRegexp -----

  predicate OpenAt(buf: Text, i: nat) {
    i + 3 <= |buf| && buf[i] == LT && buf[i + 1] == LOWER_A && buf[i + 2] == GT
  }

  predicate CloseAt(buf: Text, i: nat) {
    i + 4 <= |buf| && buf[i] == LT && buf[i + 1] == SLASH && buf[i + 2] == LOWER_A && buf[i + 3] == GT
  }

  predicate OneLine(buf: Text, i: nat, j: nat)
    requires j <= |buf|
  {
    forall k :: i <= k < j ==> buf[k] != NEWLINE
  }

  /** `<a>(.*?)<\/a>` can match buf[i..j]; the dot does not match a line break. */
  predicate NameMatch(buf: Text, i: nat, j: nat) {
    i + 7 <= j <= |buf| && OpenAt(buf, i) && CloseAt(buf, j - 4) && OneLine(buf, i + 3, j - 4)
  }

  /** The end of the first closing tag at or after k with no line break before it. */
  function CloseFrom(buf: Text, k: nat): (r: Option<nat>)
    requires k <= |buf|
    ensures r.Some? ==> k + 4 <= r.value <= |buf| && CloseAt(buf, r.value - 4) && OneLine(buf, k, r.value - 4)
    ensures r.Some? ==> forall m :: k <= m < r.value - 4 ==> !CloseAt(buf, m)
    ensures r.None? ==> forall m :: k <= m <= |buf| && OneLine(buf, k, m) ==> !CloseAt(buf, m)
    decreases |buf| - k
  {
    if CloseAt(buf, k) then Some(k + 4)
    else if k == |buf| || buf[k] == NEWLINE then None
    else CloseFrom(buf, k + 1)
  }

  function NameFrom(buf: Text, i: nat): (r: Option<(nat, nat)>)
    requires i <= |buf|
    ensures r.Some? ==> i <= r.value.0 && NameMatch(buf, r.value.0, r.value.1)
    decreases |buf| - i
  {
    if OpenAt(buf, i) && CloseFrom(buf, i + 3).Some? then Some((i, CloseFrom(buf, i + 3).value))
    else if i == |buf| then None
    else NameFrom(buf, i + 1)
  }

  /** The search finds the leftmost match, and of those the shortest. */
  lemma {:induction false} NameFromIsLeftmostShortest(buf: Text, i: nat)
    requires i <= |buf|
    ensures var r := NameFrom(buf, i);
            (forall a: nat, b: nat :: i <= a && NameMatch(buf, a, b) ==>
                  r.Some? && (r.value.0 < a || (r.value.0 == a && r.value.1 <= b)))
    decreases |buf| - i
  {
    if OpenAt(buf, i) && CloseFrom(buf, i + 3).Some? {
      var c := CloseFrom(buf, i + 3).value;
      forall a: nat, b: nat | i <= a && NameMatch(buf, a, b) ensures i < a || (i == a && c <= b) {
        assert a == i ==> !(b - 4 < c - 4);
      }
    } else {
      forall b: nat ensures !NameMatch(buf, i, b) {}
      if i < |buf| {
        NameFromIsLeftmostShortest(buf, i + 1);
      }
    }
  }

  function TrimTags(s: Text): Text {
    TrimRight(TrimLeft(s, OPEN_CUTSET), CLOSE_CUTSET)
  }

  function NameFromRender(buf: Text): Result<(Text, nat)> {
    var r := NameFrom(buf, 0);
    if r.None? then Failure(NotFound)
    else Success((TrimTags(buf[r.value.0..r.value.1]), r.value.1))
  }

  // ----- yearRegexp -----

  const YEAR: Text := [89, 101, 97, 114]  // Year
  const YEAR_CUTSET: set<Byte> := {89, 101, 97, 114, SPACE}

  /** \s */
  predicate IsSpace(b: Byte) {
    b == 9 || b == 10 || b == 12 || b == 13 || b == 32
  }

  /** `Year\s\d+` can match at i. */
  predicate YearAt(buf: Text, i: nat) {
    && i + 6 <= |buf|
    && buf[i] == YEAR[0] && buf[i + 1] == YEAR[1] && buf[i + 2] == YEAR[2] && buf[i + 3] == YEAR[3]
    && IsSpace(buf[i + 4]) && IsDigit(buf[i + 5])
  }

  /** The next match at or after i; its digits are matched greedily. */
  function YearFrom(buf: Text, i: nat): (r: Option<(nat, nat)>)
    requires i <= |buf|
    ensures r.Some? ==> i <= r.value.0 && YearAt(buf, r.value.0) && r.value.1 == DigitsEnd(buf, r.value.0 + 5)
                        && r.value.0 + 6 <= r.value.1
    ensures r.Some? ==> forall m :: i <= m < r.value.0 ==> !YearAt(buf, m)
    ensures r.None? ==> forall m :: i <= m ==> !YearAt(buf, m)
    decreases |buf| - i
  {
    if YearAt(buf, i) then Some((i, DigitsEnd(buf, i + 5)))
    else if i == |buf| then None
    else YearFrom(buf, i + 1)
  }

  /** FindAllIndex: the successive non-overlapping matches from i on. */
  function YearsFrom(buf: Text, i: nat): (r: seq<(nat, nat)>)
    requires i <= |buf|
    ensures forall k :: 0 <= k < |r| ==> i <= r[k].0 && r[k].0 + 6 <= r[k].1 <= |buf|
    decreases |buf| - i
  {
    var r := YearFrom(buf, i);
    if r.None? then [] else [r.value] + YearsFrom(buf, r.value.1)
  }

  function CurrentYearFromRender(buf: Text): Result<(nat, nat)> {
    var all := YearsFrom(buf, 0);
    if all == [] then Failure(NotFound)
    else
      var last := all[|all| - 1];
      var year := Atoi(TrimLeft(buf[last.0..last.1], YEAR_CUTSET));
      if year.None? then Failure(Internal) else Success((year.value, last.1))
  }

  /** findStudentByPIDEngage, from the render on: the name and, for a pupil who attends, the year. */
  function StudentFromRender(buf: Text, attends: bool): Result<(Text, nat)> {
    var (name, x) :- NameFromRender(buf);
    if !attends then Success((name, 0))
    else
      var (year, _) :- CurrentYearFromRender(buf[x..]);
      Success((name, year))
  }

  // ----- what the name search returns -----

  /** pre holds no opening tag; name holds no closing tag and no line break. */
  predicate IsFirstName(pre: Text, name: Text) {
    && (forall i :: 0 <= i < |pre| ==> !OpenAt(pre, i))
    && (forall i :: 0 <= i < |name| ==> !CloseAt(name, i))
    && OneLine(name, 0, |name|)
  }

  lemma NameOfRender(pre: Text, name: Text, rest: Text)
    requires IsFirstName(pre, name)
    ensures NameFromRender(pre + OPEN_TAG + name + CLOSE_TAG + rest)
            == Success((TrimTags(OPEN_TAG + name + CLOSE_TAG), |pre| + |name| + 7))
  {
    var buf := pre + OPEN_TAG + name + CLOSE_TAG + rest;
    var i, j := |pre|, |pre| + |name| + 7;
    hide *;
    NameIsInside(pre, name, rest);
    NoMatchBefore(pre, name, rest);
    FirstMatchIsFound(buf, i, j);
  }

  lemma FirstMatchIsFound(buf: Text, i: nat, j: nat)
    requires i <= j <= |buf| && NameMatch(buf, i, j)
    requires forall a: nat, b: nat :: a < i ==> !NameMatch(buf, a, b)
    requires forall b: nat :: b < j ==> !NameMatch(buf, i, b)
    ensures NameFromRender(buf) == Success((TrimTags(buf[i..j]), j))
  {
    hide NameMatch, NameFrom, TrimTags;
    NameFromIsLeftmostShortest(buf, 0);
  }

  lemma NameIsInside(pre: Text, name: Text, rest: Text)
    requires IsFirstName(pre, name)
    ensures var buf := pre + OPEN_TAG + name + CLOSE_TAG + rest;
            var i, j := |pre|, |pre| + |name| + 7;
            i <= j <= |buf| && NameMatch(buf, i, j) && buf[i..j] == OPEN_TAG + name + CLOSE_TAG
  {
    var buf := pre + OPEN_TAG + name + CLOSE_TAG + rest;
    var i := |pre|;
    assert forall k :: i + 3 <= k < i + 3 + |name| ==> buf[k] == name[k - (i + 3)];
  }

  /** No match starts earlier, and none that starts here is shorter. */
  lemma NoMatchBefore(pre: Text, name: Text, rest: Text)
    requires IsFirstName(pre, name)
    ensures var buf := pre + OPEN_TAG + name + CLOSE_TAG + rest;
            && (forall a: nat, b: nat :: a < |pre| ==> !NameMatch(buf, a, b))
            && (forall b: nat :: b < |pre| + |name| + 7 ==> !NameMatch(buf, |pre|, b))
  {
    var buf := pre + OPEN_TAG + name + CLOSE_TAG + rest;
    var i := |pre|;
    forall a: nat | a < i ensures !OpenAt(buf, a) {
      assert !OpenAt(pre, a);
    }
    assert forall k :: 0 <= k < |name| ==> buf[i + 3 + k] == name[k];
    forall k: nat | i + 3 <= k < i + 3 + |name| ensures !CloseAt(buf, k) {
      assert !CloseAt(name, k - (i + 3));
    }
  }

  lemma {:induction false} TrimLeftSkips(a: Text, b: Text, cut: set<Byte>)
    requires (forall i :: 0 <= i < |a| ==> a[i] in cut) && (b != [] ==> b[0] !in cut)
    ensures TrimLeft(a + b, cut) == b
  {
    if a == [] {
      assert a + b == b;
    } else {
      assert (a + b)[1..] == a[1..] + b;
      TrimLeftSkips(a[1..], b, cut);
    }
  }

  lemma {:induction false} TrimRightSkips(a: Text, b: Text, cut: set<Byte>)
    requires (forall i :: 0 <= i < |b| ==> b[i] in cut) && (a != [] ==> a[|a| - 1] !in cut)
    ensures TrimRight(a + b, cut) == a
  {
    if b == [] {
      assert a + b == a;
    } else {
      assert (a + b)[..|a + b| - 1] == a + b[..|b| - 1];
      TrimRightSkips(a, b[..|b| - 1], cut);
    }
  }

  /** The name does not start with <, a or >, and does not end with <, /, a or >. */
  predicate SurvivesTrim(name: Text) {
    name == [] || (name[0] !in {60, 97, 62} && name[|name| - 1] !in {60, 47, 97, 62})
  }

  /** Trimming the two cutsets gives back the name exactly when the name neither starts nor ends inside them. */
  lemma TrimTagsGivesName(name: Text)
    ensures TrimTags(OPEN_TAG + name + CLOSE_TAG) == name <==> SurvivesTrim(name)
  {
    hide TrimLeft, TrimRight;
    if name == [] {
      TrimNothing();
    } else if name[0] !in OPEN_CUTSET {
      TrimFront(name);
      if name[|name| - 1] !in CLOSE_CUTSET {
        TrimRightSkips(name, CLOSE_TAG, CLOSE_CUTSET);
      }
    } else {
      TrimEatsName(name);
    }
  }

  lemma TrimNothing()
    ensures TrimTags(OPEN_TAG + [] + CLOSE_TAG) == []
  {
    hide TrimLeft, TrimRight;
    assert OPEN_TAG + [] + CLOSE_TAG == [LT, LOWER_A, GT, LT] + [SLASH, LOWER_A, GT];
    TrimLeftSkips([LT, LOWER_A, GT, LT], [SLASH, LOWER_A, GT], OPEN_CUTSET);
    TrimRightSkips([], [SLASH, LOWER_A, GT], CLOSE_CUTSET);
    assert [] + [SLASH, LOWER_A, GT] == [SLASH, LOWER_A, GT];
  }

  lemma TrimFront(name: Text)
    requires name != [] && name[0] !in OPEN_CUTSET
    ensures TrimLeft(OPEN_TAG + name + CLOSE_TAG, OPEN_CUTSET) == name + CLOSE_TAG
  {
    hide TrimLeft, TrimRight;
    assert OPEN_TAG + name + CLOSE_TAG == OPEN_TAG + (name + CLOSE_TAG);
    TrimLeftSkips(OPEN_TAG, name + CLOSE_TAG, OPEN_CUTSET);
  }

  lemma TrimEatsName(name: Text)
    requires name != [] && name[0] in OPEN_CUTSET
    ensures TrimTags(OPEN_TAG + name + CLOSE_TAG) != name
  {
    var s := OPEN_TAG + name + CLOSE_TAG;
    var l := TrimLeft(s, OPEN_CUTSET);
    var k := |s| - |l|;
    assert s[3] == name[0];
    assert k != 0 && k != 1 && k != 2 && k != 3;
    if |name| <= |l| {
      assert l[|name| - 1] == s[k + |name| - 1] == CLOSE_TAG[k - 4];
      assert CLOSE_TAG[k - 4] in CLOSE_CUTSET;
      TrimRightGoesOn(l, |name|, CLOSE_CUTSET);
    }
  }

  lemma TrimRightGoesOn(s: Text, n: nat, cut: set<Byte>)
    requires 0 < n <= |s| && s[n - 1] in cut
    ensures |TrimRight(s, cut)| != n
  {}

  /** The name of a render comes back whole exactly when it survives the trimming. */
  lemma NameInvertsPrinting(pre: Text, name: Text, rest: Text)
    requires IsFirstName(pre, name)
    ensures NameFromRender(pre + OPEN_TAG + name + CLOSE_TAG + rest) == Success((name, |pre| + |name| + 7))
            <==> SurvivesTrim(name)
  {
    NameOfRender(pre, name, rest);
    TrimTagsGivesName(name);
  }

  /** A name that ends in the letter a loses it. */
  lemma FinalLetterIsLost(stem: Text)
    requires IsFirstName([], stem + [LOWER_A]) && stem != [] && SurvivesTrim(stem)
    ensures NameFromRender(OPEN_TAG + (stem + [LOWER_A]) + CLOSE_TAG) == Success((stem, |stem| + 8))
  {
    hide *;
    var name := stem + [LOWER_A];
    NameOfRender([], name, []);
    NothingAround(OPEN_TAG, name, CLOSE_TAG);
    TrimOfStem(stem);
  }

  lemma Regroup4(a: Text, b: Text, c: Text, d: Text)
    ensures a + (b + c) + d == a + (b + (c + d))
  {}

  lemma NothingAround(a: Text, b: Text, c: Text)
    ensures [] + a + b + c + [] == a + b + c
  {}

  lemma TrimOfStem(stem: Text)
    requires stem != [] && SurvivesTrim(stem)
    ensures TrimTags(OPEN_TAG + (stem + [LOWER_A]) + CLOSE_TAG) == stem
  {
    hide TrimLeft, TrimRight;
    var tail := [LOWER_A] + CLOSE_TAG;
    Regroup4(OPEN_TAG, stem, [LOWER_A], CLOSE_TAG);
    TrimLeftSkips(OPEN_TAG, stem + tail, OPEN_CUTSET);
    TrimRightSkips(stem, tail, CLOSE_CUTSET);
  }

  /** Anna is read as Ann. */
  lemma AnnaBecomesAnn()
    ensures var ann: Text := [65, 110, 110];
            NameFromRender(OPEN_TAG + (ann + [LOWER_A]) + CLOSE_TAG) == Success((ann, 11))
  {
    FinalLetterIsLost([65, 110, 110]);
  }

  /** An ordinary name: `<a>Eve Lee</a>`. */
  lemma EveLeeIsRead()
    ensures NameFromRender([60, 97, 62, 69, 118, 101, 32, 76, 101, 101, 60, 47, 97, 62])
            == Success(([69, 118, 101, 32, 76, 101, 101], 14))
  {
    var name: Text := [69, 118, 101, 32, 76, 101, 101];
    assert [] + OPEN_TAG + name + CLOSE_TAG + [] == [60, 97, 62, 69, 118, 101, 32, 76, 101, 101, 60, 47, 97, 62];
    assert IsFirstName([], name) && SurvivesTrim(name);
    hide *;
    NameInvertsPrinting([], name, []);
  }

  /** There is no name exactly when nothing matches. */
  lemma NoName(buf: Text)
    ensures NameFromRender(buf) == Failure(NotFound) <==> forall i: nat, j: nat :: !NameMatch(buf, i, j)
    ensures NameFromRender(buf).Failure? ==> NameFromRender(buf).error == NotFound
  {
    hide NameMatch, TrimTags;
    NameFromIsLeftmostShortest(buf, 0);
  }

  /** A name with a line break in it is none: the dot of the expression does not match it. */
  lemma BrokenNameIsNotFound()
    ensures NameFromRender([60, 97, 62, 65, 10, 66, 60, 47, 97, 62]) == Failure(NotFound)
  {
    var buf: Text := [60, 97, 62, 65, 10, 66, 60, 47, 97, 62];
    assert forall i: nat :: 0 < i ==> !OpenAt(buf, i);
    assert forall k: nat :: k != 6 ==> !CloseAt(buf, k);
    assert buf[4] == NEWLINE && !OneLine(buf, 3, 6);
    hide OpenAt, CloseAt, OneLine, NameFromRender;
    NoName(buf);
  }

  // ----- what the year search returns -----

  /** No match starts inside another, so the non-overlapping matches are all the matches. */
  lemma NoYearInsideYear(buf: Text, i: nat, m: nat)
    requires YearAt(buf, i) && i < m < DigitsEnd(buf, i + 5)
    ensures !YearAt(buf, m)
  {
    if m >= i + 5 {
      assert buf[i + 5..DigitsEnd(buf, i + 5)][m - (i + 5)] == buf[m];
    }
  }

  lemma {:induction false} LastYear(buf: Text, i: nat)
    requires i <= |buf|
    ensures var all := YearsFrom(buf, i);
            && (all == [] ==> forall m :: i <= m ==> !YearAt(buf, m))
            && (all != [] ==>
                  var last := all[|all| - 1];
                  && YearAt(buf, last.0) && last.1 == DigitsEnd(buf, last.0 + 5)
                  && forall m :: last.0 < m ==> !YearAt(buf, m))
    decreases |buf| - i
  {
    hide DigitsEnd, AllDigits, YearAt, YearFrom;
    var r := YearFrom(buf, i);
    if r.Some? {
      LastYear(buf, r.value.1);
      forall m | r.value.0 < m < r.value.1 ensures !YearAt(buf, m) {
        NoYearInsideYear(buf, r.value.0, m);
      }
    }
  }

  /** The year is that of the last match, provided its white space is a blank and its number an int. */
  lemma YearOfRender(buf: Text, i: nat)
    requires YearAt(buf, i) && forall m :: i < m ==> !YearAt(buf, m)
    ensures var j := DigitsEnd(buf, i + 5);
            CurrentYearFromRender(buf) ==
            if buf[i + 4] == SPACE && Value(buf[i + 5..j]) < INT_LIMIT then Success((Value(buf[i + 5..j]), j))
            else Failure(Internal)
  {
    hide YearAt, YearsFrom, TrimLeft, Value, DigitsEnd;
    LastYear(buf, 0);
    var all := YearsFrom(buf, 0);
    assert all[|all| - 1] == (i, DigitsEnd(buf, i + 5));
    TrimYear(buf, i, DigitsEnd(buf, i + 5));
  }

  lemma TrimYear(buf: Text, i: nat, j: nat)
    requires YearAt(buf, i) && i + 6 <= j <= |buf| && AllDigits(buf[i + 5..j])
    ensures buf[i + 4] == SPACE ==> TrimLeft(buf[i..j], YEAR_CUTSET) == buf[i + 5..j]
    ensures buf[i + 4] != SPACE ==> !AllDigits(TrimLeft(buf[i..j], YEAR_CUTSET))
  {
    hide AllDigits;
    FirstDigit(buf, i + 5, j);
    if buf[i + 4] == SPACE {
      assert buf[i..j] == buf[i..i + 5] + buf[i + 5..j];
      TrimLeftSkips(buf[i..i + 5], buf[i + 5..j], YEAR_CUTSET);
    } else {
      assert buf[i..j] == buf[i..i + 4] + buf[i + 4..j];
      TrimLeftSkips(buf[i..i + 4], buf[i + 4..j], YEAR_CUTSET);
      StartsWithSpace(buf[i + 4..j]);
    }
  }

  lemma FirstDigit(buf: Text, i: nat, j: nat)
    requires i < j <= |buf| && AllDigits(buf[i..j])
    ensures buf[i..j][0] == buf[i] && IsDigit(buf[i])
  {}

  lemma StartsWithSpace(s: Text)
    requires s != [] && IsSpace(s[0])
    ensures !AllDigits(s)
  {}

  lemma YearInvertsPrinting(mid: Text, n: nat, tail: Text)
    requires tail != [] ==> tail[0] < 48 || 57 < tail[0]
    requires forall m :: 0 <= m ==> !YearAt(tail, m)
    ensures CurrentYearFromRender(mid + YEAR + [SPACE] + Itoa(n) + tail)
            == if n < INT_LIMIT then Success((n, |mid| + 5 + |Itoa(n)|)) else Failure(Internal)
  {
    hide Itoa, CurrentYearFromRender, DigitsEnd, Value, Atoi;
    var d := Itoa(n);
    var buf := mid + YEAR + [SPACE] + d + tail;
    var i, j := |mid|, |mid| + 5 + |d|;
    assert buf[i + 5..j] == d;
    DigitsEndAt(buf, i + 5, j);
    assert YearAt(buf, i);
    forall m | i < m ensures !YearAt(buf, m) {
      if m < j {
        NoYearInsideYear(buf, i, m);
      } else {
        assert !YearAt(tail, m - j);
      }
    }
    YearOfRender(buf, i);
    AtoiInvertsItoa(n);
  }

  /** The year of `Year 11</td>` is 11. */
  lemma YearElevenIsRead()
    ensures CurrentYearFromRender([89, 101, 97, 114, 32, 49, 49, 60, 47, 116, 100, 62]) == Success((11, 7))
  {
    var tail: Text := [60, 47, 116, 100, 62];
    assert Itoa(11) == Itoa(1) + Itoa(1) by {
      DecimalDigits(0, 1, 1);
    }
    DecimalDigits(0, 0, 0);
    assert [] + YEAR + [SPACE] + Itoa(11) + tail == [89, 101, 97, 114, 32, 49, 49, 60, 47, 116, 100, 62];
    hide Itoa, CurrentYearFromRender;
    YearInvertsPrinting([], 11, tail);
  }

  /** There is no year exactly when nothing matches. */
  lemma NoYear(buf: Text)
    ensures CurrentYearFromRender(buf) == Failure(NotFound) <==> forall m: nat :: !YearAt(buf, m)
    ensures CurrentYearFromRender(buf).Failure? ==> CurrentYearFromRender(buf).error in {NotFound, Internal}
  {
    hide YearAt, TrimLeft, Atoi, DigitsEnd;
    LastYear(buf, 0);
  }

  /** Any white space lets `Year` match, but only a blank is trimmed: with another the year is no number. */
  lemma WhiteSpaceBeforeYear(b: Byte)
    ensures CurrentYearFromRender([89, 101, 97, 114, b, 57])
            == if b == 32 then Success((9, 6))
               else if b in {9, 10, 12, 13} then Failure(Internal)
               else Failure(NotFound)
  {
    var buf: Text := [89, 101, 97, 114, b, 57];
    OneYear(b, buf);
    hide CurrentYearFromRender, YearAt, DigitsEnd, Value, AllDigits;
    if b in {9, 10, 12, 13, 32} {
      YearOfRender(buf, 0);
    } else {
      NoYear(buf);
    }
  }

  lemma OneYear(b: Byte, buf: Text)
    requires buf == [89, 101, 97, 114, b, 57]
    ensures forall m: nat :: 0 < m ==> !YearAt(buf, m)
    ensures YearAt(buf, 0) <==> b in {9, 10, 12, 13, 32}
    ensures DigitsEnd(buf, 5) == 6 && AllDigits(buf[5..6]) && Value(buf[5..6]) == 9
  {
    assert buf[5..6] == [57];
    DigitsEndAt(buf, 5, 6);
    assert Value([57]) == 10 * Value([]) + 9;
  }

  /** The pair of calls fails as its parts do; the year is not looked for unless the pupil attends. */
  lemma StudentFails(buf: Text, attends: bool)
    ensures NameFromRender(buf).Failure? ==> StudentFromRender(buf, attends) == Failure(NotFound)
    ensures NameFromRender(buf).Success? ==>
              var (name, x) := NameFromRender(buf).value;
              && x <= |buf|
              && (!attends ==> StudentFromRender(buf, attends) == Success((name, 0)))
              && (attends && CurrentYearFromRender(buf[x..]).Failure? ==>
                    StudentFromRender(buf, attends) == Failure(CurrentYearFromRender(buf[x..]).error))
  {
    NoName(buf);
    hide CurrentYearFromRender, TrimTags, OpenAt, CloseAt, OneLine;
  }

  /**
   Name and year of one render: the name is in the first pair of tags, the year in the last match
   after it.  Both come back exactly when the name survives the trimming and the year is an int.
   */
  lemma StudentInvertsPrinting(pre: Text, name: Text, mid: Text, n: nat, tail: Text)
    requires IsFirstName(pre, name)
    requires tail != [] ==> tail[0] < 48 || 57 < tail[0]
    requires forall m :: 0 <= m ==> !YearAt(tail, m)
    ensures var rest := mid + YEAR + [SPACE] + Itoa(n) + tail;
            var buf := pre + OPEN_TAG + name + CLOSE_TAG + rest;
            && (StudentFromRender(buf, true) == Success((name, n)) <==> SurvivesTrim(name) && n < INT_LIMIT)
            && (StudentFromRender(buf, false) == Success((name, 0)) <==> SurvivesTrim(name))
  {
    var rest := mid + YEAR + [SPACE] + Itoa(n) + tail;
    var buf := pre + OPEN_TAG + name + CLOSE_TAG + rest;
    NameOfRender(pre, name, rest);
    TrimTagsGivesName(name);
    assert buf[|pre| + |name| + 7..] == rest;
    YearInvertsPrinting(mid, n, tail);
  }
}
