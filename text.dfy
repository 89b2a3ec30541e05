/** String helpers with Python's meaning: `str.split(sep)`, `str.startswith`,
    `str.strip` and `int(str)` on decimal text. */
module Text {
  import opened Results

  predicate StartsWith(s: string, prefix: string) {
    |prefix| <= |s| && s[..|prefix|] == prefix
  }

  /** `sep` occurs in `s` starting at index `i`. */
  predicate OccursAt(s: string, sep: string, i: nat) {
    i + |sep| <= |s| && s[i..i + |sep|] == sep
  }

  predicate Contains(s: string, sep: string) {
    exists i: nat | i <= |s| :: OccursAt(s, sep, i)
  }

  function FindFrom(s: string, sep: string, i: nat): (r: Option<nat>)
    requires |sep| > 0
    ensures r.Some? ==> i <= r.value && OccursAt(s, sep, r.value)
    ensures r.Some? ==> forall j: nat :: i <= j < r.value ==> !OccursAt(s, sep, j)
    ensures r.None? ==> forall j: nat :: i <= j ==> !OccursAt(s, sep, j)
    decreases |s| - i
  {
    if i + |sep| > |s| then None
    else if s[i..i + |sep|] == sep then Some(i)
    else FindFrom(s, sep, i + 1)
  }

  /** The leftmost occurrence of `sep` in `s`, as `str.find` gives it. */
  function FindFirst(s: string, sep: string): (r: Option<nat>)
    requires |sep| > 0
    ensures r.Some? ==> OccursAt(s, sep, r.value) && forall j: nat :: j < r.value ==> !OccursAt(s, sep, j)
    ensures r.None? <==> !Contains(s, sep)
  {
    FindFrom(s, sep, 0)
  }

  /** Python's `s.split(sep)`: cut at every leftmost non-overlapping occurrence. */
  function Split(s: string, sep: string): (r: seq<string>)
    requires |sep| > 0
    ensures |r| >= 1
    decreases |s|
  {
    match FindFirst(s, sep)
    case None => [s]
    case Some(i) => [s[..i]] + Split(s[i + |sep|..], sep)
  }

  function Join(parts: seq<string>, sep: string): string {
    if |parts| == 0 then ""
    else if |parts| == 1 then parts[0]
    else parts[0] + sep + Join(parts[1..], sep)
  }

  function Last<T>(s: seq<T>): T
    requires |s| > 0
  {
    s[|s| - 1]
  }

  /** `s.split(sep)[-1]`. */
  function LastSegment(s: string, sep: string): string
    requires |sep| > 0
  {
    Last(Split(s, sep))
  }

  /** Joining the pieces with the separator gives back the text that was split. */
  lemma {:induction false} JoinSplit(s: string, sep: string)
    requires |sep| > 0
    ensures Join(Split(s, sep), sep) == s
    decreases |s|
  {
    match FindFirst(s, sep)
    case None =>
    case Some(i) =>
      var rest := s[i + |sep|..];
      var parts := Split(s, sep);
      JoinSplit(rest, sep);
      assert parts == [s[..i]] + Split(rest, sep);
      assert parts[1..] == Split(rest, sep);
      assert Join(parts, sep) == s[..i] + sep + Join(Split(rest, sep), sep);
      assert s == s[..i] + s[i..i + |sep|] + rest;
  }

  lemma PrefixKeepsNoOccurrence(s: string, sep: string, i: nat)
    requires |sep| > 0 && i <= |s|
    requires forall j: nat :: j < i ==> !OccursAt(s, sep, j)
    ensures !Contains(s[..i], sep)
  {
    if Contains(s[..i], sep) {
      var j: nat :| j <= i && OccursAt(s[..i], sep, j);
      assert j + |sep| <= i;
      assert s[..i][j..j + |sep|] == s[j..j + |sep|];
      assert OccursAt(s, sep, j);
    }
  }

  /** No piece of a split contains the separator. */
  lemma {:induction false} SplitPiecesFree(s: string, sep: string)
    requires |sep| > 0
    ensures forall k :: 0 <= k < |Split(s, sep)| ==> !Contains(Split(s, sep)[k], sep)
    decreases |s|
  {
    match FindFirst(s, sep)
    case None =>
    case Some(i) =>
      var rest := s[i + |sep|..];
      SplitPiecesFree(rest, sep);
      PrefixKeepsNoOccurrence(s, sep, i);
  }

  /** Text without the separator splits into itself alone, and only such text does. */
  lemma SplitSingle(s: string, sep: string)
    requires |sep| > 0
    ensures Split(s, sep) == [s] <==> !Contains(s, sep)
  {
    match FindFirst(s, sep)
    case None =>
    case Some(i) =>
      assert |Split(s, sep)| >= 2;
  }

  /** Text with the separator splits into at least two pieces. */
  lemma SplitSeveral(s: string, sep: string)
    requires |sep| > 0 && Contains(s, sep)
    ensures |Split(s, sep)| >= 2
  {
    SplitStep(s, sep, FindFirst(s, sep).value);
  }

  /** The last segment is a suffix of the text and holds no separator; it is the
      whole text when the separator does not occur. */
  lemma {:induction false} LastSegmentSuffix(s: string, sep: string)
    requires |sep| > 0
    ensures |LastSegment(s, sep)| <= |s|
    ensures s[|s| - |LastSegment(s, sep)|..] == LastSegment(s, sep)
    ensures !Contains(LastSegment(s, sep), sep)
    ensures !Contains(s, sep) ==> LastSegment(s, sep) == s
    decreases |s|
  {
    SplitPiecesFree(s, sep);
    match FindFirst(s, sep)
    case None =>
    case Some(i) =>
      var rest := s[i + |sep|..];
      LastSegmentSuffix(rest, sep);
      LastSegmentStep(s, sep, i);
  }

  /** Past the first separator, the last segment is that of the rest. */
  lemma LastSegmentStep(s: string, sep: string, i: nat)
    requires |sep| > 0 && FindFirst(s, sep) == Some(i)
    ensures i + |sep| <= |s| && LastSegment(s, sep) == LastSegment(s[i + |sep|..], sep)
  {
    var tail := Split(s[i + |sep|..], sep);
    SplitStep(s, sep, i);
    assert Last([s[..i]] + tail) == Last(tail);
  }

  /** Splitting past the first separator. */
  lemma SplitStep(s: string, sep: string, i: nat)
    requires |sep| > 0 && FindFirst(s, sep) == Some(i)
    ensures i + |sep| <= |s| && Split(s, sep) == [s[..i]] + Split(s[i + |sep|..], sep)
  {
    var parts := Split(s, sep);
    var tail := Split(s[i + |sep|..], sep);
    assert parts[0] == s[..i];
    assert parts[1..] == tail;
    assert parts == [parts[0]] + parts[1..];
  }

  /** Joining puts the separator just before the last piece. */
  lemma {:induction false} JoinSnoc(parts: seq<string>, sep: string)
    requires |parts| >= 2
    ensures Join(parts, sep) == Join(parts[..|parts| - 1], sep) + sep + parts[|parts| - 1]
    decreases |parts|
  {
    var n := |parts|;
    if n > 2 {
      JoinSnoc(parts[1..], sep);
      assert parts[1..][..n - 2] == parts[..n - 1][1..];
    }
  }

  /** When the separator occurs, the last segment is preceded by an occurrence of
      it: it is all of the text after the last separator. */
  lemma LastSegmentAfterSeparator(s: string, sep: string)
    requires |sep| > 0 && Contains(s, sep)
    ensures |LastSegment(s, sep)| + |sep| <= |s| && OccursAt(s, sep, |s| - |LastSegment(s, sep)| - |sep|)
  {
    var parts := Split(s, sep);
    JoinSplit(s, sep);
    SplitSeveral(s, sep);
    JoinSnoc(parts, sep);
    OccursBeforeLast(s, sep, Join(parts, sep), Join(parts[..|parts| - 1], sep), parts[|parts| - 1]);
  }

  /** A text made of a front, the separator and a back has the separator just
      before the back. */
  lemma OccursBeforeLast(s: string, sep: string, joined: string, front: string, back: string)
    requires joined == s && joined == front + sep + back
    ensures |back| + |sep| <= |s| && OccursAt(s, sep, |s| - |back| - |sep|)
  {
    assert s[|front|..|front| + |sep|] == sep;
  }

  lemma OccursAtChar(s: string, c: char, j: nat)
    ensures OccursAt(s, [c], j) <==> j < |s| && s[j] == c
  {
    if j < |s| && s[j] == c { assert s[j..j + 1] == [c]; }
    if OccursAt(s, [c], j) { assert s[j..j + 1][0] == s[j]; }
  }

  lemma ContainsChar(s: string, c: char)
    ensures Contains(s, [c]) <==> c in s
  {
    if c in s {
      var j :| 0 <= j < |s| && s[j] == c;
      OccursAtChar(s, c, j);
    }
    if Contains(s, [c]) {
      var j: nat :| j <= |s| && OccursAt(s, [c], j);
      OccursAtChar(s, c, j);
    }
  }

  /** Splitting pieces joined by a one-character separator gives the pieces back,
      when no piece contains the separator. */
  lemma {:induction false} SplitJoin(parts: seq<string>, c: char)
    requires |parts| >= 1
    requires forall k :: 0 <= k < |parts| ==> c !in parts[k]
    ensures Split(Join(parts, [c]), [c]) == parts
    decreases |parts|
  {
    var s := Join(parts, [c]);
    var p0 := parts[0];
    if |parts| == 1 {
      forall j: nat | j <= |s| ensures !OccursAt(s, [c], j) {
        OccursAtChar(s, c, j);
        if j < |s| { assert s[j] == p0[j]; }
      }
    } else {
      var rest := Join(parts[1..], [c]);
      assert s == p0 + [c] + rest;
      forall j: nat | j < |p0| ensures !OccursAt(s, [c], j) {
        OccursAtChar(s, c, j);
        assert s[j] == p0[j];
      }
      OccursAtChar(s, c, |p0|);
      assert OccursAt(s, [c], |p0|);
      assert Contains(s, [c]);
      assert FindFirst(s, [c]) == Some(|p0|);
      assert s[..|p0|] == p0;
      assert s[|p0| + 1..] == rest;
      SplitJoin(parts[1..], c);
      assert parts == [p0] + parts[1..];
    }
  }

  // ---------------------------------------------------------------------------
  // int(str) on decimal text

  predicate IsWhitespace(c: char) {
    c == ' ' || c == '\t' || c == '\n' || c == '\r' || c == '\U{000B}' || c == '\U{000C}'
  }

  predicate IsDigit(c: char) { '0' <= c <= '9' }

  function TrimLeft(s: string): (r: string)
    ensures |r| <= |s| && r == s[|s| - |r|..]
    ensures |r| > 0 ==> !IsWhitespace(r[0])
  {
    if |s| > 0 && IsWhitespace(s[0]) then TrimLeft(s[1..]) else s
  }

  function TrimRight(s: string): (r: string)
    ensures |r| <= |s| && r == s[..|r|]
    ensures |r| > 0 ==> !IsWhitespace(r[|r| - 1])
  {
    if |s| > 0 && IsWhitespace(s[|s| - 1]) then TrimRight(s[..|s| - 1]) else s
  }

  /** Python's `s.strip()` for ASCII whitespace. */
  function Strip(s: string): string {
    TrimRight(TrimLeft(s))
  }

  function DigitsValue(ds: string): nat
    requires forall k :: 0 <= k < |ds| ==> IsDigit(ds[k])
  {
    if |ds| == 0 then 0
    else
      var d := ds[|ds| - 1] as int - '0' as int;
      assert IsDigit(ds[|ds| - 1]);
      DigitsValue(ds[..|ds| - 1]) * 10 + d
  }

  /** `int(text)`: optional surrounding whitespace, an optional sign, then decimal digits. */
  function ParseInt(text: string): Result<int> {
    var t := Strip(text);
    var negative := |t| > 0 && t[0] == '-';
    var digits := if |t| > 0 && (t[0] == '-' || t[0] == '+') then t[1..] else t;
    if |digits| > 0 && forall k :: 0 <= k < |digits| ==> IsDigit(digits[k]) then
      var v: int := DigitsValue(digits);
      Ok(if negative then -v else v)
    else
      Err("invalid literal for int()")
  }

  function NatToString(n: nat): (r: string)
    ensures |r| > 0 && forall k :: 0 <= k < |r| ==> IsDigit(r[k])
  {
    var d := ['0' + (n % 10) as char];
    if n < 10 then d else NatToString(n / 10) + d
  }

  /** `str(n)` */
  function IntToString(n: int): string {
    if n < 0 then "-" + NatToString(-n) else NatToString(n)
  }

  lemma {:induction false} DigitsOfNatToString(n: nat)
    ensures DigitsValue(NatToString(n)) == n
  {
    var r := NatToString(n);
    if n >= 10 {
      DigitsOfNatToString(n / 10);
      assert r[..|r| - 1] == NatToString(n / 10);
    }
  }

  lemma StripUnchanged(s: string)
    requires |s| > 0 && !IsWhitespace(s[0]) && !IsWhitespace(s[|s| - 1])
    ensures Strip(s) == s
  {
  }

  /** `int(str(n)) == n`: the printed form of an id parses back to it. */
  lemma ParseIntToString(n: int)
    ensures ParseInt(IntToString(n)) == Ok(n)
  {
    var s := IntToString(n);
    var digits := if n < 0 then NatToString(-n) else NatToString(n);
    assert s[|s| - 1] == digits[|digits| - 1];
    StripUnchanged(s);
    if n < 0 {
      assert s[1..] == digits;
      DigitsOfNatToString(-n);
    } else {
      DigitsOfNatToString(n);
    }
  }
}
