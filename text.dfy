/**
 * The Python string operations the application relies on, written out over
 * `seq<char>`: `str.isspace`, `str.strip`, `p in s`, `s.split(c)`,
 * `s.split(sep)[0]`, `s.split(sep)[1]`, `s.split()[0]` and `str(n)`.
 */
module Text {

  /** Python's `str.isspace()` for a single character. */
  predicate IsSpace(c: char) {
    || c == ' ' || ('\t' <= c <= '\r') || ('\U{1C}' <= c <= '\U{1F}')
    || c == '\U{85}' || c == '\U{A0}' || c == '\U{1680}'
    || ('\U{2000}' <= c <= '\U{200A}') || c == '\U{2028}' || c == '\U{2029}'
    || c == '\U{202F}' || c == '\U{205F}' || c == '\U{3000}'
  }

  predicate IsDigit(c: char) {
    '0' as int <= c as int <= '9' as int
  }

  predicate NoSpace(s: string) {
    forall i :: 0 <= i < |s| ==> !IsSpace(s[i])
  }

  predicate StartsWith(s: string, p: string) {
    |p| <= |s| && s[..|p|] == p
  }

  /** `p` occurs in `s` starting at index `j`. */
  predicate OccursAt(s: string, p: string, j: nat) {
    j + |p| <= |s| && s[j..j + |p|] == p
  }

  /** Python's `p in s`. */
  predicate Contains(s: string, p: string) {
    exists j: nat {:trigger OccursAt(s, p, j)} :: j <= |s| && OccursAt(s, p, j)
  }

  /** Python's `str.lstrip()`. */
  function TrimStart(s: string): (r: string)
    ensures |r| <= |s| && r == s[|s| - |r|..]
    ensures r == [] || !IsSpace(r[0])
    ensures forall i :: 0 <= i < |s| - |r| ==> IsSpace(s[i])
    decreases |s|
  {
    if s != [] && IsSpace(s[0]) then
      var r := TrimStart(s[1..]);
      assert forall i :: 0 <= i < |s| - |r| ==> IsSpace(s[i]) by {
        forall i | 0 <= i < |s| - |r| ensures IsSpace(s[i]) {
          if i > 0 {
            assert s[i] == s[1..][i - 1];
          }
        }
      }
      r
    else
      s
  }

  /** Python's `str.rstrip()`. */
  function TrimEnd(s: string): (r: string)
    ensures |r| <= |s| && r == s[..|r|]
    ensures r == [] || !IsSpace(r[|r| - 1])
    ensures forall i :: |r| <= i < |s| ==> IsSpace(s[i])
    decreases |s|
  {
    if s != [] && IsSpace(s[|s| - 1]) then
      var r := TrimEnd(s[..|s| - 1]);
      assert forall i :: |r| <= i < |s| ==> IsSpace(s[i]) by {
        forall i | |r| <= i < |s| ensures IsSpace(s[i]) {
          if i < |s| - 1 {
            assert s[i] == s[..|s| - 1][i];
          }
        }
      }
      r
    else
      s
  }

  /** Python's `str.strip()`. */
  function Strip(s: string): string {
    TrimEnd(TrimStart(s))
  }

  /** `Strip(s)` is the slice `s[a..b]` that drops exactly the white space at both ends. */
  lemma {:induction false} StripRange(s: string) returns (a: nat, b: nat)
    ensures a <= b <= |s| && Strip(s) == s[a..b]
    ensures forall i :: 0 <= i < a ==> IsSpace(s[i])
    ensures forall i :: b <= i < |s| ==> IsSpace(s[i])
    ensures a < b ==> !IsSpace(s[a]) && !IsSpace(s[b - 1])
  {
    var t := TrimStart(s);
    a := |s| - |t|;
    var u := TrimEnd(t);
    b := a + |u|;
    TrimmedSlice(s, t, u, a, b);
  }

  lemma {:induction false} TrimmedSlice(s: string, t: string, u: string, a: nat, b: nat)
    requires |t| <= |s| && a == |s| - |t| && t == s[a..]
    requires |u| <= |t| && u == t[..|u|] && b == a + |u|
    requires forall i :: |u| <= i < |t| ==> IsSpace(t[i])
    requires u == [] || !IsSpace(u[0])
    requires u == [] || !IsSpace(u[|u| - 1])
    ensures b <= |s| && u == s[a..b]
    ensures forall i :: b <= i < |s| ==> IsSpace(s[i])
    ensures a < b ==> !IsSpace(s[a]) && !IsSpace(s[b - 1])
  {
    forall i | b <= i < |s| ensures IsSpace(s[i]) {
      assert s[i] == t[i - a];
    }
    if a < b {
      assert s[a] == u[0];
      assert s[b - 1] == u[|u| - 1];
    }
  }

  /**
   * Stripping cannot add or remove an occurrence of a pattern made of
   * non-space characters: `p in s.strip()` exactly when `p in s`.
   */
  lemma {:induction false} StripKeepsContains(s: string, p: string)
    requires p != [] && NoSpace(p)
    ensures Contains(Strip(s), p) <==> Contains(s, p)
  {
    var a, b := StripRange(s);
    if Contains(s, p) {
      var j: nat :| j <= |s| && OccursAt(s, p, j);
      OccurrenceWithinStrip(s, p, j, a, b);
    }
    if Contains(Strip(s), p) {
      var t := Strip(s);
      var j: nat :| j <= |t| && OccursAt(t, p, j);
      OccurrenceShifts(s, p, a, b, j);
    }
  }

  lemma {:induction false} OccurrenceShifts(s: string, p: string, a: nat, b: nat, j: nat)
    requires a <= b <= |s| && OccursAt(s[a..b], p, j)
    ensures OccursAt(s, p, a + j)
  {
    var t := s[a..b];
    forall k | 0 <= k < |p| ensures s[a + j + k] == p[k] {
      assert t[j..j + |p|][k] == p[k];
      assert t[j + k] == s[a + j + k];
    }
    assert s[a + j..a + j + |p|] == p;
  }

  lemma {:induction false} OccurrenceWithinStrip(s: string, p: string, j: nat, a: nat, b: nat)
    requires p != [] && NoSpace(p) && OccursAt(s, p, j)
    requires a <= b <= |s|
    requires forall i :: 0 <= i < a ==> IsSpace(s[i])
    requires forall i :: b <= i < |s| ==> IsSpace(s[i])
    ensures Contains(s[a..b], p)
  {
    assert s[j] == p[0];
    assert s[j + |p| - 1] == p[|p| - 1];
    assert a <= j && j + |p| <= b;
    var t := s[a..b];
    forall k | 0 <= k < |p| ensures t[j - a + k] == p[k] {
      assert t[j - a + k] == s[j + k];
    }
    assert t[j - a..j - a + |p|] == p;
    assert OccursAt(t, p, j - a);
  }

  /** Python's `s.split(c)` for a one-character separator. */
  function SplitOn(s: string, c: char): (pieces: seq<string>)
    ensures |pieces| >= 1
    ensures forall k :: 0 <= k < |pieces| ==> c !in pieces[k]
    decreases |s|
  {
    if s == [] then [""]
    else
      var rest := SplitOn(s[1..], c);
      if s[0] == c then [""] + rest else [[s[0]] + rest[0]] + rest[1..]
  }

  /** Python's `c.join(pieces)`. */
  function JoinWith(pieces: seq<string>, c: char): string
    requires |pieces| >= 1
    decreases |pieces|
  {
    if |pieces| == 1 then pieces[0] else pieces[0] + [c] + JoinWith(pieces[1..], c)
  }

  /** Splitting loses nothing: joining the pieces back gives the input. */
  lemma {:induction false} SplitJoin(s: string, c: char)
    ensures JoinWith(SplitOn(s, c), c) == s
    decreases |s|
  {
    if s != [] {
      SplitJoin(s[1..], c);
      var rest := SplitOn(s[1..], c);
      if s[0] != c {
        if |rest| == 1 {
          assert JoinWith(SplitOn(s, c), c) == [s[0]] + rest[0];
        } else {
          assert rest[1..][1..] == rest[2..];
          assert JoinWith(SplitOn(s, c), c) == [s[0]] + rest[0] + [c] + JoinWith(rest[1..], c);
        }
        assert s == [s[0]] + s[1..];
      }
    }
  }

  /** A separator-free text splits into itself alone. */
  lemma {:induction false} SplitNoSeparator(a: string, c: char)
    requires c !in a
    ensures SplitOn(a, c) == [a]
    decreases |a|
  {
    if a != [] {
      SplitNoSeparator(a[1..], c);
      assert [a[0]] + a[1..] == a;
    }
  }

  /** Splitting `a + c + b` with no `c` in `a` yields `a` followed by the pieces of `b`. */
  lemma {:induction false} SplitFirstPiece(a: string, c: char, b: string)
    requires c !in a
    ensures SplitOn(a + [c] + b, c) == [a] + SplitOn(b, c)
    decreases |a|
  {
    var s := a + [c] + b;
    if a == [] {
      assert s[1..] == b;
    } else {
      assert s[1..] == a[1..] + [c] + b;
      SplitFirstPiece(a[1..], c, b);
      assert [a[0]] + a[1..] == a;
    }
  }

  /** An occurrence at `j >= 1` in `s` is an occurrence at `j - 1` in `s[1..]`, and back. */
  lemma {:induction false} OccursShift(s: string, p: string, j: nat)
    requires 1 <= j && s != []
    ensures OccursAt(s, p, j) <==> OccursAt(s[1..], p, j - 1)
  {
    if j + |p| <= |s| {
      assert s[1..][j - 1..j - 1 + |p|] == s[j..j + |p|];
    }
  }

  /** When `s` does not start with `p`, `p in s` is decided by `s[1..]`. */
  lemma {:induction false} ContainsTail(s: string, p: string)
    requires s != [] && !StartsWith(s, p)
    ensures Contains(s, p) <==> Contains(s[1..], p)
  {
    if Contains(s, p) {
      var j: nat :| j <= |s| && OccursAt(s, p, j);
      assert j != 0;
      OccursShift(s, p, j);
      assert OccursAt(s[1..], p, j - 1);
    }
    if Contains(s[1..], p) {
      var j: nat :| j <= |s[1..]| && OccursAt(s[1..], p, j);
      OccursShift(s, p, j + 1);
      assert OccursAt(s, p, j + 1);
    }
  }

  /** Python's `s.find(sep)`, with `|s|` in place of `-1` when `sep` does not occur. */
  function FirstIndex(s: string, sep: string): (k: nat)
    requires sep != []
    ensures k <= |s|
    ensures k == |s| || OccursAt(s, sep, k)
    ensures Contains(s, sep) ==> k < |s|
    decreases |s|
  {
    if StartsWith(s, sep) then
      assert OccursAt(s, sep, 0);
      0
    else if s == [] then 0
    else
      ContainsTail(s, sep);
      var k := FirstIndex(s[1..], sep);
      OccursShift(s, sep, k + 1);
      k + 1
  }

  /** `FirstIndex` finds the first occurrence: none starts before it. */
  lemma {:induction false} FirstIndexIsFirst(s: string, sep: string)
    requires sep != []
    ensures forall j :: 0 <= j < FirstIndex(s, sep) ==> !OccursAt(s, sep, j)
    decreases |s|
  {
    if !StartsWith(s, sep) && s != [] {
      FirstIndexIsFirst(s[1..], sep);
      var k := FirstIndex(s[1..], sep);
      assert FirstIndex(s, sep) == k + 1;
      assert !OccursAt(s, sep, 0);
      forall j | 1 <= j < k + 1 ensures !OccursAt(s, sep, j) {
        OccursShift(s, sep, j);
      }
    }
  }

  /**
   * Python's `s.split(sep)[0]`: the text in front of the first occurrence
   * of `sep`, or the whole of `s` when `sep` does not occur.
   */
  function Before(s: string, sep: string): (r: string)
    requires sep != []
    ensures StartsWith(s, r) && |r| == FirstIndex(s, sep)
    ensures Contains(s, sep) ==> OccursAt(s, sep, |r|)
    ensures !Contains(s, sep) ==> r == s
  {
    s[..FirstIndex(s, sep)]
  }

  /** The text after the first occurrence of `sep` (Python's `s.split(sep, 1)[1]`). */
  function After(s: string, sep: string): (r: string)
    requires sep != [] && Contains(s, sep)
    ensures s == Before(s, sep) + sep + r
  {
    var k := FirstIndex(s, sep);
    var r := s[k + |sep|..];
    assert s[k..k + |sep|] == sep;
    assert s == s[..k] + s[k..k + |sep|] + r;
    r
  }

  /** The text in front of the first occurrence of `sep` holds no occurrence of it. */
  lemma {:induction false} BeforeHasNoOccurrence(s: string, sep: string)
    requires sep != []
    ensures !Contains(Before(s, sep), sep)
  {
    FirstIndexIsFirst(s, sep);
    PrefixHasNoOccurrence(s, sep, FirstIndex(s, sep));
  }

  lemma {:induction false} PrefixHasNoOccurrence(s: string, sep: string, m: nat)
    requires sep != [] && m <= |s|
    requires forall j :: 0 <= j < m ==> !OccursAt(s, sep, j)
    ensures !Contains(s[..m], sep)
  {
    var r := s[..m];
    forall j: nat | j <= |r| ensures !OccursAt(r, sep, j) {
      if j + |sep| <= |r| {
        assert !OccursAt(s, sep, j);
        assert s[j..j + |sep|] == r[j..j + |sep|];
      }
    }
  }

  /**
   * Python's `s.split(sep)[1]`: the text that follows the first occurrence
   * of `sep`, up to the next occurrence or the end of `s`.
   */
  function SecondField(s: string, sep: string): string
    requires sep != [] && Contains(s, sep)
  {
    Before(After(s, sep), sep)
  }

  /**
   * The second field is where the first occurrence of `sep` leaves off, and
   * it holds no separator: it runs up to the next one or to the end of `s`.
   */
  lemma {:induction false} SecondFieldFacts(s: string, sep: string)
    requires sep != [] && Contains(s, sep)
    ensures StartsWith(After(s, sep), SecondField(s, sep))
    ensures !Contains(SecondField(s, sep), sep)
  {
    BeforeHasNoOccurrence(After(s, sep), sep);
  }

  /** The leading run of non-space characters. */
  function TakeToken(s: string): (t: string)
    ensures StartsWith(s, t) && NoSpace(t)
    ensures |t| == |s| || IsSpace(s[|t|])
    decreases |s|
  {
    if s == [] || IsSpace(s[0]) then [] else [s[0]] + TakeToken(s[1..])
  }

  /** Python's `s.split()[0]`: the first white-space separated word of `s`. */
  function FirstToken(s: string): (t: string)
    requires TrimStart(s) != []
    ensures t != [] && NoSpace(t)
    ensures var lead := |s| - |TrimStart(s)|;
            && OccursAt(s, t, lead)
            && (lead + |t| == |s| || IsSpace(s[lead + |t|]))
  {
    var rest := TrimStart(s);
    var t := TakeToken(rest);
    assert rest[..|t|] == t;
    t
  }

  /** A text containing a non-empty pattern without spaces has a first word. */
  lemma {:induction false} ContainsHasToken(s: string, p: string)
    requires p != [] && NoSpace(p) && Contains(s, p)
    ensures TrimStart(s) != []
  {
    var j: nat :| j <= |s| && OccursAt(s, p, j);
    assert s[j] == p[0];
  }

  function DigitChar(d: nat): char
    requires d < 10
  {
    "0123456789"[d]
  }

  /** Python's `str(n)` for a non-negative integer. */
  function NatToString(n: nat): (s: string)
    ensures s != [] && forall i :: 0 <= i < |s| ==> IsDigit(s[i])
    ensures DecimalValue(s) == n
    ensures s[0] == '0' ==> s == "0"
    decreases n
  {
    if n < 10 then [DigitChar(n)]
    else
      var s := NatToString(n / 10) + [DigitChar(n % 10)];
      assert s[..|s| - 1] == NatToString(n / 10);
      s
  }

  /** The value of a string of decimal digits, read most significant digit first. */
  function DecimalValue(s: string): nat
    requires forall i :: 0 <= i < |s| ==> IsDigit(s[i])
  {
    if s == [] then 0
    else
      assert IsDigit(s[|s| - 1]);
      10 * DecimalValue(s[..|s| - 1]) + (s[|s| - 1] as int - '0' as int)
  }
}
