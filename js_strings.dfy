/**
 * The pieces of JavaScript's string semantics the core relies on: the white-space
 * class shared by `\s` and `String.prototype.trim`, the line terminators that `.`
 * does not match, `trim`, `indexOf` and substring search.
 */
module JsStrings {
  import opened Wrappers

  /** White space as ECMAScript defines it (WhiteSpace and LineTerminator). */
  predicate IsSpace(c: char) {
    || c == '\t' || c == '\n' || c == '\U{B}' || c == '\U{C}' || c == '\r' || c == ' '
    || c == '\U{A0}' || c == '\U{1680}' || ('\U{2000}' <= c <= '\U{200A}')
    || c == '\U{2028}' || c == '\U{2029}' || c == '\U{202F}' || c == '\U{205F}'
    || c == '\U{3000}' || c == '\U{FEFF}'
  }

  /** The characters a regular-expression `.` refuses to match. */
  predicate IsLineTerminator(c: char) {
    c == '\n' || c == '\r' || c == '\U{2028}' || c == '\U{2029}'
  }

  /** `t` occurs somewhere inside `s`. */
  predicate Contains(s: string, t: string) {
    exists i :: 0 <= i <= |s| && OccursAt(s, t, i)
  }

  /** `t` occurs in `s` starting at position `i`. */
  predicate OccursAt(s: string, t: string, i: int) {
    0 <= i && i + |t| <= |s| && s[i..i + |t|] == t
  }

  lemma ContainsMiddle(p: string, t: string, q: string)
    ensures Contains(p + t + q, t)
  {
    var s := p + t + q;
    assert s[|p|..|p| + |t|] == t;
    assert OccursAt(s, t, |p|);
  }

  /** Removes leading white space: the result is the suffix of `s` that starts at its first non-space. */
  function TrimStart(s: string): (r: string)
    ensures |r| <= |s| && r == s[|s| - |r|..]
    ensures r == [] || !IsSpace(r[0])
    ensures forall i :: 0 <= i < |s| - |r| ==> IsSpace(s[i])
  {
    if s != [] && IsSpace(s[0]) then TrimStart(s[1..]) else s
  }

  /** Removes trailing white space: the result is the prefix of `s` that ends at its last non-space. */
  function TrimEnd(s: string): (r: string)
    ensures |r| <= |s| && r == s[..|r|]
    ensures r == [] || !IsSpace(r[|r| - 1])
    ensures forall i :: |r| <= i < |s| ==> IsSpace(s[i])
  {
    if s != [] && IsSpace(s[|s| - 1]) then TrimEnd(s[..|s| - 1]) else s
  }

  /** `r` occurs in `s` at `k`, and everything of `s` before and after it is white space. */
  predicate SpaceAround(s: string, r: string, k: int) {
    && OccursAt(s, r, k)
    && (forall i :: 0 <= i < k ==> IsSpace(s[i]))
    && (forall i :: k + |r| <= i < |s| ==> IsSpace(s[i]))
  }

  /** `String.prototype.trim`. `TrimOnlyEdges` states that only white space at the two ends is removed. */
  function Trim(s: string): (r: string)
    ensures r == [] || (!IsSpace(r[0]) && !IsSpace(r[|r| - 1]))
    ensures Contains(s, r)
    ensures (s == [] || (!IsSpace(s[0]) && !IsSpace(s[|s| - 1]))) ==> r == s
    ensures r == [] <==> forall i :: 0 <= i < |s| ==> IsSpace(s[i])
  {
    TrimEdges(s);
    TrimInside(s);
    TrimOfTrimmed(s);
    TrimEmpty(s);
    TrimEnd(TrimStart(s))
  }

  lemma TrimEdges(s: string)
    ensures var r := TrimEnd(TrimStart(s)); r == [] || (!IsSpace(r[0]) && !IsSpace(r[|r| - 1]))
  {
    var a := TrimStart(s);
    var r := TrimEnd(a);
    if r != [] {
      assert r[0] == a[0];
    }
  }

  lemma TrimInside(s: string)
    ensures Contains(s, TrimEnd(TrimStart(s)))
  {
    var a := TrimStart(s);
    var r := TrimEnd(a);
    var k := |s| - |a|;
    SliceOfSuffix(s, k, |r|);
    assert OccursAt(s, r, k);
  }

  /** `trim` removes white space only, and only from the two ends of the text. */
  lemma TrimOnlyEdges(s: string)
    ensures exists k :: SpaceAround(s, Trim(s), k)
  {
    TrimAt(s);
    var k := |s| - |TrimStart(s)|;
    assert SpaceAround(s, Trim(s), k);
  }

  /** The trimmed text sits where the leading white space ends. */
  lemma TrimAt(s: string)
    ensures SpaceAround(s, TrimEnd(TrimStart(s)), |s| - |TrimStart(s)|)
  {
    var a := TrimStart(s);
    var r := TrimEnd(a);
    var k := |s| - |a|;
    assert a == s[k..];
    assert r == a[..|r|];
    SliceOfSuffix(s, k, |r|);
    assert s[k..k + |r|] == r;
    assert OccursAt(s, r, k);
    assert forall i :: 0 <= i < k ==> IsSpace(s[i]);
    forall i | k + |r| <= i < |s| ensures IsSpace(s[i]) {
      assert |r| <= i - k < |a|;
      assert a[i - k] == s[i];
    }
  }

  /** Inner white space is kept: `" a b ".trim()` is `"a b"`. */
  lemma TrimKeepsInnerSpace()
    ensures Trim(" a b ") == "a b"
  {
    LeadingSpaceDropped();
    TrailingSpaceDropped();
  }

  lemma LeadingSpaceDropped()
    ensures TrimStart(" a b ") == "a b "
  {
    var s, t := " a b ", "a b ";
    assert s[1..] == t;
    assert IsSpace(s[0]) && !IsSpace(t[0]);
  }

  lemma TrailingSpaceDropped()
    ensures TrimEnd("a b ") == "a b"
  {
    var t, u := "a b ", "a b";
    assert t[..3] == u;
    assert IsSpace(t[3]) && !IsSpace(u[2]);
  }

  lemma SliceOfSuffix(s: string, k: nat, n: nat)
    requires k + n <= |s|
    ensures s[k..][..n] == s[k..k + n]
  {
  }

  lemma TrimOfTrimmed(s: string)
    ensures (s == [] || (!IsSpace(s[0]) && !IsSpace(s[|s| - 1]))) ==> TrimEnd(TrimStart(s)) == s
  {
    if s != [] && !IsSpace(s[0]) && !IsSpace(s[|s| - 1]) {
      assert TrimStart(s) == s;
      assert TrimEnd(s) == s;
    }
  }

  lemma TrimEmpty(s: string)
    ensures TrimEnd(TrimStart(s)) == [] <==> forall i :: 0 <= i < |s| ==> IsSpace(s[i])
  {
    var a := TrimStart(s);
    if TrimEnd(a) == [] {
      if a != [] {
        assert false;
      }
    } else if forall i :: 0 <= i < |s| ==> IsSpace(s[i]) {
      assert false;
    }
  }

  /** `s.indexOf(pat)`: the first position at which `pat` occurs, or None for -1. */
  function IndexOf(s: string, pat: string): (r: Option<nat>)
    ensures r.Some? ==> OccursAt(s, pat, r.value)
    ensures r.Some? ==> forall j :: 0 <= j < r.value ==> !OccursAt(s, pat, j)
    ensures r.None? ==> forall j :: !OccursAt(s, pat, j)
    decreases |s|
  {
    if |s| < |pat| then None
    else if s[..|pat|] == pat then Some(0)
    else
      var r := IndexOf(s[1..], pat);
      ShiftOccurrence(s, pat);
      if r.None? then None else Some(r.value + 1)
  }

  /** The first occurrence is the one `indexOf` reports. */
  lemma FirstOccurrence(s: string, pat: string, n: nat)
    requires OccursAt(s, pat, n)
    requires forall j :: 0 <= j < n ==> !OccursAt(s, pat, j)
    ensures IndexOf(s, pat) == Some(n)
  {
  }

  lemma ShiftOccurrence(s: string, pat: string)
    requires s != []
    ensures forall j :: 1 <= j ==> (OccursAt(s, pat, j) <==> OccursAt(s[1..], pat, j - 1))
  {
    forall j | 1 <= j
      ensures OccursAt(s, pat, j) <==> OccursAt(s[1..], pat, j - 1)
    {
      if j + |pat| <= |s| {
        var a, b := s[j..j + |pat|], s[1..][j - 1..j - 1 + |pat|];
        forall k | 0 <= k < |a| ensures a[k] == b[k] {
          assert a[k] == s[j + k] == b[k];
        }
        assert a == b;
      }
    }
  }

  /** Every suffix of a text occurs in it. */
  lemma ContainsSuffix(s: string, k: nat)
    requires k <= |s|
    ensures Contains(s, s[k..])
  {
    assert s[k..k + |s[k..]|] == s[k..];
    assert OccursAt(s, s[k..], k);
  }

  /** Containment is transitive: whatever occurs in a part occurs in the whole. */
  lemma ContainsTransitive(s: string, t: string, u: string)
    requires Contains(s, t) && Contains(t, u)
    ensures Contains(s, u)
  {
    var i :| 0 <= i <= |s| && OccursAt(s, t, i);
    var j :| 0 <= j <= |t| && OccursAt(t, u, j);
    forall k | 0 <= k < |u| ensures s[i + j + k] == u[k] {
      assert u[k] == t[j + k];
      assert t[j + k] == s[i + j + k];
    }
    assert s[i + j..i + j + |u|] == u;
    assert OccursAt(s, u, i + j);
  }

  predicate IsDigit(c: char) {
    '0' <= c <= '9'
  }

  function DigitChar(d: nat): (c: char)
    requires d < 10
    ensures IsDigit(c)
  {
    "0123456789"[d]
  }

  function DigitValue(c: char): (d: nat)
    requires IsDigit(c)
    ensures d < 10 && DigitChar(d) == c
  {
    (c as int - '0' as int) as nat
  }

  /** `String(n)` for a non-negative integer: its decimal digits, without leading zeros. */
  function NatToString(n: nat): (r: string)
    ensures r != [] && forall i :: 0 <= i < |r| ==> IsDigit(r[i])
    decreases n
  {
    if n < 10 then [DigitChar(n)] else NatToString(n / 10) + [DigitChar(n % 10)]
  }

  /** The number a non-empty run of decimal digits denotes. */
  function DigitsValue(ds: string): nat
    requires forall i :: 0 <= i < |ds| ==> IsDigit(ds[i])
    decreases |ds|
  {
    if ds == [] then 0 else 10 * DigitsValue(ds[..|ds| - 1]) + DigitValue(ds[|ds| - 1])
  }

  /** A digit run is canonical when it has no superfluous leading zero. */
  predicate IsCanonical(ds: string) {
    ds != [] && (ds == "0" || ds[0] != '0')
  }

  /** Reading back the decimal text of a number gives the number, and that text is canonical. */
  lemma {:induction false} NatToStringRoundTrip(n: nat)
    ensures DigitsValue(NatToString(n)) == n
    ensures IsCanonical(NatToString(n))
    decreases n
  {
    var r := NatToString(n);
    if n < 10 {
      assert r == [DigitChar(n)];
      assert DigitValue(DigitChar(n)) == n by {
        assert DigitChar(DigitValue(DigitChar(n))) == DigitChar(n);
        assert "0123456789"[DigitValue(DigitChar(n))] == "0123456789"[n];
      }
      assert r[..0] == [];
    } else {
      NatToStringRoundTrip(n / 10);
      var p := NatToString(n / 10);
      assert r[..|r| - 1] == p;
      assert DigitValue(DigitChar(n % 10)) == n % 10 by {
        assert "0123456789"[DigitValue(DigitChar(n % 10))] == "0123456789"[n % 10];
      }
      assert r[0] == p[0];
      assert p != "0";
    }
  }
}
