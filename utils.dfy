/**
 * `formatString(format, ...args)` of lib/utils.js: every `{n}` placeholder (a brace,
 * one or more decimal digits, a brace) is replaced by the n-th argument, in one
 * left-to-right pass of `replace(/{(\d+)}/g, ...)`.
 */
module Utils {
  import opened JsStrings

  /** The number of decimal digits `s` starts with: what a greedy `\d+` takes. */
  function DigitRun(s: string): (n: nat)
    ensures n <= |s|
    ensures forall i :: 0 <= i < n ==> IsDigit(s[i])
    ensures n < |s| ==> !IsDigit(s[n])
  {
    if s != [] && IsDigit(s[0]) then 1 + DigitRun(s[1..]) else 0
  }

  /** The text of the placeholder for index `n`. */
  function Placeholder(n: nat): string {
    "{" + NatToString(n) + "}"
  }

  /**
   * The replacement for a matched placeholder with digits `ds`. The lookup
   * `args[index]` uses the digits as a property name, so only a canonical index
   * (no superfluous leading zero) below the argument count names an argument;
   * anything else is undefined and the match is kept.
   */
  function Argument(ds: string, args: seq<string>): (r: string)
    requires forall i :: 0 <= i < |ds| ==> IsDigit(ds[i])
  {
    if IsCanonical(ds) && DigitsValue(ds) < |args| then args[DigitsValue(ds)] else "{" + ds + "}"
  }

  /** `formatString(s, ...args)`. */
  function Format(s: string, args: seq<string>): string
    decreases |s|
  {
    if s == [] then []
    else if MatchesHead(s) then
      var n := DigitRun(s[1..]);
      Argument(s[1..n + 1], args) + Format(s[n + 2..], args)
    else
      [s[0]] + Format(s[1..], args)
  }

  /** `s` starts with a match of `{(\d+)}`: a brace, a run of digits and a closing brace. */
  predicate MatchesHead(s: string) {
    s != [] && s[0] == '{' && var n := DigitRun(s[1..]); 0 < n && n + 1 < |s| && s[n + 1] == '}'
  }

  /** The digits of a number end where a non-digit starts. */
  lemma {:induction false} DigitRunOf(ds: string, rest: string)
    requires forall i :: 0 <= i < |ds| ==> IsDigit(ds[i])
    requires rest == [] || !IsDigit(rest[0])
    ensures DigitRun(ds + rest) == |ds|
  {
    if ds != [] {
      assert (ds + rest)[1..] == ds[1..] + rest;
      DigitRunOf(ds[1..], rest);
    } else {
      assert ds + rest == rest;
    }
  }

  /** A brace around a run of digits is one match, whatever the lookup gives. */
  lemma MatchAt(ds: string, rest: string, args: seq<string>)
    requires ds != [] && forall i :: 0 <= i < |ds| ==> IsDigit(ds[i])
    ensures Format("{" + ds + "}" + rest, args) == Argument(ds, args) + Format(rest, args)
  {
    var s := "{" + ds + "}" + rest;
    assert s[1..] == ds + ("}" + rest);
    DigitRunOf(ds, "}" + rest);
    assert s[1..|ds| + 1] == ds;
    assert s[|ds| + 2..] == rest;
  }

  /** `{n}` with an argument at position n becomes that argument; the argument itself is not scanned again. */
  lemma PlaceholderReplaced(n: nat, rest: string, args: seq<string>)
    requires n < |args|
    ensures Format(Placeholder(n) + rest, args) == args[n] + Format(rest, args)
  {
    NatToStringRoundTrip(n);
    MatchAt(NatToString(n), rest, args);
  }

  /** `{n}` with no argument at position n is left as it is. */
  lemma MissingArgumentKept(n: nat, rest: string, args: seq<string>)
    requires |args| <= n
    ensures Format(Placeholder(n) + rest, args) == Placeholder(n) + Format(rest, args)
  {
    NatToStringRoundTrip(n);
    MatchAt(NatToString(n), rest, args);
  }

  /** Digits with a leading zero (`{01}`) name no argument and are kept, whatever the arguments. */
  lemma LeadingZeroKept(ds: string, rest: string, args: seq<string>)
    requires |ds| >= 2 && ds[0] == '0' && forall i :: 0 <= i < |ds| ==> IsDigit(ds[i])
    ensures Format("{" + ds + "}" + rest, args) == "{" + ds + "}" + Format(rest, args)
  {
    MatchAt(ds, rest, args);
  }

  /** A first character that is not a brace, or a brace that opens no placeholder, is copied. */
  lemma FormatCopiesHead(s: string, args: seq<string>)
    requires s != [] && !MatchesHead(s)
    ensures Format(s, args) == [s[0]] + Format(s[1..], args)
  {
  }

  /** Text without an opening brace is copied, and formatting carries on after it; in particular a text without one is returned unchanged. */
  lemma {:induction false} PlainPrefix(a: string, rest: string, args: seq<string>)
    requires forall i :: 0 <= i < |a| ==> a[i] != '{'
    ensures Format(a + rest, args) == a + Format(rest, args)
  {
    if a != [] {
      var s := a + rest;
      assert s[0] == a[0] && s[1..] == a[1..] + rest;
      FormatCopiesHead(s, args);
      assert forall i :: 0 <= i < |a[1..]| ==> a[1..][i] == a[i + 1];
      PlainPrefix(a[1..], rest, args);
      assert [a[0]] + (a[1..] + Format(rest, args)) == ([a[0]] + a[1..]) + Format(rest, args);
      assert [a[0]] + a[1..] == a;
    } else {
      assert a + rest == rest;
    }
  }

  /**
   * A brace that does not start a match (no digit after it, or digits not closed
   * by a brace, as in `{12x` or a trailing `{12`) is copied as it is.
   */
  lemma BraceWithoutDigitsKept(rest: string, args: seq<string>)
    requires !MatchesHead("{" + rest)
    ensures Format("{" + rest, args) == "{" + Format(rest, args)
  {
    var s := "{" + rest;
    FormatCopiesHead(s, args);
    assert s[1..] == rest;
  }

  /** A text in which no position starts a `{digits}` match is returned unchanged, whatever the arguments. */
  lemma {:induction false} NoPlaceholderUnchanged(s: string, args: seq<string>)
    requires forall i :: 0 <= i < |s| ==> !MatchesHead(s[i..])
    ensures Format(s, args) == s
    decreases |s|
  {
    if s != [] {
      forall i | 0 <= i < |s[1..]| ensures !MatchesHead(s[1..][i..]) {
        assert s[1..][i..] == s[i + 1..];
      }
      NoPlaceholderUnchanged(s[1..], args);
      assert s[0..] == s;
      FormatCopiesHead(s, args);
      assert s == [s[0]] + s[1..];
    }
  }

  /** With no arguments every placeholder stays, so nothing changes at all. */
  lemma {:induction false} NoArgumentsNoChange(s: string)
    ensures Format(s, []) == s
    decreases |s|
  {
    if s != [] {
      if MatchesHead(s) {
        NoArgumentsNoChange(s[DigitRun(s[1..]) + 2..]);
        KeptMatchStep(s);
      } else {
        NoArgumentsNoChange(s[1..]);
        CopyStep(s);
      }
    }
  }

  /** With no arguments, a text whose rest is unchanged after a leading placeholder is unchanged. */
  lemma KeptMatchStep(s: string)
    requires MatchesHead(s)
    requires var n := DigitRun(s[1..]); Format(s[n + 2..], []) == s[n + 2..]
    ensures Format(s, []) == s
  {
    var n := DigitRun(s[1..]);
    assert Argument(s[1..n + 1], []) == "{" + s[1..n + 1] + "}";
    Reassemble(s, n);
  }

  /** A text whose rest is unchanged after a copied first character is unchanged. */
  lemma CopyStep(s: string)
    requires s != [] && !MatchesHead(s) && Format(s[1..], []) == s[1..]
    ensures Format(s, []) == s
  {
    FormatCopiesHead(s, []);
    assert s == [s[0]] + s[1..];
  }

  /** A placeholder at the front of a text, put back together with what follows it. */
  lemma Reassemble(s: string, n: nat)
    requires 0 < n && n + 1 < |s| && s[0] == '{' && s[n + 1] == '}'
    ensures "{" + s[1..n + 1] + "}" + s[n + 2..] == s
  {
    var t := "{" + s[1..n + 1] + "}" + s[n + 2..];
    assert |t| == |s|;
    forall i | 0 <= i < |s| ensures t[i] == s[i] {
      if i == 0 {
      } else if i <= n {
        assert t[i] == s[1..n + 1][i - 1];
      } else if i == n + 1 {
      } else {
        assert t[i] == s[n + 2..][i - n - 2];
      }
    }
  }
}
