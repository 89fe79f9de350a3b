/**
 * lib/chatUI.js, `_preprocessLLMOutput`: the sanitiser a reply goes through before
 * it is rendered. It runs a fixed pipeline of global regular-expression
 * replacements: HTML tags, Markdown table rows, fenced code blocks, inline code,
 * HTML escaping and white-space collapsing, then a final trim. Each replacement is
 * modelled as a left-to-right scan that takes the leftmost match, continues after
 * it, and otherwise keeps one character and moves on, as `String.prototype.replace`
 * with a global pattern does.
 */
module ChatUi {
  import opened Wrappers
  import opened JsStrings

  /** The first position of `c` in `s`. */
  function Find(s: string, c: char): (r: Option<nat>)
    ensures r.Some? <==> c in s
    ensures r.Some? ==> r.value < |s| && s[r.value] == c && c !in s[..r.value]
  {
    if s == [] then None
    else if s[0] == c then Some(0)
    else match Find(s[1..], c)
      case None => None
      case Some(k) =>
        assert s[..k + 1] == [s[0]] + s[1..][..k];
        Some(k + 1)
  }

  /** The last position of `c` in `s`. */
  function LastIndex(s: string, c: char): (r: Option<nat>)
    ensures r.Some? <==> c in s
    ensures r.Some? ==> r.value < |s| && s[r.value] == c && c !in s[r.value + 1..]
  {
    if s == [] then None
    else if s[|s| - 1] == c then Some(|s| - 1)
    else
      var init := s[..|s| - 1];
      assert s == init + [s[|s| - 1]];
      match LastIndex(init, c)
      case None => None
      case Some(k) =>
        assert s[k + 1..] == init[k + 1..] + [s[|s| - 1]];
        Some(k)
  }

  /** Every character of a text contained in `s` is a character of `s`. */
  lemma ContainedChars(s: string, t: string)
    requires Contains(s, t)
    ensures forall i :: 0 <= i < |t| ==> t[i] in s
  {
    var k :| 0 <= k <= |s| && OccursAt(s, t, k);
    forall i | 0 <= i < |t| ensures t[i] in s {
      assert t[i] == s[k + i];
    }
  }

  // ------------------------------------------------------------- HTML tags

  /** `/<[^>]+>/` matches at `i`: a `<`, at least one character that is not `>`, then a `>`. */
  predicate TagOpensAt(s: string, i: int) {
    0 <= i && i + 1 < |s| && s[i] == '<' && s[i + 1] != '>' && '>' in s[i + 2..]
  }

  /** No match of the tag pattern is left anywhere. */
  predicate NoTag(s: string) {
    forall i :: 0 <= i < |s| ==> !TagOpensAt(s, i)
  }

  /** One character in front of a text shifts every tag position by one. */
  lemma ConsNoTag(c: char, t: string)
    requires NoTag(t) && !TagOpensAt([c] + t, 0)
    ensures NoTag([c] + t)
  {
    var s := [c] + t;
    forall i | 1 <= i < |s| ensures !TagOpensAt(s, i) {
      if i + 1 < |s| {
        assert s[i + 2..] == t[i + 1..];
        assert TagOpensAt(s, i) == TagOpensAt(t, i - 1);
      }
    }
  }

  /** `replace(/<[^>]+>/g, '')`. The result holds no tag, and only characters of the input. */
  function StripTags(s: string): (r: string)
    ensures forall i :: 0 <= i < |r| ==> r[i] in s
    ensures '<' !in s ==> r == s
    ensures s != [] && s[0] != '<' ==> r != [] && r[0] == s[0]
    ensures NoTag(r)
    decreases |s|
  {
    if s == [] then []
    else if TagOpensAt(s, 0) then
      var k := Find(s[2..], '>').value;
      var rest := s[k + 3..];
      var r := StripTags(rest);
      assert forall i :: 0 <= i < |rest| ==> rest[i] == s[k + 3 + i];
      r
    else
      var t := StripTags(s[1..]);
      var r := [s[0]] + t;
      assert forall i :: 0 <= i < |t| ==> t[i] in s[1..];
      assert |s| > 1 ==> s[1..] == [s[1]] + s[2..];
      assert |r| > 1 ==> r[2..] == t[1..];
      ConsNoTag(s[0], t);
      r
  }

  // ------------------------------------------------------------ table rows

  /** The characters before the first line terminator: what `.*` can range over. */
  function LineEnd(s: string): (n: nat)
    ensures n <= |s|
    ensures forall i :: 0 <= i < n ==> !IsLineTerminator(s[i])
    ensures n < |s| ==> IsLineTerminator(s[n])
  {
    if s == [] || IsLineTerminator(s[0]) then 0 else 1 + LineEnd(s[1..])
  }

  function LinePart(s: string): string {
    s[..LineEnd(s)]
  }

  /** The first line of `[c] + t`: empty after a line terminator, else `c` then the first line of `t`. */
  lemma LinePartCons(c: char, t: string)
    ensures IsLineTerminator(c) ==> LinePart([c] + t) == []
    ensures !IsLineTerminator(c) ==> LinePart([c] + t) == [c] + LinePart(t)
  {
    assert ([c] + t)[1..] == t;
  }

  /** Position `i` of `r` holds a `|`. */
  predicate BarAt(r: string, i: int) {
    0 <= i < |r| && r[i] == '|'
  }

  /** No `|` in `r` is followed by another `|` on the same line. */
  ghost predicate NoTwoBarsOnALine(r: string) {
    forall i :: BarAt(r, i) ==> '|' !in LinePart(r[i + 1..])
  }

  /** `replace(/\|.*\|/g, '')`: from a `|` to the last `|` on the same line. `StripTablesLines` states what it leaves of each line. */
  function StripTables(s: string): (r: string)
    ensures forall i :: 0 <= i < |r| ==> r[i] in s
    ensures '|' !in s ==> r == s
    decreases |s|
  {
    if s == [] then []
    else if RowEnd(s).Some? then
      var n := RowEnd(s).value;
      var rest := s[n..];
      assert forall i :: 0 <= i < |rest| ==> rest[i] == s[n + i];
      StripTables(rest)
    else
      var t := StripTables(s[1..]);
      assert forall i :: 0 <= i < |t| ==> t[i] in s[1..];
      [s[0]] + t
  }

  /**
   * The length of the row match `\|.*\|` at the front of `s`: up to and including
   * the last `|` on the line of a leading `|`; None when `s` does not start one.
   */
  function RowEnd(s: string): (n: Option<nat>)
    ensures n.Some? <==> s != [] && s[0] == '|' && '|' in LinePart(s[1..])
    ensures n.Some? ==> 2 <= n.value <= |s|
  {
    if s == [] || s[0] != '|' then None
    else
      match LastIndex(LinePart(s[1..]), '|')
      case None => None
      case Some(p) => Some(p + 2)
  }

  /**
   * What the pass leaves of each line: no `|` of the output has another `|` after
   * it on its line, and a `|` on the output's first line comes from a line of the
   * input that had one, since a removal never crosses a line terminator.
   */
  lemma {:induction false} StripTablesLines(s: string)
    ensures '|' in LinePart(StripTables(s)) ==> '|' in LinePart(s)
    ensures NoTwoBarsOnALine(StripTables(s))
    decreases |s|
  {
    if s != [] {
      LinePartCons(s[0], s[1..]);
      assert [s[0]] + s[1..] == s;
      if s[0] == '|' && '|' in LinePart(s[1..]) {
        var p := LastIndex(LinePart(s[1..]), '|').value;
        RowStep(s, p);
        StripTablesLines(s[p + 2..]);
      } else {
        var t := StripTables(s[1..]);
        StripTablesLines(s[1..]);
        CopyStep(s);
        LinePartCons(s[0], t);
        ConsKeepsNoTwoBars(s[0], t);
      }
    }
  }

  /** A first character that starts no row is copied, and the pass goes on after it. */
  lemma CopyStep(s: string)
    requires s != [] && !(s[0] == '|' && '|' in LinePart(s[1..]))
    ensures StripTables(s) == [s[0]] + StripTables(s[1..])
  {
  }

  /** Putting a character in front keeps the property, unless it is a `|` with another `|` on its line. */
  lemma ConsKeepsNoTwoBars(c: char, t: string)
    requires NoTwoBarsOnALine(t)
    requires c == '|' ==> '|' !in LinePart(t)
    ensures NoTwoBarsOnALine([c] + t)
  {
    var r := [c] + t;
    forall i | BarAt(r, i) ensures '|' !in LinePart(r[i + 1..]) {
      if i == 0 {
        assert r[1..] == t;
      } else {
        assert r[i] == t[i - 1] && r[i + 1..] == t[i..];
        assert BarAt(t, i - 1);
      }
    }
  }

  /** The line ending at the first line terminator after `x`. */
  lemma {:induction false} LineEndAt(x: string, nl: char, rest: string)
    requires forall i :: 0 <= i < |x| ==> !IsLineTerminator(x[i])
    requires IsLineTerminator(nl)
    ensures LineEnd(x + [nl] + rest) == |x|
  {
    if x != [] {
      assert (x + [nl] + rest)[1..] == x[1..] + [nl] + rest;
      LineEndAt(x[1..], nl, rest);
    }
  }

  /**
   * A table row (a line that starts with `|` and has a later `|`) disappears up to
   * its last `|`; the line break after it stays.
   */
  lemma TableRowRemoved(x: string, nl: char, rest: string)
    requires forall i :: 0 <= i < |x| ==> !IsLineTerminator(x[i])
    requires IsLineTerminator(nl)
    ensures StripTables(['|'] + x + ['|'] + [nl] + rest) == [nl] + StripTables(rest)
  {
    var s := ['|'] + x + ['|'] + [nl] + rest;
    var line := x + ['|'];
    assert s[1..] == line + [nl] + rest;
    LineEndAt(line, nl, rest);
    assert LinePart(s[1..]) == line;
    assert LastIndex(line, '|') == Some(|x|);
    assert StripTables(s) == StripTables(s[|x| + 2..]);
    assert s[|x| + 2..] == [nl] + rest;
    StripTablesCons(nl, rest);
  }

  /** Text without a line terminator ends its line at its end. */
  lemma {:induction false} LineEndOfLine(t: string)
    requires forall i :: 0 <= i < |t| ==> !IsLineTerminator(t[i])
    ensures LineEnd(t) == |t|
  {
    if t != [] {
      LineEndOfLine(t[1..]);
    }
  }

  /** A table row at the very end of the text, with nothing after its last `|`, disappears too. */
  lemma FinalRowRemoved(x: string)
    requires forall i :: 0 <= i < |x| ==> !IsLineTerminator(x[i])
    ensures StripTables(['|'] + x + ['|']) == []
  {
    var s := ['|'] + x + ['|'];
    LastBarOfFinalRow(x);
    RowStep(s, |x|);
    assert s[|x| + 2..] == [];
  }

  /** In a final row the last `|` of the line after the first is its closing one. */
  lemma LastBarOfFinalRow(x: string)
    requires forall i :: 0 <= i < |x| ==> !IsLineTerminator(x[i])
    ensures LastIndex(LinePart((['|'] + x + ['|'])[1..]), '|') == Some(|x|)
  {
    var line := x + ['|'];
    assert (['|'] + x + ['|'])[1..] == line;
    LineEndOfLine(line);
    assert LinePart(line) == line;
  }

  /** A row starting at the front is dropped up to the last `|` of its line, and the pass goes on after it. */
  lemma RowStep(s: string, p: nat)
    requires s != [] && s[0] == '|'
    requires LastIndex(LinePart(s[1..]), '|') == Some(p)
    ensures p + 2 <= |s| && StripTables(s) == StripTables(s[p + 2..])
  {
    assert RowEnd(s) == Some(p + 2);
  }

  /** A `|` with no other `|` after it on its line is kept. */
  lemma LoneBarKept(x: string)
    requires '|' !in LinePart(x)
    ensures StripTables(['|'] + x) == ['|'] + StripTables(x)
  {
    assert (['|'] + x)[1..] == x;
  }

  /** A character other than `|` is kept as it is. */
  lemma StripTablesCons(c: char, t: string)
    requires c != '|'
    ensures StripTables([c] + t) == [c] + StripTables(t)
  {
    assert ([c] + t)[1..] == t;
  }

  // ------------------------------------------------------------- code spans

  const Fence := "```"
  const CodeBlockText := "[code block removed]"
  const InlineCodeText := "[code]"

  /** `replace(/```[\s\S]*?```/g, '[code block removed]')`: a fence up to the nearest closing fence. */
  function StripCodeBlocks(s: string): (r: string)
    ensures '`' !in s ==> r == s
    decreases |s|
  {
    if OpensBlock(s) then
      var k := IndexOf(s[3..], Fence).value;
      CodeBlockText + StripCodeBlocks(s[k + 6..])
    else if s == [] then []
    else
      assert '`' !in s ==> '`' !in s[1..];
      [s[0]] + StripCodeBlocks(s[1..])
  }

  /** `s` starts with a fence that a later fence closes: a match of the lazy block pattern. */
  predicate OpensBlock(s: string) {
    |s| >= 3 && s[..3] == Fence && IndexOf(s[3..], Fence).Some?
  }

  /** A first character that opens no block, such as a fence never closed, is copied and the pass goes on after it. */
  lemma StripCodeBlocksCons(c: char, t: string)
    requires !OpensBlock([c] + t)
    ensures StripCodeBlocks([c] + t) == [c] + StripCodeBlocks(t)
  {
    assert ([c] + t)[1..] == t;
  }

  /**
   * A fenced block is replaced by the placeholder, body and fences included, when
   * the closing fence is the first fence after the opening one: the body may hold
   * backticks, but no fence starts inside it.
   */
  lemma CodeBlockReplaced(body: string, rest: string)
    requires forall j :: 0 <= j < |body| ==> !OccursAt(body + Fence, Fence, j)
    ensures StripCodeBlocks(Fence + body + Fence + rest) == CodeBlockText + StripCodeBlocks(rest)
  {
    var s := Fence + body + Fence + rest;
    var t := body + Fence + rest;
    assert s[..3] == Fence && s[3..] == t;
    assert OccursAt(t, Fence, |body|) by { assert t[|body|..|body| + 3] == Fence; }
    var u := body + Fence;
    assert t == u + rest;
    forall j | 0 <= j < |body| ensures !OccursAt(t, Fence, j) {
      assert t[j..j + 3] == u[j..j + 3];
      assert !OccursAt(u, Fence, j);
    }
    assert IndexOf(t, Fence) == Some(|body|);
    assert s[|body| + 6..] == rest;
  }

  /** A block whose body holds inline code, such as "a `b` c", is replaced too. */
  lemma CodeBlockWithInlineCode(rest: string)
    ensures StripCodeBlocks(Fence + "a `b` c" + Fence + rest) == CodeBlockText + StripCodeBlocks(rest)
  {
    var body := "a `b` c";
    var w := body + Fence;
    assert w == "a `b` c```";
    forall j | 0 <= j < |body| ensures !OccursAt(w, Fence, j) {
      assert w[j] != '`' || w[j + 1] != '`';
      assert w[j..j + 3][0] == w[j] && w[j..j + 3][1] == w[j + 1];
    }
    CodeBlockReplaced(body, rest);
  }

  /** `replace(/`[^`]+`/g, '[code]')`: a backtick, at least one other character, a backtick. */
  function StripInlineCode(s: string): (r: string)
    ensures '`' !in s ==> r == s
    decreases |s|
  {
    if s == [] then []
    else if OpensInlineCode(s) then
      var k := Find(s[2..], '`').value;
      InlineCodeText + StripInlineCode(s[k + 3..])
    else
      assert '`' !in s ==> '`' !in s[1..];
      [s[0]] + StripInlineCode(s[1..])
  }

  /** `s` starts with a backtick, a character other than a backtick, and has a later backtick: a match of the inline pattern. */
  predicate OpensInlineCode(s: string) {
    |s| > 1 && s[0] == '`' && s[1] != '`' && '`' in s[2..]
  }

  /** A first character that opens no span, such as a doubled or an unclosed backtick, is copied and the pass goes on after it. */
  lemma StripInlineCodeCons(c: char, t: string)
    requires !OpensInlineCode([c] + t)
    ensures StripInlineCode([c] + t) == [c] + StripInlineCode(t)
  {
    assert ([c] + t)[1..] == t;
  }

  /** A backtick-quoted span without backticks inside is replaced by the placeholder. */
  lemma InlineCodeReplaced(x: string, rest: string)
    requires x != [] && '`' !in x
    ensures StripInlineCode(['`'] + x + ['`'] + rest) == InlineCodeText + StripInlineCode(rest)
  {
    var s := ['`'] + x + ['`'] + rest;
    assert s[1] == x[0];
    assert s[2..] == x[1..] + ['`'] + rest;
    FindAfter(x[1..], '`', rest);
    assert s[|x| + 2..] == rest;
  }

  /** The first `c` after a stretch without one is found just after that stretch. */
  lemma {:induction false} FindAfter(y: string, c: char, rest: string)
    requires c !in y
    ensures Find(y + [c] + rest, c) == Some(|y|)
  {
    if y != [] {
      assert (y + [c] + rest)[1..] == y[1..] + [c] + rest;
      FindAfter(y[1..], c, rest);
    }
  }

  // ------------------------------------------------------------- escaping

  /** `replace(/c/g, rep)` for a single character `c`. */
  function ReplaceChar(s: string, c: char, rep: string): (r: string)
    ensures c !in rep ==> c !in r
    ensures c !in s ==> r == s
  {
    if s == [] then []
    else (if s[0] == c then rep else [s[0]]) + ReplaceChar(s[1..], c, rep)
  }

  lemma {:induction false} ReplaceCharAppend(a: string, b: string, c: char, rep: string)
    ensures ReplaceChar(a + b, c, rep) == ReplaceChar(a, c, rep) + ReplaceChar(b, c, rep)
  {
    if a != [] {
      var h := if a[0] == c then rep else [a[0]];
      assert (a + b)[0] == a[0] && (a + b)[1..] == a[1..] + b;
      assert ReplaceChar(a + b, c, rep) == h + ReplaceChar(a[1..] + b, c, rep);
      ReplaceCharAppend(a[1..], b, c, rep);
      assert ReplaceChar(a, c, rep) == h + ReplaceChar(a[1..], c, rep);
      SeqAssoc(h, ReplaceChar(a[1..], c, rep), ReplaceChar(b, c, rep));
    } else {
      assert a + b == b;
    }
  }

  lemma SeqAssoc(x: string, y: string, z: string)
    ensures x + (y + z) == (x + y) + z
  {
  }

  /** The three escaping passes in the order the sanitiser runs them. */
  function EscapePasses(s: string): string {
    ReplaceChar(ReplaceChar(ReplaceChar(s, '&', "&amp;"), '<', "&lt;"), '>', "&gt;")
  }

  /** HTML escaping of one character. */
  function EscapeChar(c: char): string {
    if c == '&' then "&amp;" else if c == '<' then "&lt;" else if c == '>' then "&gt;" else [c]
  }

  /** HTML escaping, character by character: the reference the passes are held to. */
  function EscapeHtml(s: string): (r: string)
    ensures '<' !in r && '>' !in r
  {
    if s == [] then [] else EscapeChar(s[0]) + EscapeHtml(s[1..])
  }

  /** The passes distribute over concatenation. */
  lemma EscapePassesAppend(a: string, b: string)
    ensures EscapePasses(a + b) == EscapePasses(a) + EscapePasses(b)
  {
    ReplaceCharAppend(a, b, '&', "&amp;");
    var a1 := ReplaceChar(a, '&', "&amp;");
    var b1 := ReplaceChar(b, '&', "&amp;");
    ReplaceCharAppend(a1, b1, '<', "&lt;");
    ReplaceCharAppend(ReplaceChar(a1, '<', "&lt;"), ReplaceChar(b1, '<', "&lt;"), '>', "&gt;");
  }

  /** On one character a pass gives the replacement or the character itself. */
  lemma ReplaceCharSingle(x: char, c: char, rep: string)
    ensures ReplaceChar([x], c, rep) == if x == c then rep else [x]
  {
    assert [x][1..] == [];
  }

  /** On one character the passes produce its escape. */
  lemma EscapePassesChar(c: char)
    ensures EscapePasses([c]) == EscapeChar(c)
  {
    ReplaceCharSingle(c, '&', "&amp;");
    if c == '&' {
      assert '<' !in "&amp;" && '>' !in "&amp;";
    } else {
      ReplaceCharSingle(c, '<', "&lt;");
      if c == '<' {
        assert '>' !in "&lt;";
      } else {
        ReplaceCharSingle(c, '>', "&gt;");
      }
    }
  }

  /**
   * Because `&` is escaped first, the three passes escape every character exactly
   * once: the entities the later passes produce are not escaped again.
   */
  lemma {:induction false} EscapePassesEscapeOnce(s: string)
    ensures EscapePasses(s) == EscapeHtml(s)
  {
    if s != [] {
      assert s == [s[0]] + s[1..];
      EscapePassesAppend([s[0]], s[1..]);
      EscapePassesChar(s[0]);
      EscapePassesEscapeOnce(s[1..]);
    }
  }

  /** Decoding of the three entities the sanitiser produces. */
  function UnescapeHtml(t: string): string
    decreases |t|
  {
    if t == [] then []
    else if |t| >= 5 && t[..5] == "&amp;" then "&" + UnescapeHtml(t[5..])
    else if |t| >= 4 && t[..4] == "&lt;" then "<" + UnescapeHtml(t[4..])
    else if |t| >= 4 && t[..4] == "&gt;" then ">" + UnescapeHtml(t[4..])
    else [t[0]] + UnescapeHtml(t[1..])
  }

  /** Decoding reads one escaped character back off the front. */
  lemma UnescapeHead(c: char, rest: string)
    ensures UnescapeHtml(EscapeChar(c) + rest) == [c] + UnescapeHtml(rest)
  {
    var t := EscapeChar(c) + rest;
    if c == '&' {
      assert t[..5] == "&amp;" && t[5..] == rest;
    } else if c == '<' {
      assert |t| >= 5 ==> t[..5][1] == 'l';
      assert t[..4] == "&lt;" && t[4..] == rest;
    } else if c == '>' {
      assert |t| >= 5 ==> t[..5][1] == 'g';
      assert t[..4][1] == 'g';
      assert t[..4] == "&gt;" && t[4..] == rest;
    } else {
      assert t[0] == c && t[1..] == rest;
    }
  }

  /** Escaping loses nothing: the escaped text decodes to the original. */
  lemma {:induction false} EscapeRoundTrip(s: string)
    ensures UnescapeHtml(EscapeHtml(s)) == s
  {
    if s != [] {
      UnescapeHead(s[0], EscapeHtml(s[1..]));
      EscapeRoundTrip(s[1..]);
      assert s == [s[0]] + s[1..];
    }
  }

  // ----------------------------------------------------------- white space

  /** The number of white-space characters `s` starts with. */
  function RunLength(s: string): (n: nat)
    ensures n <= |s|
    ensures forall i :: 0 <= i < n ==> IsSpace(s[i])
    ensures n < |s| ==> !IsSpace(s[n])
  {
    if s != [] && IsSpace(s[0]) then 1 + RunLength(s[1..]) else 0
  }

  /** No run of three or more white-space characters starts anywhere. */
  predicate NoLongRun(s: string) {
    forall i :: 0 <= i < |s| ==> RunLength(s[i..]) < 3
  }

  lemma ConsRun(c: char, t: string)
    ensures RunLength([c] + t) == if IsSpace(c) then 1 + RunLength(t) else 0
    ensures NoLongRun(t) && RunLength([c] + t) < 3 ==> NoLongRun([c] + t)
  {
    var s := [c] + t;
    assert s[1..] == t;
    forall i | 1 <= i < |s| ensures s[i..] == t[i - 1..] {
    }
  }

  /** `replace(/\s{3,}/g, '  ')`: every maximal run of three or more white-space characters becomes two spaces. */
  function Collapse(s: string): (r: string)
    ensures NoLongRun(r)
    ensures RunLength(r) == if RunLength(s) < 2 then RunLength(s) else 2
    ensures forall i :: 0 <= i < |r| ==> r[i] == ' ' || r[i] in s
    ensures NoLongRun(s) ==> r == s
    decreases |s|
  {
    if s == [] then []
    else
      var n := RunLength(s);
      if n >= 3 then
        var t := Collapse(s[n..]);
        CollapseLongStep(s, n, t);
        "  " + t
      else
        var t := Collapse(s[1..]);
        CollapseShortStep(s, t);
        [s[0]] + t
  }

  /** The step of `Collapse` that replaces a long run, given what the rest gives. */
  lemma CollapseLongStep(s: string, n: nat, t: string)
    requires n == RunLength(s) && n >= 3
    requires NoLongRun(t) && RunLength(t) == 0
    requires forall i :: 0 <= i < |t| ==> t[i] == ' ' || t[i] in s[n..]
    ensures NoLongRun("  " + t) && RunLength("  " + t) == 2
    ensures forall i :: 0 <= i < |"  " + t| ==> ("  " + t)[i] == ' ' || ("  " + t)[i] in s
    ensures !NoLongRun(s)
  {
    ConsRun(' ', t);
    ConsRun(' ', [' '] + t);
    assert "  " + t == [' '] + ([' '] + t);
    forall i | 0 <= i < |t| ensures t[i] == ' ' || t[i] in s {
      if t[i] != ' ' {
        var j :| 0 <= j < |s[n..]| && s[n..][j] == t[i];
        assert s[n + j] == t[i];
      }
    }
    assert s[0..] == s;
  }

  /** The step of `Collapse` that keeps one character, given what the rest gives. */
  lemma CollapseShortStep(s: string, t: string)
    requires s != [] && RunLength(s) < 3
    requires NoLongRun(t)
    requires RunLength(t) == if RunLength(s[1..]) < 2 then RunLength(s[1..]) else 2
    requires forall i :: 0 <= i < |t| ==> t[i] == ' ' || t[i] in s[1..]
    requires NoLongRun(s[1..]) ==> t == s[1..]
    ensures NoLongRun([s[0]] + t)
    ensures RunLength([s[0]] + t) == RunLength(s)
    ensures forall i :: 0 <= i < |[s[0]] + t| ==> ([s[0]] + t)[i] == ' ' || ([s[0]] + t)[i] in s
    ensures NoLongRun(s) ==> [s[0]] + t == s
  {
    assert s == [s[0]] + s[1..];
    ConsRun(s[0], s[1..]);
    ConsRun(s[0], t);
    forall i | 0 <= i < |t| ensures t[i] == ' ' || t[i] in s {
      if t[i] != ' ' {
        var j :| 0 <= j < |s[1..]| && s[1..][j] == t[i];
        assert s[1 + j] == t[i];
      }
    }
    if NoLongRun(s) {
      forall i | 0 <= i < |s[1..]| ensures RunLength(s[1..][i..]) < 3 {
        assert s[1..][i..] == s[i + 1..];
      }
    }
  }

  /**
   * A character that starts no run of three is kept, and the pass goes on after it;
   * with `CollapseRun` this fixes the result on every input.
   */
  lemma CollapseCopies(c: char, t: string)
    requires RunLength([c] + t) < 3
    ensures Collapse([c] + t) == [c] + Collapse(t)
  {
    assert ([c] + t)[1..] == t;
  }

  /** A run of three or more white-space characters before a non-space becomes exactly two spaces. */
  lemma CollapseRun(w: string, rest: string)
    requires |w| >= 3 && forall i :: 0 <= i < |w| ==> IsSpace(w[i])
    requires rest == [] || !IsSpace(rest[0])
    ensures Collapse(w + rest) == "  " + Collapse(rest)
  {
    RunLengthOf(w, rest);
    assert (w + rest)[|w|..] == rest;
  }

  /** A stretch of white space followed by a non-space is a run of exactly its length. */
  lemma {:induction false} RunLengthOf(w: string, rest: string)
    requires forall i :: 0 <= i < |w| ==> IsSpace(w[i])
    requires rest == [] || !IsSpace(rest[0])
    ensures RunLength(w + rest) == |w|
  {
    if w != [] {
      assert (w + rest)[1..] == w[1..] + rest;
      RunLengthOf(w[1..], rest);
    } else {
      assert w + rest == rest;
    }
  }

  /** A run cannot be longer in a prefix than in the whole. */
  lemma {:induction false} RunLengthPrefix(s: string, k: nat)
    requires k <= |s|
    ensures RunLength(s[..k]) <= RunLength(s)
  {
    if k > 0 && IsSpace(s[0]) {
      assert s[..k][1..] == s[1..][..k - 1];
      RunLengthPrefix(s[1..], k - 1);
    }
  }

  /** A text without long runs has none in any part of it. */
  lemma NoLongRunInfix(s: string, a: nat, b: nat)
    requires a <= b <= |s| && NoLongRun(s)
    ensures NoLongRun(s[a..b])
  {
    var t := s[a..b];
    forall i | 0 <= i < |t| ensures RunLength(t[i..]) < 3 {
      InfixRunAt(s, a, b, i);
    }
  }

  /** A run inside a part of a text is no longer than the run at the same place in the text. */
  lemma InfixRunAt(s: string, a: nat, b: nat, i: nat)
    requires a + i < b <= |s|
    ensures RunLength(s[a..b][i..]) <= RunLength(s[a + i..])
  {
    assert s[a..b][i..] == s[a + i..][..b - a - i];
    RunLengthPrefix(s[a + i..], b - a - i);
  }

  // -------------------------------------------------------------- pipeline

  /** `_preprocessLLMOutput(text)`; a missing text is None. */
  function Sanitize(text: Option<string>): string {
    if text.None? || text.value == "" then ""
    else
      var noTags := StripTags(text.value);
      var noTables := StripTables(noTags);
      var noBlocks := StripCodeBlocks(noTables);
      var noInline := StripInlineCode(noBlocks);
      var escaped := EscapePasses(noInline);
      Trim(Collapse(escaped))
  }

  /** The pipeline up to the trim, named so the lemmas can refer to it. */
  function Collapsed(s: string): string {
    Collapse(EscapePasses(StripInlineCode(StripCodeBlocks(StripTables(StripTags(s))))))
  }

  lemma SanitizeIsTrimmedCollapse(s: string)
    requires s != ""
    ensures Sanitize(Some(s)) == Trim(Collapsed(s))
  {
  }

  /** A missing or empty text gives the empty string. */
  lemma SanitizeEmpty()
    ensures Sanitize(None) == "" && Sanitize(Some("")) == ""
  {
  }

  /** Before the trim, the text holds no angle bracket and no run of three white-space characters. */
  lemma CollapsedOutput(s: string)
    ensures forall i :: 0 <= i < |Collapsed(s)| ==> Collapsed(s)[i] != '<' && Collapsed(s)[i] != '>'
    ensures NoLongRun(Collapsed(s))
  {
    var inline := StripInlineCode(StripCodeBlocks(StripTables(StripTags(s))));
    var escaped := EscapePasses(inline);
    EscapePassesEscapeOnce(inline);
    assert '<' !in escaped && '>' !in escaped;
    var c := Collapse(escaped);
    assert c == Collapsed(s);
    forall i | 0 <= i < |c| ensures c[i] != '<' && c[i] != '>' {
      assert c[i] == ' ' || c[i] in escaped;
    }
  }

  /** The output properties of a text carry over to its trimmed form. */
  predicate CleanOutput(r: string) {
    && (forall i :: 0 <= i < |r| ==> r[i] != '<' && r[i] != '>')
    && NoLongRun(r)
  }

  lemma TrimKeepsClean(c: string)
    requires CleanOutput(c)
    ensures CleanOutput(Trim(c))
  {
    var a, b := TrimIsSlice(c);
    InfixKeepsClean(c, a, b);
  }

  /** Where the trimmed text sits inside the original. */
  lemma TrimIsSlice(c: string) returns (a: nat, b: nat)
    ensures a <= b <= |c| && Trim(c) == c[a..b]
  {
    var r := TrimEnd(TrimStart(c));
    assert Trim(c) == r;
    TrimAt(c);
    a := |c| - |TrimStart(c)|;
    b := a + |r|;
  }

  lemma InfixKeepsClean(c: string, a: nat, b: nat)
    requires a <= b <= |c| && CleanOutput(c)
    ensures CleanOutput(c[a..b])
  {
    var r := c[a..b];
    forall i | 0 <= i < |r| ensures r[i] != '<' && r[i] != '>' {
      assert r[i] == c[a + i];
    }
    NoLongRunInfix(c, a, b);
  }

  /**
   * The result holds no angle bracket, has no white space at either end and no
   * run of three white-space characters.
   */
  lemma SanitizeOutput(text: Option<string>)
    ensures CleanOutput(Sanitize(text))
    ensures var r := Sanitize(text); r == [] || (!IsSpace(r[0]) && !IsSpace(r[|r| - 1]))
  {
    if text.Some? && text.value != "" {
      SanitizeIsTrimmedCollapse(text.value);
      CollapsedOutput(text.value);
      TrimKeepsClean(Collapsed(text.value));
    }
  }

  /** A text with nothing for the sanitiser to act on comes back unchanged. */
  lemma SanitizePlain(s: string)
    requires s != ""
    requires forall i :: 0 <= i < |s| ==> s[i] !in "<>|`&"
    requires NoLongRun(s) && !IsSpace(s[0]) && !IsSpace(s[|s| - 1])
    ensures Sanitize(Some(s)) == s
  {
    assert '<' !in s && '|' !in s && '`' !in s && '&' !in s && '>' !in s by {
      forall i | 0 <= i < |s| ensures s[i] != '<' && s[i] != '|' && s[i] != '`' && s[i] != '&' && s[i] != '>' {
        assert s[i] !in "<>|`&";
      }
    }
    SanitizeIsTrimmedCollapse(s);
  }

  /** A character other than `<` is kept as it is by the tag pass. */
  lemma StripTagsCons(c: char, t: string)
    requires c != '<'
    ensures StripTags([c] + t) == [c] + StripTags(t)
  {
    assert ([c] + t)[1..] == t;
  }

  /** A tag followed by more text disappears whole. */
  lemma TagRemoved(tag: string, rest: string)
    requires tag != [] && '>' !in tag && tag[0] != '>'
    ensures StripTags(['<'] + tag + ['>'] + rest) == StripTags(rest)
  {
    var s := ['<'] + tag + ['>'] + rest;
    assert s[2..] == tag[1..] + ['>'] + rest;
    assert '>' in s[2..] by { assert s[2..][|tag| - 1] == '>'; }
    assert TagOpensAt(s, 0);
    FindAfter(tag[1..], '>', rest);
    assert s[|tag| + 2..] == rest;
  }

  /**
   * Tags go before code is matched: a tag inside backticks is removed first, and
   * the now-empty backtick pair is no longer inline code.
   */
  lemma TagsBeforeInlineCode(tag: string)
    requires tag != [] && '>' !in tag && '<' !in tag && '`' !in tag
    ensures Sanitize(Some(['`', '<'] + tag + ['>', '`'])) == "``"
  {
    var s := ['`', '<'] + tag + ['>', '`'];
    TagInsidePair(tag);
    SanitizeIsTrimmedCollapse(s);
    BacktickPairSurvives();
  }

  lemma TagInsidePair(tag: string)
    requires tag != [] && '>' !in tag && '<' !in tag && '`' !in tag
    ensures StripTags(['`', '<'] + tag + ['>', '`']) == "``"
  {
    var s := ['`', '<'] + tag + ['>', '`'];
    assert s == ['`'] + (['<'] + tag + ['>'] + "`");
    StripTagsCons('`', ['<'] + tag + ['>'] + "`");
    TagRemoved(tag, "`");
    assert StripTags("`") == "`" by {
      assert "`"[1..] == [];
    }
  }

  /** A bare pair of backticks passes every later stage unchanged. */
  lemma BacktickPairSurvives()
    ensures Collapse(EscapePasses(StripInlineCode(StripCodeBlocks(StripTables("``"))))) == "``"
    ensures Trim("``") == "``"
  {
    assert '|' !in "``";
    PairIsNoCode();
    assert '&' !in "``" && '<' !in "``" && '>' !in "``";
    PairHasNoRun();
    PairIsTrimmed();
  }

  lemma PairIsTrimmed()
    ensures Trim("``") == "``"
  {
    assert !IsSpace('`');
  }

  /** Two backticks are neither a fence nor an inline span. */
  lemma PairIsNoCode()
    ensures StripCodeBlocks("``") == "``" && StripInlineCode("``") == "``"
  {
    var s := "``";
    assert s[1..] == "`" && "`"[1..] == [];
    assert StripCodeBlocks("`") == "`";
    assert StripInlineCode("`") == "`";
  }

  lemma PairHasNoRun()
    ensures NoLongRun("``")
  {
    var s := "``";
    assert s[1..] == "`";
    assert RunLength(s) == 0;
    assert RunLength(s[1..]) == 0;
  }
}
