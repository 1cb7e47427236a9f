/**
 * `ContentRepository::htmlToText`: a unit's rich-text explanation turned into
 * one line of plain text.  Four regular-expression passes rewrite tags, entities
 * are decoded, newline runs and then whitespace runs are collapsed, and the
 * result is trimmed.  The tag passes are modelled as left-to-right scans that
 * try the pattern at each position, as `preg_replace` does; the entity decoder
 * (`html_entity_decode`) is a parameter, since its tables are not modelled.
 */
module HtmlText {
  import opened PhpStrings

  /** The tag patterns, in the order `htmlToText` applies them. */
  datatype TagPattern =
    | ListItemOpen   // /<li[^>]*>/i, replaced by "\n- "
    | BlockClose     // /<\/(p|div|li|h[1-6])>/i, replaced by "\n"
    | BlockOpen      // /<(p|br|div|h[1-6])[^>]*>/i, replaced by "\n"
    | AnyTag         // /<[^>]+>/, deleted

  function Replacement(p: TagPattern): string {
    match p
    case ListItemOpen => "\n- "
    case BlockClose => "\n"
    case BlockOpen => "\n"
    case AnyTag => ""
  }

  /** The index of the first '>' in `s`, or `|s|` when there is none. */
  function FirstGt(s: string): (k: nat)
    ensures k <= |s|
    ensures k < |s| ==> s[k] == '>'
    ensures forall j :: 0 <= j < k ==> s[j] != '>'
  {
    if s == [] then 0 else if s[0] == '>' then 0 else 1 + FirstGt(s[1..])
  }

  /** `s` starts with the lower-case ASCII `word`, ignoring case. */
  predicate StartsWithCI(s: string, word: string) {
    |word| <= |s| && forall i :: 0 <= i < |word| ==> Lower(s[i]) == word[i]
  }

  predicate EqualsCI(s: string, word: string) {
    |s| == |word| && StartsWithCI(s, word)
  }

  /** p, div, li or h1 to h6, in any case: the closing tags that end a block. */
  predicate IsClosingBlockName(name: string) {
    EqualsCI(name, "p") || EqualsCI(name, "div") || EqualsCI(name, "li")
    || (|name| == 2 && Lower(name[0]) == 'h' && '1' <= name[1] <= '6')
  }

  /** `<p`, `<br`, `<div` or `<h1` to `<h6`, in any case: the opening tags that start a block. */
  predicate StartsBlockOpen(s: string) {
    StartsWithCI(s, "<p") || StartsWithCI(s, "<br") || StartsWithCI(s, "<div")
    || (StartsWithCI(s, "<h") && |s| > 2 && '1' <= s[2] <= '6')
  }

  /**
   * The length of the match of `p` at the start of `s`, 0 when it does not match
   * there.  Every match of every pattern is also a match of `<[^>]+>`: it starts
   * with '<', its second character is not '>', and it ends at the first '>'.
   */
  function MatchLength(p: TagPattern, s: string): (n: nat)
    ensures n <= |s|
    ensures n > 0 ==> 3 <= n && s[0] == '<' && s[1] != '>' && n == FirstGt(s) + 1
    ensures p == AnyTag ==> (n > 0 <==> 2 <= |s| && s[0] == '<' && s[1] != '>' && FirstGt(s) < |s|)
  {
    var k := FirstGt(s);
    match p
    case ListItemOpen =>
      if StartsWithCI(s, "<li") && k < |s| then k + 1 else 0
    case BlockClose =>
      if 2 <= |s| && s[0] == '<' && s[1] == '/' && 2 <= k < |s| && IsClosingBlockName(s[2..k]) then k + 1 else 0
    case BlockOpen =>
      if StartsBlockOpen(s) && k < |s| then k + 1 else 0
    case AnyTag =>
      if 2 <= |s| && s[0] == '<' && s[1] != '>' && k < |s| then k + 1 else 0
  }

  /** `preg_replace` of pattern `p` over the whole of `s`, scanning left to right. */
  function ReplaceAll(p: TagPattern, s: string): (r: string)
    decreases |s|
  {
    if s == [] then []
    else
      var n := MatchLength(p, s);
      if n > 0 then Replacement(p) + ReplaceAll(p, s[n..])
      else [s[0]] + ReplaceAll(p, s[1..])
  }

  /** The four tag passes of `htmlToText`, in source order. */
  function RewriteTags(html: string): (r: string)
    ensures NoTag(r)
  {
    var blocksRewritten := ReplaceAll(BlockOpen, ReplaceAll(BlockClose, ReplaceAll(ListItemOpen, html)));
    AnyTagPassLeavesNoTag(blocksRewritten);
    ReplaceAll(AnyTag, blocksRewritten)
  }

  /** No position of `s` where `<[^>]+>` matches. */
  predicate NoTag(s: string)
    decreases |s|
  {
    s == [] || (MatchLength(AnyTag, s) == 0 && NoTag(s[1..]))
  }

  /**
   * The characters `\s` matches under `/u`, where PHP has PCRE use Unicode
   * properties: ASCII white space, NEL, and the Unicode separators
   * (including the no-break and ideographic spaces).
   */
  predicate IsSpace(c: char) {
    c == '\t' || c == '\n' || c == '\U{0B}' || c == '\U{0C}' || c == '\r' || c == ' '
    || c == '\U{85}' || c == '\U{A0}' || c == '\U{1680}' || c == '\U{180E}'
    || ('\U{2000}' <= c <= '\U{200A}') || c == '\U{2028}' || c == '\U{2029}'
    || c == '\U{202F}' || c == '\U{205F}' || c == '\U{3000}'
  }

  function DropNewlines(s: string): (r: string)
    ensures |r| <= |s| && r == s[|s| - |r|..]
    ensures r == [] || r[0] != '\n'
    ensures forall i :: 0 <= i < |s| - |r| ==> s[i] == '\n'
  {
    if s != [] && s[0] == '\n' then DropNewlines(s[1..]) else s
  }

  /** No two newlines are adjacent. */
  ghost predicate NoNewlineRun(s: string) {
    forall i, j :: 0 <= i < j < |s| && j == i + 1 ==> !(s[i] == '\n' && s[j] == '\n')
  }

  /** `preg_replace("/\n+/", "\n", $s)`. */
  function CollapseNewlines(s: string): (r: string)
    decreases |s|
  {
    if s == [] then []
    else if s[0] == '\n' then "\n" + CollapseNewlines(DropNewlines(s))
    else [s[0]] + CollapseNewlines(s[1..])
  }

  /**
   * After the newline pass no two newlines are adjacent; the text is empty
   * only when it was, and keeps its first character.
   */
  lemma {:induction false} CollapseNewlinesShape(s: string)
    ensures CollapseNewlines(s) == [] <==> s == []
    ensures s != [] ==> CollapseNewlines(s)[0] == s[0]
    ensures NoNewlineRun(CollapseNewlines(s))
    decreases |s|
  {
    if s != [] {
      var r := CollapseNewlines(s);
      if s[0] == '\n' {
        var d := DropNewlines(s);
        CollapseNewlinesShape(d);
        assert r == "\n" + CollapseNewlines(d);
      } else {
        CollapseNewlinesShape(s[1..]);
        assert r == [s[0]] + CollapseNewlines(s[1..]);
      }
    }
  }

  function DropSpaces(s: string): (r: string)
    ensures |r| <= |s| && r == s[|s| - |r|..]
    ensures r == [] || !IsSpace(r[0])
    ensures forall i :: 0 <= i < |s| - |r| ==> IsSpace(s[i])
  {
    if s != [] && IsSpace(s[0]) then DropSpaces(s[1..]) else s
  }

  /** Every white-space character is a plain space and no two white-space characters are adjacent. */
  ghost predicate SingleSpaced(s: string) {
    && (forall i :: 0 <= i < |s| && IsSpace(s[i]) ==> s[i] == ' ')
    && (forall i, j :: 0 <= i < j < |s| && j == i + 1 ==> !(IsSpace(s[i]) && IsSpace(s[j])))
  }

  /** `preg_replace('/\s+/u', ' ', $s)`: every white-space run becomes one space. */
  function CollapseSpaces(s: string): (r: string)
    ensures r == [] <==> s == []
    ensures s != [] ==> r[0] == (if IsSpace(s[0]) then ' ' else s[0])
    ensures SingleSpaced(r)
    decreases |s|
  {
    if s == [] then []
    else if IsSpace(s[0]) then " " + CollapseSpaces(DropSpaces(s))
    else [s[0]] + CollapseSpaces(s[1..])
  }

  /**
   * `htmlToText`.  The result is one line: no newline, no two adjacent
   * white-space characters, no white space at either end.
   */
  function HtmlToText(html: string, decode: string -> string): (r: string)
    ensures forall i :: 0 <= i < |r| ==> r[i] != '\n'
    ensures SingleSpaced(r)
    ensures r == [] || (!IsSpace(r[0]) && !IsSpace(r[|r| - 1]))
    ensures r == [] || (!IsTrimChar(r[0]) && !IsTrimChar(r[|r| - 1]))
  {
    var collapsed := CollapseSpaces(CollapseNewlines(decode(RewriteTags(html))));
    var r := Trim(collapsed);
    TrimShape(collapsed);
    TrimKeepsSingleSpaced(collapsed);
    r
  }

  lemma TrimKeepsSingleSpaced(s: string)
    requires SingleSpaced(s)
    ensures SingleSpaced(Trim(s))
  {
    TrimShape(s);
    var a := |s| - |TrimLeft(s)|;
    var r := Trim(s);
    forall i | 0 <= i < |r| ensures r[i] == s[a + i] {}
  }

  // ----- what the tag passes leave behind -----

  lemma {:induction false} ReplaceAllKeepsGt(p: TagPattern, s: string)
    requires p == AnyTag
    ensures '>' in ReplaceAll(p, s) ==> '>' in s
    decreases |s|
  {
    if s != [] {
      var n := MatchLength(p, s);
      if n > 0 {
        ReplaceAllKeepsGt(p, s[n..]);
        assert forall c | c in s[n..] :: c in s;
      } else {
        ReplaceAllKeepsGt(p, s[1..]);
        assert forall c | c in s[1..] :: c in s;
      }
    }
  }

  /** After the last pass no `<[^>]+>` is left anywhere: the tag-free text. */
  lemma {:induction false} AnyTagPassLeavesNoTag(s: string)
    ensures NoTag(ReplaceAll(AnyTag, s))
    decreases |s|
  {
    if s != [] {
      var n := MatchLength(AnyTag, s);
      if n > 0 {
        AnyTagPassLeavesNoTag(s[n..]);
        assert ReplaceAll(AnyTag, s) == ReplaceAll(AnyTag, s[n..]);
      } else {
        var rest := ReplaceAll(AnyTag, s[1..]);
        AnyTagPassLeavesNoTag(s[1..]);
        ReplaceAllKeepsGt(AnyTag, s[1..]);
        var r := ReplaceAll(AnyTag, s);
        assert r == [s[0]] + rest && r[1..] == rest;
        if s[0] == '<' && |s| >= 2 && s[1] == '>' {
          assert MatchLength(AnyTag, s[1..]) == 0;
          assert rest[0] == '>';
        }
        if s[0] == '<' && |s| >= 2 && s[1] != '>' {
          assert '>' !in s[1..];
          assert '>' !in rest;
          assert FirstGt(r) == |r|;
        }
      }
    }
  }

  /** Text in which no `<[^>]+>` matches passes every tag pattern unchanged. */
  lemma {:induction false} NoTagIsFixedPoint(p: TagPattern, s: string)
    requires NoTag(s)
    ensures ReplaceAll(p, s) == s
    decreases |s|
  {
    if s != [] {
      assert MatchLength(p, s) == 0;
      NoTagIsFixedPoint(p, s[1..]);
    }
  }

  lemma {:induction false} NoTagSuffix(s: string, k: nat)
    requires NoTag(s) && k <= |s|
    ensures NoTag(s[k..])
    decreases k
  {
    if k > 0 {
      NoTagSuffix(s[1..], k - 1);
      assert s[1..][k - 1..] == s[k..];
    }
  }

  lemma {:induction false} NoTagPrefix(s: string, k: nat)
    requires NoTag(s) && k <= |s|
    ensures NoTag(s[..k])
    decreases k
  {
    if k > 0 {
      NoTagPrefix(s[1..], k - 1);
      assert s[..k][1..] == s[1..][..k - 1];
      var t := s[..k];
      if 2 <= |t| && t[0] == '<' && t[1] != '>' {
        assert FirstGt(s) == |s|;
        assert FirstGt(t) == |t| by {
          forall j | 0 <= j < |t| ensures t[j] != '>' { assert t[j] == s[j]; }
        }
      }
    }
  }

  lemma {:induction false} CollapseSpacesKeepsGt(s: string)
    ensures '>' in CollapseSpaces(s) ==> '>' in s
    decreases |s|
  {
    if s != [] {
      if IsSpace(s[0]) {
        var d := DropSpaces(s);
        CollapseSpacesKeepsGt(d);
        assert forall c | c in d :: c in s;
      } else {
        CollapseSpacesKeepsGt(s[1..]);
        assert forall c | c in s[1..] :: c in s;
      }
    }
  }

  /** Collapsing white space cannot bring a '<' and a later '>' into a tag. */
  lemma {:induction false} CollapseSpacesKeepsNoTag(s: string)
    requires NoTag(s)
    ensures NoTag(CollapseSpaces(s))
    decreases |s|
  {
    if s != [] {
      var r := CollapseSpaces(s);
      if IsSpace(s[0]) {
        var d := DropSpaces(s);
        NoTagSuffix(s, |s| - |d|);
        CollapseSpacesKeepsNoTag(d);
        assert r[1..] == CollapseSpaces(d);
      } else {
        NoTagSuffix(s, 1);
        CollapseSpacesKeepsNoTag(s[1..]);
        CollapseSpacesKeepsGt(s[1..]);
        var rest := CollapseSpaces(s[1..]);
        assert r == [s[0]] + rest && r[1..] == rest;
        if s[0] == '<' && |s| >= 2 && s[1] == '>' {
          assert rest[0] == '>';
        }
        if s[0] == '<' && |s| >= 2 && s[1] != '>' {
          assert FirstGt(s) == |s|;
          assert '>' !in s[1..];
          assert '>' !in rest;
          assert FirstGt(r) == |r|;
        }
      }
    }
  }

  lemma TrimKeepsNoTag(s: string)
    requires NoTag(s)
    ensures NoTag(Trim(s))
  {
    TrimShape(s);
    var a := |s| - |TrimLeft(s)|;
    var r := Trim(s);
    NoTagSuffix(s, a);
    NoTagPrefix(s[a..], |r|);
    assert r == s[a..][..|r|];
  }

  // ----- the newline pass is subsumed by the white-space pass -----

  lemma {:induction false} DropSpacesAfterNewlines(s: string)
    ensures DropSpaces(CollapseNewlines(s)) == CollapseNewlines(DropSpaces(s))
    decreases |s|
  {
    if s != [] {
      if s[0] == '\n' {
        var d := DropNewlines(s);
        var c := CollapseNewlines(d);
        assert CollapseNewlines(s) == "\n" + c;
        assert DropSpaces("\n" + c) == DropSpaces(c) by {
          assert ("\n" + c)[1..] == c;
        }
        DropSpacesAfterNewlines(d);
        DropSpacesSkipsNewlines(s);
      } else if IsSpace(s[0]) {
        var c := CollapseNewlines(s[1..]);
        assert CollapseNewlines(s) == [s[0]] + c;
        assert DropSpaces([s[0]] + c) == DropSpaces(c) by {
          assert ([s[0]] + c)[1..] == c;
        }
        DropSpacesAfterNewlines(s[1..]);
        assert DropSpaces(s) == DropSpaces(s[1..]);
      } else {
        assert CollapseNewlines(s) == [s[0]] + CollapseNewlines(s[1..]);
        assert DropSpaces(s) == s;
      }
    }
  }

  lemma {:induction false} DropSpacesSkipsNewlines(s: string)
    ensures DropSpaces(DropNewlines(s)) == DropSpaces(s)
    decreases |s|
  {
    if s != [] && s[0] == '\n' {
      DropSpacesSkipsNewlines(s[1..]);
    }
  }

  /**
   * Collapsing newline runs first changes nothing: the white-space pass turns
   * every run containing a newline into one space anyway.
   */
  lemma {:induction false} NewlinePassIsSubsumed(s: string)
    ensures CollapseSpaces(CollapseNewlines(s)) == CollapseSpaces(s)
    decreases |s|
  {
    if s != [] {
      if s[0] == '\n' {
        var d := DropNewlines(s);
        DropSpacesAfterNewlines(d);
        NewlinePassIsSubsumed(DropSpaces(d));
        DropSpacesSkipsNewlines(s);
      } else if IsSpace(s[0]) {
        DropSpacesAfterNewlines(s[1..]);
        NewlinePassIsSubsumed(DropSpaces(s[1..]));
      } else {
        NewlinePassIsSubsumed(s[1..]);
      }
    }
  }

  // ----- what the white-space pass keeps -----

  /** Every white-space character replaced by a plain space. */
  function Blanked(s: string): (r: string)
    ensures |r| == |s|
  {
    if s == [] then [] else [if IsSpace(s[0]) then ' ' else s[0]] + Blanked(s[1..])
  }

  /** Each run of adjacent spaces cut down to its first space. */
  function Squeezed(s: string): string
    decreases |s|
  {
    if |s| <= 1 then s
    else if s[0] == ' ' && s[1] == ' ' then Squeezed(s[1..])
    else [s[0]] + Squeezed(s[1..])
  }

  /** The characters that are not white space, in order. */
  function Visible(s: string): string {
    if s == [] then [] else (if IsSpace(s[0]) then [] else [s[0]]) + Visible(s[1..])
  }

  /**
   * The `\s+` pass is the same as blanking every white-space character and
   * then squeezing each run of spaces to one: each run becomes exactly one
   * space and everything else is copied.
   */
  lemma {:induction false} CollapseSpacesIsSqueezedBlanks(s: string)
    ensures CollapseSpaces(s) == Squeezed(Blanked(s))
    decreases |s|
  {
    if s != [] {
      var b := Blanked(s);
      assert b[1..] == Blanked(s[1..]);
      CollapseSpacesIsSqueezedBlanks(s[1..]);
      if IsSpace(s[0]) && |s| > 1 && IsSpace(s[1]) {
        assert DropSpaces(s) == DropSpaces(s[1..]);
        assert Squeezed(b) == Squeezed(b[1..]);
      } else if IsSpace(s[0]) {
        assert DropSpaces(s) == s[1..];
        assert Squeezed(b) == [' '] + Squeezed(b[1..]);
      } else {
        assert Squeezed(b) == [s[0]] + Squeezed(b[1..]);
      }
    }
  }

  lemma {:induction false} DropSpacesKeepsVisible(s: string)
    ensures Visible(DropSpaces(s)) == Visible(s)
    decreases |s|
  {
    if s != [] && IsSpace(s[0]) {
      DropSpacesKeepsVisible(s[1..]);
    }
  }

  /** The `\s+` pass keeps every character that is not white space, in order, and adds none. */
  lemma {:induction false} CollapseSpacesKeepsVisible(s: string)
    ensures Visible(CollapseSpaces(s)) == Visible(s)
    decreases |s|
  {
    if s != [] {
      var r := CollapseSpaces(s);
      if IsSpace(s[0]) {
        var d := DropSpaces(s);
        CollapseSpacesKeepsVisible(d);
        DropSpacesKeepsVisible(s);
        assert r[1..] == CollapseSpaces(d);
      } else {
        CollapseSpacesKeepsVisible(s[1..]);
        assert r[1..] == CollapseSpaces(s[1..]);
      }
    }
  }

  /**
   * `htmlToText` as one white-space pass: the tag-free, decoded text with
   * every white-space run made one space, then trimmed.  The newline pass
   * leaves no trace of its own.
   */
  lemma HtmlToTextIsSqueezedBlanks(html: string, decode: string -> string)
    ensures HtmlToText(html, decode) == Trim(Squeezed(Blanked(decode(RewriteTags(html)))))
  {
    var decoded := decode(RewriteTags(html));
    NewlinePassIsSubsumed(decoded);
    CollapseSpacesIsSqueezedBlanks(decoded);
  }

  // ----- idempotence -----

  /** Collapsing white space changes nothing in text that is already single-spaced. */
  lemma {:induction false} CollapseSpacesFixesSingleSpaced(s: string)
    requires SingleSpaced(s)
    ensures CollapseSpaces(s) == s
    decreases |s|
  {
    if s != [] {
      SingleSpacedTail(s);
      CollapseSpacesFixesSingleSpaced(s[1..]);
      if IsSpace(s[0]) {
        LoneSpace(s);
        assert CollapseSpaces(s) == " " + CollapseSpaces(s[1..]);
      } else {
        assert CollapseSpaces(s) == [s[0]] + CollapseSpaces(s[1..]);
      }
      assert s == [s[0]] + s[1..];
    }
  }

  lemma SingleSpacedTail(s: string)
    requires s != [] && SingleSpaced(s)
    ensures SingleSpaced(s[1..])
  {
  }

  /** A white-space character of single-spaced text is a plain space followed by no other. */
  lemma LoneSpace(s: string)
    requires s != [] && SingleSpaced(s) && IsSpace(s[0])
    ensures s[0] == ' ' && DropSpaces(s) == s[1..]
  {
    assert |s| > 1 ==> !IsSpace(s[1]);
    assert DropSpaces(s) == DropSpaces(s[1..]);
  }

  lemma {:induction false} CollapseNewlinesFixesOneLine(s: string)
    requires forall i :: 0 <= i < |s| ==> s[i] != '\n'
    ensures CollapseNewlines(s) == s
    decreases |s|
  {
    if s != [] {
      CollapseNewlinesFixesOneLine(s[1..]);
    }
  }

  /**
   * `htmlToText` is idempotent when entity decoding creates no tag in the
   * first run and leaves the final text unchanged, so "a &amp; b" is covered.
   * Without those hypotheses it is not: see `DecodedEntitiesBreakIdempotence`.
   */
  lemma HtmlToTextIdempotent(html: string, decode: string -> string)
    requires NoTag(decode(RewriteTags(html)))
    requires decode(HtmlToText(html, decode)) == HtmlToText(html, decode)
    ensures HtmlToText(HtmlToText(html, decode), decode) == HtmlToText(html, decode)
  {
    var decoded := decode(RewriteTags(html));
    var collapsed := CollapseSpaces(CollapseNewlines(decoded));
    var x := HtmlToText(html, decode);
    assert x == Trim(collapsed);
    NewlinePassIsSubsumed(decoded);
    CollapseSpacesKeepsNoTag(decoded);
    TrimKeepsNoTag(collapsed);
    NoTagIsFixedPoint(ListItemOpen, x);
    NoTagIsFixedPoint(BlockClose, x);
    NoTagIsFixedPoint(BlockOpen, x);
    NoTagIsFixedPoint(AnyTag, x);
    assert RewriteTags(x) == x;
    CollapseNewlinesFixesOneLine(x);
    TrimKeepsSingleSpaced(collapsed);
    CollapseSpacesFixesSingleSpaced(x);
    assert Trim(x) == x by {
      assert TrimLeft(x) == x;
      assert TrimRight(x) == x;
    }
  }

  /**
   * Tags are rewritten before entities are decoded, so an escaped tag survives
   * the first run as a real tag and is removed by a second one.
   */
  lemma DecodedEntitiesBreakIdempotence(decode: string -> string)
    requires decode("&lt;p&gt;x") == "<p>x"
    requires decode("\nx") == "\nx"
    ensures HtmlToText("&lt;p&gt;x", decode) == "<p>x"
    ensures HtmlToText(HtmlToText("&lt;p&gt;x", decode), decode) == "x"
  {
    EscapedTagFirstRun(decode);
    EscapedTagSecondRun(decode);
  }

  lemma EscapedTagFirstRun(decode: string -> string)
    requires decode("&lt;p&gt;x") == "<p>x"
    ensures HtmlToText("&lt;p&gt;x", decode) == "<p>x"
  {
    EscapedTagHasNoLt();
    EscapedTextPassesTags("&lt;p&gt;x", decode);
  }

  lemma EscapedTagHasNoLt()
    ensures forall i :: 0 <= i < |"&lt;p&gt;x"| ==> "&lt;p&gt;x"[i] != '<'
  {
    var s := "&lt;p&gt;x";
    forall i | 0 <= i < |s| ensures s[i] != '<' {
      if i < 5 {} else {}
    }
  }

  /** Text without '<' that decodes to "<p>x" flattens to "<p>x". */
  lemma EscapedTextPassesTags(html: string, decode: string -> string)
    requires forall i :: 0 <= i < |html| ==> html[i] != '<'
    requires decode(html) == "<p>x"
    ensures HtmlToText(html, decode) == "<p>x"
  {
    TextWithoutLtKeepsTags(html);
    ParagraphTagIsPlainLine();
    var collapsed := CollapseSpaces(CollapseNewlines(decode(RewriteTags(html))));
    assert collapsed == "<p>x";
    assert HtmlToText(html, decode) == Trim(collapsed);
  }

  lemma ParagraphTagIsPlainLine()
    ensures CollapseSpaces(CollapseNewlines("<p>x")) == "<p>x" && Trim("<p>x") == "<p>x"
  {
    var x := "<p>x";
    forall i | 0 <= i < |x| ensures !IsSpace(x[i]) && x[i] != '\n' {
      if i == 0 {} else if i == 1 {} else if i == 2 {} else {}
    }
    PlainLineIsFixed(x);
  }

  lemma EscapedTagSecondRun(decode: string -> string)
    requires decode("\nx") == "\nx"
    ensures HtmlToText("<p>x", decode) == "x"
  {
    ParagraphTagBecomesNewline();
    NewlineBecomesSpace();
    LeadingSpaceTrimmed();
  }

  lemma ParagraphTagBecomesNewline()
    ensures RewriteTags("<p>x") == "\nx"
  {
    ParagraphTagKeptByListAndClosePasses();
    ParagraphTagOpensBlock();
    NewlineKeptByAnyTagPass();
  }

  lemma NewlineKeptByAnyTagPass()
    ensures ReplaceAll(AnyTag, "\nx") == "\nx"
  {
    NoTagWithoutLt("\nx");
    NoTagIsFixedPoint(AnyTag, "\nx");
  }

  /** Neither `<li…>` nor a closing block tag matches in "<p>x". */
  lemma ParagraphTagKeptByListAndClosePasses()
    ensures ReplaceAll(BlockClose, ReplaceAll(ListItemOpen, "<p>x")) == "<p>x"
  {
    var s := "<p>x";
    NoTagWithoutLt(s[1..]);
    assert ReplaceAll(ListItemOpen, s) == s by {
      assert MatchLength(ListItemOpen, s) == 0;
      NoTagIsFixedPoint(ListItemOpen, s[1..]);
    }
    assert ReplaceAll(BlockClose, s) == s by {
      assert MatchLength(BlockClose, s) == 0;
      NoTagIsFixedPoint(BlockClose, s[1..]);
    }
  }

  /** `<p>` matches the block-opening pattern and becomes a newline. */
  lemma ParagraphTagOpensBlock()
    ensures ReplaceAll(BlockOpen, "<p>x") == "\nx"
  {
    var s := "<p>x";
    assert FirstGt(s) == 2 by {
      assert FirstGt(s[1..]) == 1;
    }
    assert MatchLength(BlockOpen, s) == 3;
    assert s[3..] == "x";
    assert ReplaceAll(BlockOpen, "x") == "x";
  }

  lemma NewlineBecomesSpace()
    ensures CollapseSpaces(CollapseNewlines("\nx")) == " x"
  {
    NewlineRunOfOne();
    SpaceRunOfOne();
  }

  lemma NewlineRunOfOne()
    ensures CollapseNewlines("\nx") == "\nx"
  {
    LetterAfterNewline();
    assert "x"[1..] == [];
  }

  lemma LetterAfterNewline()
    ensures DropNewlines("\nx") == "x" && DropSpaces("\nx") == "x"
  {
    var s := "\nx";
    assert s[0] == '\n' && s[1..] == "x";
    assert !IsSpace('x');
    assert DropNewlines("x") == "x";
    assert DropSpaces("x") == "x";
  }

  lemma SpaceRunOfOne()
    ensures CollapseSpaces("\nx") == " x"
  {
    LetterAfterNewline();
    assert "x"[1..] == [];
  }

  lemma LeadingSpaceTrimmed()
    ensures Trim(" x") == "x"
  {
    assert TrimLeft(" x") == "x";
    assert TrimRight("x") == "x";
  }

  /** Text without '<' passes the four tag passes unchanged. */
  lemma TextWithoutLtKeepsTags(s: string)
    requires forall i :: 0 <= i < |s| ==> s[i] != '<'
    ensures RewriteTags(s) == s
  {
    NoTagWithoutLt(s);
    NoTagIsFixedPoint(ListItemOpen, s);
    NoTagIsFixedPoint(BlockClose, s);
    NoTagIsFixedPoint(BlockOpen, s);
    NoTagIsFixedPoint(AnyTag, s);
  }

  /** A single-spaced line without white space at its ends passes the collapse and trim passes unchanged. */
  lemma PlainLineIsFixed(s: string)
    requires SingleSpaced(s)
    requires forall i :: 0 <= i < |s| ==> s[i] != '\n'
    requires s == [] || (!IsTrimChar(s[0]) && !IsTrimChar(s[|s| - 1]))
    ensures CollapseSpaces(CollapseNewlines(s)) == s
    ensures Trim(s) == s
  {
    CollapseNewlinesFixesOneLine(s);
    CollapseSpacesFixesSingleSpaced(s);
    assert TrimLeft(s) == s;
    assert TrimRight(s) == s;
  }

  lemma {:induction false} NoTagWithoutLt(s: string)
    requires forall i :: 0 <= i < |s| ==> s[i] != '<'
    ensures NoTag(s)
    decreases |s|
  {
    if s != [] {
      NoTagWithoutLt(s[1..]);
    }
  }

}
