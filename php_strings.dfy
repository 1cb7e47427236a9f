/**
 * PHP's string built-ins that the core relies on: `trim` with its default
 * character set, `implode`, and an ASCII case fold for the `/i` patterns.
 */
module PhpStrings {

  /** The characters PHP's `trim` removes by default: " \t\n\r\0\x0B". */
  predicate IsTrimChar(c: char) {
    c == ' ' || c == '\t' || c == '\n' || c == '\r' || c == '\0' || c == '\U{0B}'
  }

  /** `ltrim($s)`: drops the trim characters at the front. */
  function TrimLeft(s: string): string
    decreases |s|
  {
    if s != [] && IsTrimChar(s[0]) then TrimLeft(s[1..]) else s
  }

  /** `rtrim($s)`: drops the trim characters at the back. */
  function TrimRight(s: string): string
    decreases |s|
  {
    if s != [] && IsTrimChar(s[|s| - 1]) then TrimRight(s[..|s| - 1]) else s
  }

  /** PHP `trim($s)`. */
  function Trim(s: string): string {
    TrimRight(TrimLeft(s))
  }

  /** `ltrim` keeps a suffix that does not start with a trim character, and drops only trim characters. */
  lemma {:induction false} TrimLeftShape(s: string)
    ensures var r := TrimLeft(s); |r| <= |s| && r == s[|s| - |r|..]
    ensures var r := TrimLeft(s); r == [] || !IsTrimChar(r[0])
    ensures var r := TrimLeft(s); forall i :: 0 <= i < |s| - |r| ==> IsTrimChar(s[i])
    decreases |s|
  {
    if s != [] && IsTrimChar(s[0]) {
      TrimLeftShape(s[1..]);
    }
  }

  /** `rtrim` keeps a prefix that does not end with a trim character, and drops only trim characters. */
  lemma {:induction false} TrimRightShape(s: string)
    ensures var r := TrimRight(s); |r| <= |s| && r == s[..|r|]
    ensures var r := TrimRight(s); r == [] || !IsTrimChar(r[|r| - 1])
    ensures var r := TrimRight(s); forall i :: |r| <= i < |s| ==> IsTrimChar(s[i])
    decreases |s|
  {
    if s != [] && IsTrimChar(s[|s| - 1]) {
      TrimRightShape(s[..|s| - 1]);
    }
  }

  /**
   * `trim` keeps the longest infix of `s` that neither starts nor ends with a
   * trim character; it gives "" exactly when `s` is made of trim characters.
   */
  lemma TrimShape(s: string)
    ensures var a := |s| - |TrimLeft(s)|; 0 <= a && a + |Trim(s)| <= |s| && Trim(s) == s[a..a + |Trim(s)|]
    ensures Trimmed(Trim(s))
    ensures (forall i :: 0 <= i < |s| ==> IsTrimChar(s[i])) <==> Trim(s) == []
  {
    var t := TrimLeft(s);
    TrimLeftShape(s);
    TrimRightShape(t);
    var r := TrimRight(t);
    assert r == s[|s| - |t|..][..|r|];
    assert r == [] ==> t == [];
  }

  /** A string `trim` leaves as it is: it neither starts nor ends with a trim character. */
  predicate Trimmed(s: string) {
    s == [] || (!IsTrimChar(s[0]) && !IsTrimChar(s[|s| - 1]))
  }

  /** `trim` changes nothing in a trimmed string, and so trimming twice trims nothing more. */
  lemma TrimmedIsFixed(s: string)
    ensures Trimmed(s) <==> Trim(s) == s
    ensures Trimmed(Trim(s)) && Trim(Trim(s)) == Trim(s)
  {
    var r := Trim(s);
    TrimShape(s);
    if r != [] {
      assert TrimLeft(r) == r by {
        assert !IsTrimChar(r[0]);
      }
      assert TrimRight(r) == r by {
        assert !IsTrimChar(r[|r| - 1]);
      }
    }
    if Trimmed(s) && s != [] {
      assert TrimLeft(s) == s;
      assert TrimRight(s) == s;
    }
  }

  /** `trim($s) === ''`. */
  predicate IsBlank(s: string) {
    Trim(s) == []
  }

  /** PHP `implode($sep, $parts)`. */
  function Join(parts: seq<string>, sep: string): (r: string)
    decreases |parts|
  {
    if parts == [] then ""
    else if |parts| == 1 then parts[0]
    else Join(parts[..|parts| - 1], sep) + sep + parts[|parts| - 1]
  }

  /** Trimming keeps a prefix that neither starts nor ends with a trim character. */
  lemma TrimKeepsPrefix(s: string, p: string)
    requires p <= s && p != []
    requires !IsTrimChar(p[0]) && !IsTrimChar(p[|p| - 1])
    ensures p <= Trim(s)
  {
    assert s[0] == p[0] && s[|p| - 1] == p[|p| - 1];
    assert TrimLeft(s) == s;
    TrimRightShape(s);
    assert |TrimRight(s)| >= |p|;
  }

  /** The parts before `k` are joined into a prefix of the whole. */
  lemma {:induction false} JoinPrefix(parts: seq<string>, sep: string, k: nat)
    requires 1 <= k <= |parts|
    ensures Join(parts[..k], sep) <= Join(parts, sep)
    decreases |parts| - k
  {
    if k == |parts| {
      assert parts[..k] == parts;
    } else {
      JoinPrefix(parts, sep, k + 1);
      var front := parts[..k + 1];
      assert front[..|front| - 1] == parts[..k];
    }
  }

  /** The first two parts, with the separator between them, begin the joined string. */
  lemma JoinStartsWith(parts: seq<string>, sep: string)
    requires |parts| >= 2
    ensures parts[0] + sep + parts[1] <= Join(parts, sep)
  {
    JoinPrefix(parts, sep, 2);
    var two := parts[..2];
    assert two[..1] == [parts[0]];
  }

  /** With no separator, joining `a + b` is joining `a`, then joining `b`. */
  lemma {:induction false} JoinWithoutSeparator(a: seq<string>, b: seq<string>)
    ensures Join(a + b, "") == Join(a, "") + Join(b, "")
    decreases |b|
  {
    if b == [] {
      assert a + b == a;
    } else if a == [] {
      assert a + b == b;
    } else {
      var n := |b|;
      var front := b[..n - 1];
      JoinWithoutSeparator(a, front);
      assert (a + b)[..|a + b| - 1] == a + front;
      if n == 1 {
        assert front == [];
        assert Join(a + front, "") == Join(a, "");
      }
    }
  }

  /** ASCII lower-casing, the case fold of a PCRE `/i` pattern without `/u`. */
  function Lower(c: char): char {
    if 'A' <= c <= 'Z' then (c as int + 32) as char else c
  }
}
