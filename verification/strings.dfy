/** String helpers shared by the server and client models: prefix and substring
    tests, ASCII case folding, trimming, splitting and character replacement.
    Strings are sequences of characters; lengths are sequence lengths. */
module Strings {
  import opened Wrappers

  predicate StartsWith(s: string, prefix: string) {
    |prefix| <= |s| && s[..|prefix|] == prefix
  }

  predicate EndsWith(s: string, suffix: string) {
    |suffix| <= |s| && s[|s| - |suffix|..] == suffix
  }

  /** The first index at which `sub` occurs in `s` (JavaScript `indexOf`). */
  function IndexOf(s: string, sub: string): (r: Option<nat>)
    ensures r.Some? ==> r.value + |sub| <= |s| && s[r.value..r.value + |sub|] == sub
    ensures r.Some? ==> forall k :: 0 <= k < r.value ==> !StartsWith(s[k..], sub)
    ensures r.None? ==> forall k :: 0 <= k <= |s| ==> !StartsWith(s[k..], sub)
    decreases |s|
  {
    if StartsWith(s, sub) then Some(0)
    else if |s| == 0 then None
    else
      var rest := IndexOf(s[1..], sub);
      DropOne(s);
      match rest
      case Some(k) => Some(k + 1)
      case None => None
  }

  lemma DropOne(s: string)
    requires |s| > 0
    ensures forall k :: 1 <= k <= |s| ==> s[k..] == s[1..][k - 1..]
  {
  }

  /** Substring test (JavaScript `includes`, Swift `contains`). */
  predicate Contains(s: string, sub: string) {
    IndexOf(s, sub).Some?
  }

  lemma ContainsAt(s: string, sub: string, k: nat)
    requires k + |sub| <= |s| && s[k..k + |sub|] == sub
    ensures Contains(s, sub)
  {
    assert StartsWith(s[k..], sub);
  }

  lemma ContainsWitness(s: string, sub: string) returns (k: nat)
    requires Contains(s, sub)
    ensures k + |sub| <= |s| && s[k..k + |sub|] == sub
  {
    k := IndexOf(s, sub).value;
  }

  /** A text in which the first character of `sub` never occurs does not contain `sub`. */
  lemma LacksFirst(s: string, sub: string)
    requires |sub| > 0 && sub[0] !in s
    ensures !Contains(s, sub)
  {
    forall k | 0 <= k <= |s| ensures !StartsWith(s[k..], sub) {
      if k < |s| {
        assert s[k..][0] == s[k];
      }
    }
  }

  /** JavaScript `s.slice(0, n)`: the first `n` characters, or all of `s`. */
  function Take(s: string, n: nat): (r: string)
    ensures |r| == if n <= |s| then n else |s|
    ensures r == s[..|r|]
  {
    if n <= |s| then s[..n] else s
  }

  /** ASCII upper-case letters are lowered; every other character is kept. */
  function LowerChar(c: char): char {
    if 'A' <= c <= 'Z' then (c as int + 32) as char else c
  }

  function Lower(s: string): (r: string)
    ensures |r| == |s| && forall i :: 0 <= i < |s| ==> r[i] == LowerChar(s[i])
  {
    seq(|s|, i requires 0 <= i < |s| => LowerChar(s[i]))
  }

  /** Case-insensitive equality (`a.lowercased() == b.lowercased()`). */
  predicate EqualsIgnoringCase(a: string, b: string) {
    Lower(a) == Lower(b)
  }

  /** Case-insensitive substring test (`localizedCaseInsensitiveContains`). */
  predicate ContainsIgnoringCase(s: string, sub: string) {
    Contains(Lower(s), Lower(sub))
  }

  /** Whitespace as JavaScript `\s` and `trim` see it, restricted to ASCII and NBSP. */
  predicate IsSpace(c: char) {
    c == ' ' || c == '\t' || c == '\n' || c == '\r' || c == '\U{000B}' || c == '\U{000C}' || c == '\U{00A0}'
  }

  /** Swift's `CharacterSet.whitespaces` (no line breaks), restricted to ASCII and NBSP. */
  predicate IsBlank(c: char) {
    c == ' ' || c == '\t' || c == '\U{00A0}'
  }

  function TrimStartBy(s: string, ws: char -> bool): (r: string)
    ensures |r| <= |s| && r == s[|s| - |r|..]
    ensures |r| > 0 ==> !ws(r[0])
    ensures forall i :: 0 <= i < |s| - |r| ==> ws(s[i])
  {
    if |s| > 0 && ws(s[0]) then
      var r := TrimStartBy(s[1..], ws);
      assert forall i :: 1 <= i < |s| ==> s[i] == s[1..][i - 1];
      r
    else s
  }

  function TrimEndBy(s: string, ws: char -> bool): (r: string)
    ensures |r| <= |s| && r == s[..|r|]
    ensures |r| > 0 ==> !ws(r[|r| - 1])
    ensures forall i :: |r| <= i < |s| ==> ws(s[i])
  {
    if |s| > 0 && ws(s[|s| - 1]) then TrimEndBy(s[..|s| - 1], ws) else s
  }

  /** Leading and trailing characters satisfying `ws` removed. */
  function TrimBy(s: string, ws: char -> bool): (r: string)
    ensures |r| <= |s|
    ensures |r| > 0 ==> !ws(r[0]) && !ws(r[|r| - 1])
    ensures r == "" <==> forall i :: 0 <= i < |s| ==> ws(s[i])
  {
    var t := TrimStartBy(s, ws);
    var u := TrimEndBy(t, ws);
    assert |u| > 0 ==> u[0] == t[0];
    u
  }

  /** JavaScript `trim()`. */
  function Trim(s: string): string {
    TrimBy(s, IsSpace)
  }

  /** Swift `trimmingCharacters(in: .whitespaces)`. */
  function TrimBlanks(s: string): string {
    TrimBy(s, IsBlank)
  }

  /** Swift `trimmingCharacters(in: .whitespacesAndNewlines)`. */
  function TrimWhitespaceAndNewlines(s: string): string {
    TrimBy(s, IsSpace)
  }

  /** The number of maximal runs of non-space characters: the length of
      `s.trim().split(/\s+/)` whenever `s` holds at least one word. */
  function WordCount(s: string): nat
    decreases |s|
  {
    if |s| == 0 then 0
    else if IsSpace(s[0]) then WordCount(s[1..])
    else 1 + WordCount(SkipWord(s))
  }

  /** `s` without its leading run of non-space characters. */
  function SkipWord(s: string): (r: string)
    ensures |r| <= |s|
    ensures |s| > 0 && !IsSpace(s[0]) ==> |r| < |s|
  {
    if |s| > 0 && !IsSpace(s[0]) then SkipWord(s[1..]) else s
  }

  /** `parts` joined with `sep` between neighbours (JavaScript `join`). */
  function Join(parts: seq<string>, sep: string): string {
    if |parts| == 0 then ""
    else if |parts| == 1 then parts[0]
    else parts[0] + sep + Join(parts[1..], sep)
  }

  /** The first index of character `c` in `s`. */
  function FirstIndexOf(s: string, c: char): (i: nat)
    requires c in s
    ensures i < |s| && s[i] == c && c !in s[..i]
  {
    if s[0] == c then 0 else 1 + FirstIndexOf(s[1..], c)
  }

  /** The last index of character `c` in `s`. */
  function LastIndexOf(s: string, c: char): (i: nat)
    requires c in s
    ensures i < |s| && s[i] == c && c !in s[i + 1..]
  {
    if s[|s| - 1] == c then |s| - 1
    else
      assert c in s[..|s| - 1] by {
        var k :| 0 <= k < |s| && s[k] == c;
        assert s[..|s| - 1][k] == c;
      }
      var i := LastIndexOf(s[..|s| - 1], c);
      assert s[i + 1..] == s[..|s| - 1][i + 1..] + [s[|s| - 1]];
      i
  }

  /** JavaScript `s.split(sep)` for a one-character separator. */
  function Split(s: string, sep: char): (r: seq<string>)
    ensures |r| >= 1
    ensures forall p :: p in r ==> sep !in p
    ensures Join(r, [sep]) == s
    decreases |s|
  {
    if sep !in s then [s]
    else
      var i := FirstIndexOf(s, sep);
      var rest := Split(s[i + 1..], sep);
      assert s == s[..i] + [sep] + s[i + 1..];
      [s[..i]] + rest
  }

  /** `s.split(sep)[0]`: the text before the first separator, or all of `s`. */
  lemma SplitHead(s: string, sep: char)
    ensures sep in s ==> Split(s, sep)[0] == s[..FirstIndexOf(s, sep)]
    ensures sep !in s ==> Split(s, sep)[0] == s
  {
  }

  /** The text after the last `sep` (JavaScript `s.split(sep).pop()`). */
  function LastSegment(s: string, sep: char): (r: string)
    ensures sep !in r && EndsWith(s, r)
    ensures |r| < |s| ==> s[|s| - |r| - 1] == sep
  {
    if |s| == 0 || s[|s| - 1] == sep then ""
    else
      var r := LastSegment(s[..|s| - 1], sep);
      r + [s[|s| - 1]]
  }

  /** Every `c` in `s` replaced by `rep` (JavaScript `s.replace(/c/g, rep)`). */
  function ReplaceAll(s: string, c: char, rep: string): (r: string)
    ensures c !in rep ==> c !in r
    ensures forall d :: d in r ==> d in s || d in rep
  {
    if |s| == 0 then ""
    else (if s[0] == c then rep else [s[0]]) + ReplaceAll(s[1..], c, rep)
  }

  /** Replacing in a concatenation replaces in each part. */
  lemma {:induction false} ReplaceAllConcat(a: string, b: string, c: char, rep: string)
    ensures ReplaceAll(a + b, c, rep) == ReplaceAll(a, c, rep) + ReplaceAll(b, c, rep)
    decreases |a|
  {
    if |a| == 0 {
      assert a + b == b;
    } else {
      assert (a + b)[0] == a[0] && (a + b)[1..] == a[1..] + b;
      ReplaceAllConcat(a[1..], b, c, rep);
    }
  }

  /** A text without `c` is left as it is. */
  lemma {:induction false} ReplaceAllAbsent(s: string, c: char, rep: string)
    requires c !in s
    ensures ReplaceAll(s, c, rep) == s
    decreases |s|
  {
    if |s| > 0 {
      ReplaceAllAbsent(s[1..], c, rep);
    }
  }

  /** Three global replacements, one after another. */
  function ReplaceThree(s: string, c1: char, r1: string, c2: char, r2: string, c3: char, r3: string): string {
    ReplaceAll(ReplaceAll(ReplaceAll(s, c1, r1), c2, r2), c3, r3)
  }

  lemma ReplaceThreeConcat(a: string, b: string, c1: char, r1: string, c2: char, r2: string, c3: char, r3: string)
    ensures ReplaceThree(a + b, c1, r1, c2, r2, c3, r3) == ReplaceThree(a, c1, r1, c2, r2, c3, r3) + ReplaceThree(b, c1, r1, c2, r2, c3, r3)
  {
    ReplaceAllConcat(a, b, c1, r1);
    var a1, b1 := ReplaceAll(a, c1, r1), ReplaceAll(b, c1, r1);
    ReplaceAllConcat(a1, b1, c2, r2);
    ReplaceAllConcat(ReplaceAll(a1, c2, r2), ReplaceAll(b1, c2, r2), c3, r3);
  }

  lemma ReplaceAllOne(x: char, c: char, rep: string)
    ensures ReplaceAll([x], c, rep) == if x == c then rep else [x]
  {
    assert [x][1..] == [];
    assert ReplaceAll([x][1..], c, rep) == "";
    var h := if x == c then rep else [x];
    assert h + "" == h;
  }

  /** When no replacement text holds a character a later pass replaces, each
      character is replaced at most once. */
  lemma ReplaceThreeOne(x: char, c1: char, r1: string, c2: char, r2: string, c3: char, r3: string)
    requires c2 !in r1 && c3 !in r1 && c3 !in r2
    ensures ReplaceThree([x], c1, r1, c2, r2, c3, r3) ==
      if x == c1 then r1 else if x == c2 then r2 else if x == c3 then r3 else [x]
  {
    ReplaceAllOne(x, c1, r1);
    if x == c1 {
      ReplaceAllAbsent(r1, c2, r2);
      ReplaceAllAbsent(r1, c3, r3);
    } else {
      ReplaceAllOne(x, c2, r2);
      if x == c2 {
        ReplaceAllAbsent(r2, c3, r3);
      } else {
        ReplaceAllOne(x, c3, r3);
      }
    }
  }

  /** Text order by character code, a proper prefix first (SQLite's BINARY
      collation on UTF-8 text, which orders by code point). */
  predicate Less(a: string, b: string)
    decreases |a|
  {
    |b| > 0 && (|a| == 0 || a[0] < b[0] || (a[0] == b[0] && Less(a[1..], b[1..])))
  }

  lemma {:induction false} LessIrreflexive(a: string, b: string)
    ensures Less(a, b) ==> !Less(b, a)
    decreases |a|
  {
    if |a| > 0 && |b| > 0 && a[0] == b[0] {
      LessIrreflexive(a[1..], b[1..]);
    }
  }

  lemma {:induction false} LessTransitive(a: string, b: string, c: string)
    requires Less(a, b) && Less(b, c)
    ensures Less(a, c)
    decreases |a|
  {
    if |a| > 0 && a[0] == b[0] && b[0] == c[0] {
      LessTransitive(a[1..], b[1..], c[1..]);
    }
  }

  /** Equal texts are not ordered, and different texts are ordered one way. */
  lemma {:induction false} LessTotal(a: string, b: string)
    ensures a == b ==> !Less(a, b)
    ensures a != b ==> Less(a, b) || Less(b, a)
    decreases |a|
  {
    if |a| > 0 && |b| > 0 && a[0] == b[0] {
      LessTotal(a[1..], b[1..]);
      if a != b {
        assert a == [a[0]] + a[1..] && b == [b[0]] + b[1..];
      }
    }
  }
}
