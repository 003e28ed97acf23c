/**
 * The JavaScript string built-ins the screens rely on: `trim` (the weather and
 * voice gates), `includes` (the report classifiers) and `split`/`join` (the
 * profile avatar). A JavaScript string is modelled as a sequence of characters.
 */
module Strings {

  import opened Wrappers

  /** The characters String.prototype.trim strips: ECMAScript WhiteSpace and LineTerminator. */
  const WhitespaceChars: set<char> := {
    '\t', '\n', '\U{0B}', '\U{0C}', '\r', ' ', '\U{A0}', '\U{1680}',
    '\U{2000}', '\U{2001}', '\U{2002}', '\U{2003}', '\U{2004}', '\U{2005}',
    '\U{2006}', '\U{2007}', '\U{2008}', '\U{2009}', '\U{200A}',
    '\U{2028}', '\U{2029}', '\U{202F}', '\U{205F}', '\U{3000}', '\U{FEFF}'}

  predicate IsWhitespace(c: char) {
    c in WhitespaceChars
  }

  /** Every character of `s` is whitespace (the empty string included). */
  predicate Blank(s: string) {
    forall i :: 0 <= i < |s| ==> IsWhitespace(s[i])
  }

  /** The number of whitespace characters `s` starts with. */
  function LeadingWhitespace(s: string): (n: nat)
    ensures n <= |s| && forall i :: 0 <= i < n ==> IsWhitespace(s[i])
    ensures n == |s| || !IsWhitespace(s[n])
  {
    if |s| > 0 && IsWhitespace(s[0]) then
      var n := 1 + LeadingWhitespace(s[1..]);
      assert forall i :: 1 <= i < n ==> s[i] == s[1..][i - 1];
      n
    else
      0
  }

  /** The number of whitespace characters `s` ends with. */
  function TrailingWhitespace(s: string): (n: nat)
    ensures n <= |s| && forall i :: |s| - n <= i < |s| ==> IsWhitespace(s[i])
    ensures n == |s| || !IsWhitespace(s[|s| - 1 - n])
  {
    if |s| > 0 && IsWhitespace(s[|s| - 1]) then
      var n := 1 + TrailingWhitespace(s[..|s| - 1]);
      assert forall i :: |s| - n <= i < |s| - 1 ==> s[i] == s[..|s| - 1][i];
      n
    else
      0
  }

  /** `s` with its leading whitespace removed. */
  function TrimStart(s: string): (r: string)
    ensures |r| <= |s| && r == s[|s| - |r|..]
    ensures forall i :: 0 <= i < |s| - |r| ==> IsWhitespace(s[i])
    ensures r == [] || !IsWhitespace(r[0])
  {
    s[LeadingWhitespace(s)..]
  }

  /** `s` with its trailing whitespace removed. */
  function TrimEnd(s: string): (r: string)
    ensures |r| <= |s| && r == s[..|r|]
    ensures forall i :: |r| <= i < |s| ==> IsWhitespace(s[i])
    ensures r == [] || !IsWhitespace(r[|r| - 1])
  {
    s[..|s| - TrailingWhitespace(s)]
  }

  /**
   * String.prototype.trim: the slice of `s` that starts after its leading
   * whitespace and leaves out only whitespace at the end; empty exactly when
   * `s` is blank, and otherwise neither starts nor ends with whitespace.
   */
  function Trim(s: string): (r: string)
    ensures LeadingWhitespace(s) + |r| <= |s| && r == s[LeadingWhitespace(s)..LeadingWhitespace(s) + |r|]
    ensures forall i :: LeadingWhitespace(s) + |r| <= i < |s| ==> IsWhitespace(s[i])
    ensures r == [] <==> Blank(s)
    ensures r == [] || (!IsWhitespace(r[0]) && !IsWhitespace(r[|r| - 1]))
  {
    var t := TrimStart(s);
    var r := TrimEnd(t);
    TrimSlice(s, t, r, LeadingWhitespace(s));
    r
  }

  /**
   * The step behind Trim's postconditions, from what TrimStart, TrimEnd and
   * LeadingWhitespace promise: a prefix `r` of a suffix `t` is a slice of
   * `s` starting after the leading whitespace, with only whitespace left out,
   * and it is empty exactly when `s` is blank.
   */
  lemma TrimSlice(s: string, t: string, r: string, n: nat)
    requires |t| <= |s| && t == s[|s| - |t|..] && forall i :: 0 <= i < |s| - |t| ==> IsWhitespace(s[i])
    requires t == [] || !IsWhitespace(t[0])
    requires |r| <= |t| && r == t[..|r|] && forall i :: |r| <= i < |t| ==> IsWhitespace(t[i])
    requires r == [] || !IsWhitespace(r[|r| - 1])
    requires n <= |s| && (forall i :: 0 <= i < n ==> IsWhitespace(s[i])) && (n == |s| || !IsWhitespace(s[n]))
    ensures n + |r| <= |s| && r == s[n..n + |r|]
    ensures forall i :: n + |r| <= i < |s| ==> IsWhitespace(s[i])
    ensures r == [] <==> Blank(s)
    ensures r == [] || (!IsWhitespace(r[0]) && !IsWhitespace(r[|r| - 1]))
  {
    var a := |s| - |t|;
    assert a == |s| || s[a] == t[0];
    forall i | a + |r| <= i < |s|
      ensures IsWhitespace(s[i])
    {
      assert s[i] == t[i - a];
    }
    assert r != [] ==> r[0] == t[0];
    assert r == [] ==> t == [];
  }

  /** `s` is a string whose trim is non-empty: JavaScript's truthiness of `s.trim()`. */
  predicate HasContent(s: string) {
    Trim(s) != []
  }

  /** `sub` occurs in `s` starting at position `i`. */
  predicate OccursAt(s: string, sub: string, i: int) {
    0 <= i <= |s| - |sub| && s[i..i + |sub|] == sub
  }

  /** String.prototype.includes: `sub` occurs in `s` at some position. */
  predicate Includes(s: string, sub: string) {
    exists i :: 0 <= i <= |s| - |sub| && OccursAt(s, sub, i)
  }

  /** A string includes each of its prefixes: the match at position 0. */
  lemma IncludesPrefix(s: string, sub: string)
    requires |sub| <= |s| && s[..|sub|] == sub
    ensures Includes(s, sub)
  {
    assert OccursAt(s, sub, 0);
  }

  /** If some character of `sub` does not occur in `s`, then `s` does not include `sub`. */
  lemma NotIncludesMissingChar(s: string, sub: string, k: nat)
    requires k < |sub| && sub[k] !in s
    ensures !Includes(s, sub)
  {
    forall i | 0 <= i <= |s| - |sub|
      ensures !OccursAt(s, sub, i)
    {
      assert s[i..i + |sub|][k] in s;
    }
  }

  /**
   * If the first character of `sub` occurs in `s` only once, at position `p`,
   * and is not followed there by the second character of `sub`, then `s` does
   * not include `sub`.
   */
  lemma NotIncludesSingleStart(s: string, sub: string, p: nat)
    requires 2 <= |sub| && p < |s| && s[p] == sub[0]
    requires sub[0] !in s[..p] && sub[0] !in s[p + 1..]
    requires p + 1 == |s| || s[p + 1] != sub[1]
    ensures !Includes(s, sub)
  {
    forall i | 0 <= i <= |s| - |sub|
      ensures !OccursAt(s, sub, i)
    {
      assert s[i..i + |sub|][0] == s[i];
      assert s[i..i + |sub|][1] == s[i + 1];
      if i < p {
        assert s[i] in s[..p];
      } else if i > p {
        assert s[i] in s[p + 1..];
      }
    }
  }

  /** The index of the first group in `groups` that has a member included in `s`. */
  function FirstMatch(groups: seq<seq<string>>, s: string): (r: Option<nat>)
    ensures r.Some? ==> r.value < |groups| && AnyIncluded(s, groups[r.value])
    ensures r.Some? ==> forall j :: 0 <= j < r.value ==> !AnyIncluded(s, groups[j])
    ensures r.None? ==> forall j :: 0 <= j < |groups| ==> !AnyIncluded(s, groups[j])
  {
    if |groups| == 0 then None
    else if AnyIncluded(s, groups[0]) then Some(0)
    else match FirstMatch(groups[1..], s)
      case Some(k) => Some(k + 1)
      case None => None
  }

  /** `s` includes at least one of `stems`. */
  predicate AnyIncluded(s: string, stems: seq<string>) {
    exists k :: 0 <= k < |stems| && Includes(s, stems[k])
  }

  /** Array.prototype.join: the parts with `sep` between neighbours. */
  function Join(parts: seq<string>, sep: string): string {
    if |parts| == 0 then []
    else if |parts| == 1 then parts[0]
    else parts[0] + sep + Join(parts[1..], sep)
  }

  /** String.prototype.split with a one-character separator: the maximal runs between separators, empty runs kept. */
  function Split(s: string, sep: char): (parts: seq<string>)
    ensures |parts| >= 1
    ensures forall k :: 0 <= k < |parts| ==> sep !in parts[k]
  {
    if |s| == 0 then [[]]
    else
      var rest := Split(s[1..], sep);
      if s[0] == sep then [[]] + rest
      else [[s[0]] + rest[0]] + rest[1..]
  }

  /** Joining the parts of a split with the separator gives back the original string. */
  lemma {:induction false} JoinSplit(s: string, sep: char)
    ensures Join(Split(s, sep), [sep]) == s
  {
    if |s| > 0 {
      var rest := Split(s[1..], sep);
      JoinSplit(s[1..], sep);
      if s[0] == sep {
        assert Split(s, sep) == [[]] + rest;
        assert ([[]] + rest)[1..] == rest;
      } else {
        var parts := Split(s, sep);
        assert parts[1..] == rest[1..];
        if |rest| > 1 {
          assert Join(rest, [sep]) == rest[0] + [sep] + Join(rest[1..], [sep]);
          assert Join(parts, [sep]) == ([s[0]] + rest[0]) + [sep] + Join(rest[1..], [sep]);
        }
        assert s == [s[0]] + s[1..];
      }
    }
  }

  /** A separator-free word followed by a separator splits into that word and the split of the remainder. */
  lemma {:induction false} SplitAfterWord(w: string, sep: char, tail: string)
    requires sep !in w
    ensures Split(w + [sep] + tail, sep) == [w] + Split(tail, sep)
  {
    if |w| == 0 {
      assert [] + [sep] + tail == [sep] + tail;
      assert ([sep] + tail)[1..] == tail;
    } else {
      var x := w + [sep] + tail;
      SplitAfterWord(w[1..], sep, tail);
      assert x[1..] == w[1..] + [sep] + tail;
      var rest := Split(x[1..], sep);
      assert rest == [w[1..]] + Split(tail, sep);
      assert x[0] == w[0] && x[0] != sep;
      assert Split(x, sep) == [[w[0]] + rest[0]] + rest[1..];
      assert [w[0]] + w[1..] == w;
    }
  }

  /** A separator-free word splits into itself alone. */
  lemma {:induction false} SplitWord(w: string, sep: char)
    requires sep !in w
    ensures Split(w, sep) == [w]
  {
    if |w| > 0 {
      SplitWord(w[1..], sep);
      assert [w[0]] + w[1..] == w;
    }
  }

  /** Splitting undoes joining, when no part contains the separator. */
  lemma {:induction false} SplitJoin(parts: seq<string>, sep: char)
    requires |parts| >= 1
    requires forall k :: 0 <= k < |parts| ==> sep !in parts[k]
    ensures Split(Join(parts, [sep]), sep) == parts
  {
    if |parts| == 1 {
      SplitWord(parts[0], sep);
    } else {
      SplitJoin(parts[1..], sep);
      SplitAfterWord(parts[0], sep, Join(parts[1..], [sep]));
      assert [parts[0]] + parts[1..] == parts;
    }
  }
}
