/**
 * The JavaScript string built-ins the routes and middleware rely on:
 * `includes`, `startsWith`, `endsWith`, `split` with a one-character
 * separator, and `trim`. Strings are `seq<char>`, sequences of Unicode
 * scalar values; JavaScript strings are UTF-16 code units, which agree with
 * them on the operations used here for well-formed text.
 */
module Strings {

  /** `s.startsWith(p)`. */
  predicate StartsWith(s: string, p: string): (r: bool)
    ensures r <==> |p| <= |s| && forall k :: 0 <= k < |p| ==> s[k] == p[k]
  {
    |p| <= |s| && s[..|p|] == p
  }

  /** `s.endsWith(p)`. */
  predicate EndsWith(s: string, p: string): (r: bool)
    ensures r <==> |p| <= |s| && forall k :: 0 <= k < |p| ==> s[|s| - |p| + k] == p[k]
  {
    |p| <= |s| && s[|s| - |p|..] == p
  }

  /** `t` occurs in `s` starting at index `i`. */
  ghost predicate OccursAt(s: string, t: string, i: int) {
    0 <= i && i + |t| <= |s| && s[i..i + |t|] == t
  }

  /** `s.includes(t)`: a left-to-right search for `t`, one starting position at a time. */
  function Contains(s: string, t: string): (r: bool)
    ensures r <==> exists i :: OccursAt(s, t, i)
    decreases |s|
  {
    if StartsWith(s, t) then
      assert OccursAt(s, t, 0);
      true
    else if |s| == 0 then
      assert forall i :: OccursAt(s, t, i) ==> i == 0;
      false
    else
      var r := Contains(s[1..], t);
      assert forall i :: OccursAt(s, t, i) && i > 0 ==> OccursAt(s[1..], t, i - 1);
      assert forall i :: OccursAt(s[1..], t, i) ==> OccursAt(s, t, i + 1);
      r
  }

  /** The index of the first occurrence of `c` in `s`. */
  function IndexOf(s: string, c: char): (i: nat)
    requires c in s
    ensures i < |s| && s[i] == c
    ensures forall k :: 0 <= k < i ==> s[k] != c
  {
    if s[0] == c then 0 else IndexOf(s[1..], c) + 1
  }

  /** The inverse of `Split`: the pieces glued back together with `sep` between them. */
  function Join(parts: seq<string>, sep: char): string
    requires |parts| >= 1
  {
    if |parts| == 1 then parts[0] else parts[0] + [sep] + Join(parts[1..], sep)
  }

  /**
   * `s.split(sep)` for a one-character separator: the text before the first
   * separator, then the split of the text after it. Empty pieces are kept, as
   * JavaScript keeps them ("a//b" gives "a", "", "b"; "" gives [""]).
   */
  function Split(s: string, sep: char): (parts: seq<string>)
    ensures |parts| >= 1
    decreases |s|
  {
    if sep !in s then [s]
    else
      var i := IndexOf(s, sep);
      [s[..i]] + Split(s[i + 1..], sep)
  }

  /** No piece of a split holds the separator. */
  lemma {:induction false} SplitPiecesFree(s: string, sep: char)
    ensures var parts := Split(s, sep);
      forall k :: 0 <= k < |parts| ==> sep !in parts[k]
    decreases |s|
  {
    if sep in s {
      var i := IndexOf(s, sep);
      var rest := s[i + 1..];
      SplitPiecesFree(rest, sep);
      assert Split(s, sep) == [s[..i]] + Split(rest, sep);
    }
  }

  /** Joining the pieces of a split with the separator gives back the original string. */
  lemma {:induction false} JoinSplit(s: string, sep: char)
    ensures Join(Split(s, sep), sep) == s
    decreases |s|
  {
    if sep in s {
      var i := IndexOf(s, sep);
      var rest := s[i + 1..];
      JoinSplit(rest, sep);
      var parts := Split(s, sep);
      assert parts == [s[..i]] + Split(rest, sep);
      assert parts[1..] == Split(rest, sep);
      assert s == s[..i] + [sep] + rest;
    }
  }

  /** `s.split(sep).pop()`: the text after the last separator, or all of `s` when there is none. */
  function LastPiece(s: string, sep: char): (r: string)
    ensures sep !in r && |r| <= |s|
    decreases |s|
  {
    if sep !in s then s else LastPiece(s[IndexOf(s, sep) + 1..], sep)
  }

  /** `LastPiece` is indeed the last element of the split. */
  lemma {:induction false} LastPieceIsPop(s: string, sep: char)
    ensures var parts := Split(s, sep);
      LastPiece(s, sep) == parts[|parts| - 1]
    decreases |s|
  {
    if sep in s {
      var i := IndexOf(s, sep);
      var rest := s[i + 1..];
      var tail := Split(rest, sep);
      assert Split(s, sep) == [s[..i]] + tail;
      LastPieceIsPop(rest, sep);
    }
  }

  /**
   * The last piece of a split holds no separator and is a suffix of the split
   * string, preceded by the separator unless it is the whole string.
   */
  lemma {:induction false} LastPieceIsSuffix(s: string, sep: char)
    ensures var p := LastPiece(s, sep);
      && s[|s| - |p|..] == p
      && (|p| < |s| ==> s[|s| - |p| - 1] == sep)
    decreases |s|
  {
    if sep in s {
      var i := IndexOf(s, sep);
      var rest := s[i + 1..];
      var p := LastPiece(rest, sep);
      assert LastPiece(s, sep) == p;
      LastPieceIsSuffix(rest, sep);
      SuffixOfRest(s, i, rest, p, sep);
    }
  }

  /** A separated suffix of the text after a separator at `i` is a separated suffix of `s`. */
  lemma SuffixOfRest(s: string, i: nat, rest: string, p: string, sep: char)
    requires i < |s| && s[i] == sep && rest == s[i + 1..]
    requires |p| <= |rest| && rest[|rest| - |p|..] == p
    requires |p| < |rest| ==> rest[|rest| - |p| - 1] == sep
    ensures |p| <= |s| && s[|s| - |p|..] == p
    ensures |p| < |s| ==> s[|s| - |p| - 1] == sep
  {
    assert |s| - |p| == i + 1 + (|rest| - |p|);
    assert s[|s| - |p|..] == rest[|rest| - |p|..];
  }

  /** Unfolds `Split` once: a separator present splits off the text before its first occurrence. */
  lemma SplitAtFirst(s: string, sep: char)
    requires sep in s
    ensures var i := IndexOf(s, sep);
      Split(s, sep) == [s[..i]] + Split(s[i + 1..], sep)
  {
  }

  /** Whitespace as `String.prototype.trim` removes it: the ASCII blanks, NBSP, BOM and the Unicode separators. */
  predicate IsSpace(c: char): (r: bool)
    ensures '!' <= c <= '~' ==> !r
    ensures c == ' ' || c == '\t' || c == '\n' || c == '\r' ==> r
  {
    c == ' ' || c == '\t' || c == '\n' || c == '\r' || c == '\U{000B}' || c == '\U{000C}'
    || c == '\U{00A0}' || c == '\U{FEFF}' || c == '\U{1680}' || ('\U{2000}' <= c <= '\U{200A}')
    || c == '\U{2028}' || c == '\U{2029}' || c == '\U{202F}' || c == '\U{205F}' || c == '\U{3000}'
  }

  /** `s.trimStart()`. */
  function TrimStart(s: string): (r: string)
    ensures |r| <= |s| && r == s[|s| - |r|..]
    ensures r == [] || !IsSpace(r[0])
    ensures forall k :: 0 <= k < |s| - |r| ==> IsSpace(s[k])
  {
    if |s| > 0 && IsSpace(s[0]) then TrimStart(s[1..]) else s
  }

  /** `s.trimEnd()`. */
  function TrimEnd(s: string): (r: string)
    ensures |r| <= |s| && r == s[..|r|]
    ensures r == [] || !IsSpace(r[|r| - 1])
    ensures forall k :: |r| <= k < |s| ==> IsSpace(s[k])
  {
    if |s| > 0 && IsSpace(s[|s| - 1]) then TrimEnd(s[..|s| - 1]) else s
  }

  /** `s.trim()`: the longest slice of `s` that neither starts nor ends with whitespace. */
  function Trim(s: string): (r: string)
    ensures |r| <= |s|
    ensures r == [] || (!IsSpace(r[0]) && !IsSpace(r[|r| - 1]))
  {
    TrimEnd(TrimStart(s))
  }

  /** `trim` removes a whitespace prefix and a whitespace suffix, and keeps the slice between them. */
  lemma {:induction false} TrimIsSlice(s: string)
    ensures var r := Trim(s);
      var a := |s| - |TrimStart(s)|;
      && a + |r| <= |s| && s[a..a + |r|] == r
      && (forall k :: 0 <= k < a ==> IsSpace(s[k]))
      && (forall k :: a + |r| <= k < |s| ==> IsSpace(s[k]))
  {
    var t := TrimStart(s);
    var r := TrimEnd(t);
    var a := |s| - |t|;
    assert t == s[a..];
    assert r == t[..|r|];
    assert s[a..][..|r|] == s[a..a + |r|];
  }

  /** The result of `trim` neither starts nor ends with whitespace, so trimming it again changes nothing. */
  lemma {:induction false} TrimIsIdempotent(s: string)
    ensures var r := Trim(s);
      && (r == [] || (!IsSpace(r[0]) && !IsSpace(r[|r| - 1])))
      && Trim(r) == r
  {
    var t := TrimStart(s);
    var r := TrimEnd(t);
    if r != [] {
      assert r[0] == t[0];
    }
    TrimmedIsFixed(r);
  }

  /** A string with no whitespace at either end is its own trim. */
  lemma {:induction false} TrimmedIsFixed(r: string)
    requires r == [] || (!IsSpace(r[0]) && !IsSpace(r[|r| - 1]))
    ensures Trim(r) == r
  {
    assert TrimStart(r) == r;
    assert TrimEnd(r) == r;
  }
}
