/** Substring search and Python's `str.split(sep)` for a non-empty separator. */
module Strings {
  import opened Wrappers

  /** `sep` occurs in `s` starting at index `i`. */
  predicate OccursAt(s: string, sep: string, i: nat) {
    i + |sep| <= |s| && s[i..i + |sep|] == sep
  }

  /** The first index at or after `from` where `sep` occurs in `s`, if any. */
  function FindFrom(s: string, sep: string, from: nat): (r: Option<nat>)
    requires from <= |s|
    ensures r.Some? ==> from <= r.value <= |s| && OccursAt(s, sep, r.value)
    ensures r.Some? ==> forall j: nat :: from <= j < r.value ==> !OccursAt(s, sep, j)
    ensures r.None? ==> forall j: nat :: from <= j ==> !OccursAt(s, sep, j)
    decreases |s| - from
  {
    if OccursAt(s, sep, from) then Some(from)
    else if from == |s| then None
    else FindFrom(s, sep, from + 1)
  }

  /** The index of the first occurrence of `sep` in `s` (Python's `s.find(sep)`, with
      `None` for -1). */
  function Find(s: string, sep: string): (r: Option<nat>)
    ensures r.Some? ==> r.value <= |s| && OccursAt(s, sep, r.value)
    ensures r.Some? ==> forall j: nat :: j < r.value ==> !OccursAt(s, sep, j)
    ensures r.None? <==> forall j: nat :: !OccursAt(s, sep, j)
  {
    FindFrom(s, sep, 0)
  }

  /** Glues `parts` back together with `sep` between neighbours (Python's `sep.join`). */
  function Join(parts: seq<string>, sep: string): string
    requires |parts| >= 1
  {
    if |parts| == 1 then parts[0] else parts[0] + sep + Join(parts[1..], sep)
  }

  /** A prefix of `s` that stops short of the first occurrence of `sep` has no occurrence. */
  lemma NoOccurrenceBeforeFirst(s: string, sep: string, i: nat)
    requires |sep| > 0 && i <= |s|
    requires forall j: nat :: j < i ==> !OccursAt(s, sep, j)
    ensures forall j: nat :: !OccursAt(s[..i], sep, j)
  {
    forall j: nat
      ensures !OccursAt(s[..i], sep, j)
    {
      if OccursAt(s[..i], sep, j) {
        assert s[..i][j..j + |sep|] == s[j..j + |sep|];
        assert OccursAt(s, sep, j);
      }
    }
  }

  /** Around its first occurrence of `sep`, `s` falls into a `sep`-free front,
      `sep` and the rest. */
  lemma SplitAtFirst(s: string, sep: string, i: nat)
    requires |sep| > 0 && Find(s, sep) == Some(i)
    ensures s == s[..i] + sep + s[i + |sep|..]
    ensures Find(s[..i], sep).None?
  {
    NoOccurrenceBeforeFirst(s, sep, i);
    assert s[i..i + |sep|] == sep;
    assert s == s[..i] + s[i..i + |sep|] + s[i + |sep|..];
  }

  /** The text before the first occurrence of `sep`, followed by `sep`, has its first
      occurrence of `sep` exactly at the end of that text: no occurrence straddles the cut. */
  lemma FirstCutIsLeftmost(s: string, sep: string, i: nat)
    requires |sep| > 0 && Find(s, sep) == Some(i)
    ensures Find(s[..i] + sep, sep) == Some(i)
  {
    var t := s[..i] + sep;
    assert t == s[..i + |sep|];
    assert OccursAt(t, sep, i);
    forall j: nat | j < i
      ensures !OccursAt(t, sep, j)
    {
      assert t[j..j + |sep|] == s[j..j + |sep|];
      assert !OccursAt(s, sep, j);
    }
  }

  /** Joining a piece in front of further pieces. */
  lemma JoinCons(h: string, rest: seq<string>, sep: string)
    requires |rest| >= 1
    ensures Join([h] + rest, sep) == h + sep + Join(rest, sep)
  {
    assert ([h] + rest)[1..] == rest;
  }

  /** Python's `s.split(sep)`: the pieces between successive non-overlapping
      occurrences of `sep`, scanning left to right. */
  function Split(s: string, sep: string): (parts: seq<string>)
    requires |sep| > 0
    ensures |parts| >= 1
    ensures |parts| == 1 <==> Find(s, sep).None?
    ensures Join(parts, sep) == s
    ensures forall k :: 0 <= k < |parts| ==> Find(parts[k], sep).None?
    ensures forall k :: 0 <= k < |parts| - 1 ==> Find(parts[k] + sep, sep) == Some(|parts[k]|)
    decreases |s|
  {
    match Find(s, sep)
    case None => [s]
    case Some(i) =>
      var rest := Split(s[i + |sep|..], sep);
      SplitAtFirst(s, sep, i);
      JoinCons(s[..i], rest, sep);
      FirstCutIsLeftmost(s, sep, i);
      [s[..i]] + rest
  }

  /** The first piece of a split is the longest prefix free of `sep`: either all of
      `s`, or the text just before the first occurrence of `sep`. */
  lemma {:induction false} SplitHead(s: string, sep: string)
    requires |sep| > 0
    ensures var h := Split(s, sep)[0];
      && |h| <= |s| && s[..|h|] == h
      && Find(h, sep).None?
      && (|h| == |s| || OccursAt(s, sep, |h|))
  {
    match Find(s, sep)
    case None =>
    case Some(i) =>
      assert Split(s, sep)[0] == s[..i];
  }

  /** A one-character separator occurs exactly where that character stands. */
  lemma OccursAtChar(s: string, c: char, j: nat)
    ensures OccursAt(s, [c], j) <==> j < |s| && s[j] == c
  {
    if j < |s| {
      assert s[j..j + 1] == [s[j]];
    }
  }

  /** A string with no occurrence of the one-character string `[c]` does not contain `c`. */
  lemma NoCharOccurrence(s: string, c: char)
    requires Find(s, [c]).None?
    ensures c !in s
  {
    if c in s {
      var j :| 0 <= j < |s| && s[j] == c;
      OccursAtChar(s, c, j);
    }
  }
}
