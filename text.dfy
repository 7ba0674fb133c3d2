/**
 Literal-pattern matching and replacement on strings.

 The action builds `RegExp(regex, regexFlags)` and uses `String.prototype.match`
 and `String.prototype.replace` on the pull-request body. This module stands in
 for them with a literal, non-empty pattern: `Find` is the leftmost match,
 `ReplaceFirst` is `replace` without the global flag and `ReplaceAll` is
 `replace` with it (every non-overlapping occurrence, left to right).
 */
module Text {
  import opened Wrappers

  /** `p` occurs in `s` starting at index `i`. */
  predicate OccursAt(s: string, p: string, i: nat) {
    i + |p| <= |s| && s[i..i + |p|] == p
  }

  /** `p` occurs somewhere in `s`. */
  predicate Contains(s: string, p: string) {
    exists i: nat :: i <= |s| && OccursAt(s, p, i)
  }

  /** `k` is the leftmost occurrence of `p` in `s`. */
  predicate IsFirstOccurrence(s: string, p: string, k: nat) {
    OccursAt(s, p, k) && forall j: nat :: j < k ==> !OccursAt(s, p, j)
  }

  /** Leftmost occurrence of `p` in `s` at or after index `from`, scanning left to right. */
  function FindFrom(s: string, p: string, from: nat): (r: Option<nat>)
    decreases |s| - from
    ensures r.Some? ==> from <= r.value && OccursAt(s, p, r.value)
    ensures forall j: nat :: from <= j && (r.None? || j < r.value) ==> !OccursAt(s, p, j)
  {
    if from + |p| > |s| then None
    else if s[from..from + |p|] == p then Some(from)
    else FindFrom(s, p, from + 1)
  }

  /** The leftmost match of `p` in `s`, the one `String.prototype.match` reports. */
  function Find(s: string, p: string): (r: Option<nat>)
    ensures r.Some? <==> Contains(s, p)
    ensures r.Some? ==> IsFirstOccurrence(s, p, r.value)
  {
    FindFrom(s, p, 0)
  }

  /** An occurrence inside a prefix of `s` is an occurrence in `s`. */
  lemma OccursInPrefix(s: string, p: string, k: nat, j: nat)
    requires k <= |s| && OccursAt(s[..k], p, j)
    ensures OccursAt(s, p, j)
  {
    assert s[..k][j..j + |p|] == s[j..j + |p|];
  }

  /** The part of `s` before its leftmost occurrence of `p` does not contain `p`. */
  lemma PrefixBeforeFirstIsFree(s: string, p: string, k: nat)
    requires |p| > 0 && IsFirstOccurrence(s, p, k)
    ensures !Contains(s[..k], p)
  {
    if Contains(s[..k], p) {
      var j: nat :| OccursAt(s[..k], p, j);
      OccursInPrefix(s, p, k, j);
    }
  }

  /** `replace` with a non-global pattern: the leftmost occurrence of `p` becomes `r`. */
  function ReplaceFirst(s: string, p: string, r: string): (t: string)
    ensures !Contains(s, p) ==> t == s
    ensures forall k: nat :: IsFirstOccurrence(s, p, k) ==> t == s[..k] + r + s[k + |p|..]
  {
    match Find(s, p)
    case None => s
    case Some(k) =>
      assert forall k': nat :: IsFirstOccurrence(s, p, k') ==> k' == k;
      s[..k] + r + s[k + |p|..]
  }

  /** `replace` with a global pattern: every non-overlapping occurrence of `p`,
      found left to right, becomes `r`. */
  function ReplaceAll(s: string, p: string, r: string): (t: string)
    requires |p| > 0
    decreases |s|
    ensures !Contains(s, p) ==> t == s
  {
    match Find(s, p)
    case None => s
    case Some(k) => s[..k] + r + ReplaceAll(s[k + |p|..], p, r)
  }

  /** `parts` glued back together with `sep` between consecutive parts. */
  function Join(parts: seq<string>, sep: string): string
    requires |parts| > 0
  {
    if |parts| == 1 then parts[0] else parts[0] + sep + Join(parts[1..], sep)
  }

  /** `s` cut at every non-overlapping occurrence of `p`, found left to right. */
  function Split(s: string, p: string): (parts: seq<string>)
    requires |p| > 0
    decreases |s|
    ensures |parts| > 0
    ensures Join(parts, p) == s
    ensures forall i :: 0 <= i < |parts| ==> !Contains(parts[i], p)
    ensures |parts| > 1 ==> IsFirstOccurrence(s, p, |parts[0]|)
    ensures forall i :: 0 <= i < |parts| - 1 ==> IsFirstOccurrence(Join(parts[i..], p), p, |parts[i]|)
  {
    match Find(s, p)
    case None => [s]
    case Some(k) =>
      var rest := Split(s[k + |p|..], p);
      var parts := [s[..k]] + rest;
      PrefixBeforeFirstIsFree(s, p, k);
      assert parts[1..] == rest;
      assert s == s[..k] + p + s[k + |p|..];
      assert parts[0..] == parts;
      forall i | 1 <= i < |parts| - 1
        ensures IsFirstOccurrence(Join(parts[i..], p), p, |parts[i]|)
      {
        assert parts[i..] == rest[i - 1..];
      }
      parts
  }

  /** Global replacement is splitting at the pattern and joining with the replacement. */
  lemma {:induction false} ReplaceAllIsSplitJoin(s: string, p: string, r: string)
    requires |p| > 0
    decreases |s|
    ensures ReplaceAll(s, p, r) == Join(Split(s, p), r)
  {
    match Find(s, p)
    case None =>
    case Some(k) =>
      ReplaceAllIsSplitJoin(s[k + |p|..], p, r);
      var rest := Split(s[k + |p|..], p);
      assert Split(s, p) == [s[..k]] + rest;
      assert ([s[..k]] + rest)[1..] == rest;
  }

  /** Replacing every occurrence of `p` by `p` itself gives back the original text. */
  lemma ReplaceAllSelf(s: string, p: string)
    requires |p| > 0
    ensures ReplaceAll(s, p, p) == s
  {
    ReplaceAllIsSplitJoin(s, p, p);
  }
}
