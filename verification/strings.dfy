/**
 * The string operations the generator relies on: locating a substring the way
 * `String.prototype.indexOf` does, and replacing its leftmost occurrence the way
 * `String.prototype.replace` does when its pattern is a plain string.
 */
module Strings {
  import opened Wrappers

  /** `pat` occurs in `s` starting at position `i`. */
  predicate OccursAt(s: string, pat: string, i: nat) {
    i + |pat| <= |s| && s[i..i + |pat|] == pat
  }

  /** `pat` occurs somewhere in `s`. */
  ghost predicate Contains(s: string, pat: string) {
    exists i: nat :: OccursAt(s, pat, i)
  }

  /** `i` is the leftmost position at which `pat` occurs in `s`. */
  predicate IsFirstOccurrence(s: string, pat: string, i: nat) {
    OccursAt(s, pat, i) && forall j: nat :: j < i ==> !OccursAt(s, pat, j)
  }

  /** `t` is a suffix of `s`. */
  predicate EndsWith(s: string, t: string) {
    |t| <= |s| && s[|s| - |t|..] == t
  }

  /** Leftmost occurrence of `pat` in `s` at or after position `k`. */
  function IndexFrom(s: string, pat: string, k: nat): (r: Option<nat>)
    requires k <= |s|
    decreases |s| - k
    ensures r.Some? ==> k <= r.value && OccursAt(s, pat, r.value)
    ensures r.Some? ==> forall j: nat :: k <= j < r.value ==> !OccursAt(s, pat, j)
    ensures r.None? ==> forall j: nat :: k <= j ==> !OccursAt(s, pat, j)
  {
    if |s| < k + |pat| then None
    else if s[k..k + |pat|] == pat then Some(k)
    else IndexFrom(s, pat, k + 1)
  }

  /** Leftmost occurrence of `pat` in `s`, or `None` when there is none. */
  function IndexOf(s: string, pat: string): (r: Option<nat>)
    ensures r.Some? ==> IsFirstOccurrence(s, pat, r.value)
    ensures r.None? <==> !Contains(s, pat)
  {
    IndexFrom(s, pat, 0)
  }

  /**
   * Replaces the leftmost occurrence of `pat` in `s` by `rep`, leaving `s`
   * unchanged when `pat` does not occur. The replacement text is inserted
   * literally and is not searched again.
   */
  function ReplaceFirst(s: string, pat: string, rep: string): (r: string)
    ensures !Contains(s, pat) ==> r == s
    ensures forall i: nat :: IsFirstOccurrence(s, pat, i) ==> r == s[..i] + rep + s[i + |pat|..]
  {
    match IndexOf(s, pat)
    case None => s
    case Some(i) => s[..i] + rep + s[i + |pat|..]
  }

  /** Every character an occurrence covers is a character of the pattern. */
  lemma OccurrenceCharsInPattern(s: string, pat: string, i: nat, p: nat)
    requires OccursAt(s, pat, i) && i <= p < i + |pat|
    ensures s[p] in pat
  {
    assert s[p] == s[i..i + |pat|][p - i];
  }

  /**
   * An occurrence of `pat` in `a + [c] + b`, where `c` is not a character of
   * `pat`, lies wholly inside `a` or wholly inside `b`.
   */
  lemma OccurrenceAvoidsForeign(a: string, c: char, b: string, pat: string, i: nat)
    requires c !in pat
    requires OccursAt(a + [c] + b, pat, i)
    ensures (i + |pat| <= |a| && OccursAt(a, pat, i)) || (|a| < i && OccursAt(b, pat, i - |a| - 1))
  {
    var s := a + [c] + b;
    if i + |pat| <= |a| {
      assert s[i..i + |pat|] == a[i..i + |pat|];
    } else if i <= |a| {
      assert s[|a|] == c;
      OccurrenceCharsInPattern(s, pat, i, |a|);
      assert false;
    } else {
      var j := i - |a| - 1;
      assert s[i..i + |pat|] == b[j..j + |pat|];
    }
  }

  /** An occurrence inside `b` is also one inside `a + [c] + b`, shifted by `|a| + 1`. */
  lemma OccurrenceShifts(a: string, c: char, b: string, pat: string, j: nat)
    requires OccursAt(b, pat, j)
    ensures OccursAt(a + [c] + b, pat, |a| + 1 + j)
  {
    var s := a + [c] + b;
    var i := |a| + 1 + j;
    assert s[i..i + |pat|] == b[j..j + |pat|];
  }

  /** Nothing occurs in the empty string once something occurs nowhere. */
  lemma EmptyHasNoOccurrence(a: string, pat: string)
    requires !Contains(a, pat)
    ensures |pat| > 0 && !Contains([], pat)
  {
    if |pat| == 0 {
      assert OccursAt(a, pat, 0);
    }
  }

  /**
   * Behind a prefix free of `pat` and a character foreign to `pat`, the
   * leftmost occurrence is the leftmost occurrence inside the rest, shifted.
   */
  lemma {:induction false} FirstOccurrenceAfterForeign(a: string, c: char, b: string, pat: string)
    requires c !in pat
    requires !Contains(a, pat)
    ensures Contains(a + [c] + b, pat) <==> Contains(b, pat)
    ensures forall j: nat :: IsFirstOccurrence(b, pat, j) ==> IsFirstOccurrence(a + [c] + b, pat, |a| + 1 + j)
  {
    var s := a + [c] + b;
    forall i: nat | OccursAt(s, pat, i)
      ensures |a| < i && OccursAt(b, pat, i - |a| - 1)
    {
      OccurrenceAvoidsForeign(a, c, b, pat, i);
    }
    forall j: nat | OccursAt(b, pat, j)
      ensures OccursAt(s, pat, |a| + 1 + j)
    {
      OccurrenceShifts(a, c, b, pat, j);
    }
    forall j: nat | IsFirstOccurrence(b, pat, j)
      ensures IsFirstOccurrence(s, pat, |a| + 1 + j)
    {
      assert forall i: nat :: i < |a| + 1 + j ==> !OccursAt(s, pat, i);
    }
  }

  /**
   * Behind a prefix free of `pat` and a character foreign to `pat`, the
   * replacement happens inside the rest and the prefix is kept.
   */
  lemma {:induction false} ReplaceFirstAfterForeign(a: string, c: char, b: string, pat: string, rep: string)
    requires c !in pat
    requires !Contains(a, pat)
    ensures Contains(a + [c] + b, pat) <==> Contains(b, pat)
    ensures ReplaceFirst(a + [c] + b, pat, rep) == a + [c] + ReplaceFirst(b, pat, rep)
  {
    FirstOccurrenceAfterForeign(a, c, b, pat);
    match IndexOf(b, pat)
    case None =>
      assert !Contains(b, pat);
    case Some(j) =>
      ReplaceFirstShifted(a + [c], b, pat, rep, j);
  }

  /** When the first occurrence in `p + b` is the first one of `b`, shifted, the replacement keeps `p`. */
  lemma ReplaceFirstShifted(p: string, b: string, pat: string, rep: string, j: nat)
    requires IsFirstOccurrence(b, pat, j)
    requires IsFirstOccurrence(p + b, pat, |p| + j)
    ensures ReplaceFirst(p + b, pat, rep) == p + ReplaceFirst(b, pat, rep)
  {
    var s := p + b;
    var before, after := b[..j], b[j + |pat|..];
    assert s[..|p| + j] == p + before;
    assert s[|p| + j + |pat|..] == after;
    assert ReplaceFirst(s, pat, rep) == p + before + rep + after;
    assert ReplaceFirst(b, pat, rep) == before + rep + after;
    Regroup(p, before, rep, after);
  }

  /** A string that starts with `pat` has that occurrence replaced. */
  lemma ReplaceFirstAtStart(pat: string, t: string, rep: string)
    ensures ReplaceFirst(pat + t, pat, rep) == rep + t
  {
    var s := pat + t;
    assert s[..|pat|] == pat && s[|pat|..] == t;
    assert IsFirstOccurrence(s, pat, 0);
    assert s[..0] == [];
  }

  /** The prefix of length `i + 1` is the prefix of length `i` and element `i`. */
  lemma PrefixGrows<T>(s: seq<T>, i: nat)
    requires i < |s|
    ensures s[..i + 1] == s[..i] + [s[i]]
  {
  }

  /** Concatenation regrouped so that a common prefix stands apart. */
  lemma Regroup<T>(p: seq<T>, q: seq<T>, r: seq<T>, t: seq<T>)
    ensures p + q + r + t == p + (q + r + t)
  {
  }

  /**
   * Appending a tail that is empty or starts with a character foreign to `pat`
   * to a prefix free of `pat`: the replacement acts on the tail alone.
   */
  lemma ReplaceFirstKeepsClearPrefix(a: string, b: string, pat: string, rep: string)
    requires !Contains(a, pat)
    requires b == [] || b[0] !in pat
    ensures Contains(a + b, pat) <==> Contains(b, pat)
    ensures ReplaceFirst(a + b, pat, rep) == a + ReplaceFirst(b, pat, rep)
  {
    EmptyHasNoOccurrence(a, pat);
    if b == [] {
      assert a + b == a;
    } else {
      var rest := b[1..];
      assert a + b == a + [b[0]] + rest;
      assert b == [] + [b[0]] + rest;
      ReplaceFirstAfterForeign(a, b[0], rest, pat, rep);
      ReplaceFirstAfterForeign([], b[0], rest, pat, rep);
    }
  }
}
