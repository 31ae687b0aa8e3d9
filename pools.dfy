/** What every world-object pool of the game does with its list: keep the
    entries that pass a test (the reverse `splice` loops), search for the
    first or the last entry that passes a test (the hit tests), and walk a
    spawn cursor down in fixed steps. */
module Pools {
  import opened Geometry

  /** The entries of `s` that satisfy `keep`, in their original order. */
  function Filter<T>(s: seq<T>, keep: T -> bool): (r: seq<T>)
    ensures |r| <= |s|
    ensures forall x :: x in r ==> x in s && keep(x)
  {
    if s == [] then []
    else if keep(s[0]) then [s[0]] + Filter(s[1..], keep)
    else Filter(s[1..], keep)
  }

  /** Nothing that passes the test is lost. */
  lemma {:induction false} FilterComplete<T>(s: seq<T>, keep: T -> bool, x: T)
    requires x in s && keep(x)
    ensures x in Filter(s, keep)
  {
    if s[0] != x {
      FilterComplete(s[1..], keep, x);
    }
  }

  /** Filtering distributes over concatenation. */
  lemma {:induction false} FilterAppend<T>(a: seq<T>, b: seq<T>, keep: T -> bool)
    ensures Filter(a + b, keep) == Filter(a, keep) + Filter(b, keep)
  {
    if a != [] {
      assert (a + b)[1..] == a[1..] + b;
      FilterAppend(a[1..], b, keep);
    } else {
      assert a + b == b;
    }
  }

  /** One step of the recursion. */
  lemma FilterUnfold<T>(s: seq<T>, keep: T -> bool)
    requires s != []
    ensures Filter(s, keep) == (if keep(s[0]) then [s[0]] else []) + Filter(s[1..], keep)
  {
  }

  /** A list whose entries all pass the test is kept whole. */
  lemma {:induction false} FilterKeepsAll<T>(s: seq<T>, keep: T -> bool)
    requires forall i :: 0 <= i < |s| ==> keep(s[i])
    ensures Filter(s, keep) == s
  {
    if s != [] {
      FilterKeepsAll(s[1..], keep);
    }
  }

  /** The reverse loop of the source: walk from the last index to the first
      and splice out every entry that fails `keep`. The result is Filter. */
  method RemoveWhereNot<T>(s: seq<T>, keep: T -> bool) returns (r: seq<T>)
    ensures r == Filter(s, keep)
  {
    r := s;
    var i := |s|;
    while i > 0
      invariant 0 <= i <= |s| && i <= |r|
      invariant r[..i] == s[..i]
      invariant r[i..] == Filter(s[i..], keep)
    {
      i := i - 1;
      assert r[i] == r[..i + 1][i] == s[..i + 1][i] == s[i];
      assert r[..i] == r[..i + 1][..i] == s[..i + 1][..i] == s[..i];
      FilterUnfold(s[i..], keep);
      assert s[i..][1..] == s[i + 1..];
      if !keep(r[i]) {
        assert r[i + 1..] == r[i..][1..];
        r := r[..i] + r[i + 1..];
      } else {
        assert r[i..] == [r[i]] + r[i + 1..];
      }
    }
    assert r == r[0..] && s == s[0..];
  }

  /** The first index whose entry passes `p` (a `for ... of` loop with an
      early `return`), or None. */
  function FirstIndex<T>(s: seq<T>, p: T -> bool): (r: Option<nat>)
    ensures r.Some? ==> r.value < |s| && p(s[r.value])
    ensures r.Some? ==> forall j :: 0 <= j < r.value ==> !p(s[j])
    ensures r.None? <==> forall j :: 0 <= j < |s| ==> !p(s[j])
  {
    if s == [] then None
    else if p(s[0]) then Some(0)
    else match FirstIndex(s[1..], p)
      case None => None
      case Some(k) => Some(k + 1)
  }

  /** The last index whose entry passes `p` (a loop that counts down from
      the end), or None. */
  function LastIndex<T>(s: seq<T>, p: T -> bool): (r: Option<nat>)
    ensures r.Some? ==> r.value < |s| && p(s[r.value])
    ensures r.Some? ==> forall j :: r.value < j < |s| ==> !p(s[j])
    ensures r.None? <==> forall j :: 0 <= j < |s| ==> !p(s[j])
  {
    if s == [] then None
    else if p(s[|s| - 1]) then Some(|s| - 1)
    else LastIndex(s[..|s| - 1], p)
  }

  /** LastIndex is the one index that passes with nothing after it passing. */
  lemma LastIndexIs<T>(s: seq<T>, p: T -> bool, i: nat)
    requires i < |s| && p(s[i])
    requires forall j :: i < j < |s| ==> !p(s[j])
    ensures LastIndex(s, p) == Some(i)
  {
  }

  /** How many steps of size `step` a spawn cursor takes, starting at
      `cursor`, while it is still above `limit` (the `while` loops of the
      cursor-driven spawners). */
  function CursorSteps(cursor: real, limit: real, step: real): (n: nat)
    requires step >= 1.0
    ensures cursor - step * n as real <= limit
    ensures n > 0 ==> cursor - step * (n - 1) as real > limit
    decreases if cursor > limit then (cursor - limit).Floor + 1 else 0
  {
    if cursor > limit then
      1 + CursorSteps(cursor - step, limit, step)
    else 0
  }

  /** One step of the cursor. */
  lemma CursorStepsUnfold(cursor: real, limit: real, step: real)
    requires step >= 1.0 && cursor > limit
    ensures CursorSteps(cursor, limit, step) == 1 + CursorSteps(cursor - step, limit, step)
  {
  }
}
