/** Fixed-size slot tables: first-match lookup and counting.
    Every table of the service and of the plugin is searched by the same loop. */
module Slots {

  datatype Option<+T> = None | Some(value: T)

  /** The index of the first slot satisfying `p`, or the table's length if there is none. */
  function First<T>(s: seq<T>, p: T -> bool): (r: nat)
    ensures r <= |s|
    ensures r < |s| ==> p(s[r])
    ensures forall i :: 0 <= i < r ==> !p(s[i])
  {
    if s == [] || p(s[0]) then 0 else 1 + First(s[1..], p)
  }

  /** The search loop that the C code repeats for every table. */
  method FirstMatch<T>(s: seq<T>, p: T -> bool) returns (r: nat)
    ensures r == First(s, p)
  {
    r := 0;
    while r < |s| && !p(s[r])
      invariant r <= |s|
      invariant forall i :: 0 <= i < r ==> !p(s[i])
    {
      r := r + 1;
    }
  }

  /** How many slots satisfy `p`. */
  function Count<T>(s: seq<T>, p: T -> bool): (n: nat)
    ensures n <= |s|
  {
    if s == [] then 0 else Count(s[..|s| - 1], p) + (if p(s[|s| - 1]) then 1 else 0)
  }

  lemma {:induction false} CountAppend<T>(s: seq<T>, t: seq<T>, p: T -> bool)
    ensures Count(s + t, p) == Count(s, p) + Count(t, p)
  {
    if t == [] {
      assert s + t == s;
    } else {
      CountAppend(s, t[..|t| - 1], p);
      assert (s + t)[..|s + t| - 1] == s + t[..|t| - 1];
    }
  }

  /** Overwriting one slot changes a count by exactly what that slot contributed. */
  lemma {:induction false} CountUpdate<T>(s: seq<T>, i: nat, v: T, p: T -> bool)
    requires i < |s|
    ensures Count(s[i := v], p) == Count(s, p) - (if p(s[i]) then 1 else 0) + (if p(v) then 1 else 0)
  {
    CountAppend(s[..i] + [s[i]], s[i + 1..], p);
    CountAppend(s[..i] + [v], s[i + 1..], p);
    assert s == s[..i] + [s[i]] + s[i + 1..];
    assert s[i := v] == s[..i] + [v] + s[i + 1..];
    assert (s[..i] + [s[i]])[..i] == s[..i] == (s[..i] + [v])[..i];
  }

  lemma {:induction false} CountZero<T>(s: seq<T>, p: T -> bool)
    requires forall i :: 0 <= i < |s| ==> !p(s[i])
    ensures Count(s, p) == 0
  {
    if s != [] {
      CountZero(s[..|s| - 1], p);
    }
  }

  /** A table with one slot that fails `p` counts less than its length. */
  lemma {:induction false} CountMiss<T>(s: seq<T>, p: T -> bool, i: nat)
    requires i < |s| && !p(s[i])
    ensures Count(s, p) < |s|
  {
    if i < |s| - 1 {
      CountMiss(s[..|s| - 1], p, i);
    }
  }

  lemma {:induction false} CountHit<T>(s: seq<T>, p: T -> bool, i: nat)
    requires i < |s| && p(s[i])
    ensures Count(s, p) > 0
  {
    if i < |s| - 1 {
      CountHit(s[..|s| - 1], p, i);
    }
  }

  lemma SameEnds<T>(a: seq<T>, x: T, b: seq<T>, y: T)
    requires a + [x] == b + [y]
    ensures a == b && x == y
  {
    assert |a + [x]| == |b + [y]|;
    assert a == (a + [x])[..|a|] && b == (b + [y])[..|b|];
    assert x == (a + [x])[|a|] && y == (b + [y])[|b|];
  }
}
