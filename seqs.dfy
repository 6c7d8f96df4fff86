/** Sequence helpers shared by the stores: Swift's `filter`, `prefix(_:)` and `randomElement()`. */
module Seqs {
  import opened Wrappers

  /** The elements of `s` satisfying `p`, in their original order (Swift's `filter`). */
  function Filter<T>(s: seq<T>, p: T -> bool): (r: seq<T>)
    ensures |r| <= |s|
    ensures forall i | 0 <= i < |r| :: r[i] in s && p(r[i])
    ensures forall i | 0 <= i < |s| :: p(s[i]) ==> s[i] in r
    decreases |s|
  {
    if s == [] then [] else (if p(s[0]) then [s[0]] else []) + Filter(s[1..], p)
  }

  lemma {:induction false} FilterAppend<T>(a: seq<T>, b: seq<T>, p: T -> bool)
    ensures Filter(a + b, p) == Filter(a, p) + Filter(b, p)
    decreases |a|
  {
    if a == [] {
      assert a + b == b;
    } else {
      assert (a + b)[1..] == a[1..] + b;
      FilterAppend(a[1..], b, p);
    }
  }

  /** Filtering keeps a sequence whose every element already satisfies the test. */
  lemma {:induction false} FilterKeepsAll<T>(s: seq<T>, p: T -> bool)
    requires forall i | 0 <= i < |s| :: p(s[i])
    ensures Filter(s, p) == s
    decreases |s|
  {
    if s != [] {
      FilterKeepsAll(s[1..], p);
    }
  }

  /** Filtering twice with the same test is filtering once. */
  lemma FilterIdempotent<T>(s: seq<T>, p: T -> bool)
    ensures Filter(Filter(s, p), p) == Filter(s, p)
  {
    FilterKeepsAll(Filter(s, p), p);
  }

  /** A filter that nothing passes yields the empty sequence. */
  lemma {:induction false} FilterNone<T>(s: seq<T>, p: T -> bool)
    requires forall i | 0 <= i < |s| :: !p(s[i])
    ensures Filter(s, p) == []
    decreases |s|
  {
    if s != [] {
      FilterNone(s[1..], p);
    }
  }

  /** `randomElement()` with the random source injected as `pick`: nil exactly for an empty sequence. */
  function RandomElement<T>(s: seq<T>, pick: nat): (r: Option<T>)
    ensures r.None? <==> s == []
    ensures r.Some? ==> r.value in s
  {
    if s == [] then None else Some(s[pick % |s|])
  }

  /** Swift's `prefix(n)`: the first `n` elements, or all of them when there are fewer. */
  function Take<T>(s: seq<T>, n: nat): (r: seq<T>)
    ensures |r| <= n && |r| <= |s|
    ensures |s| <= n ==> r == s
    ensures |s| > n ==> |r| == n
    ensures forall i | 0 <= i < |r| :: r[i] == s[i]
  {
    if |s| <= n then s else s[..n]
  }
}
