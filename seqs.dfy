/** Sequence helpers shared by the dashboard: JavaScript's `slice(-k)` and
    sums of event values. */
module Seqs {
  import opened Types

  function Min(a: int, b: int): int {
    if a < b then a else b
  }

  /** `s.slice(-k)` for a positive k: the last k elements of s, or all of s
      when it is shorter. */
  function Tail<T>(s: seq<T>, k: nat): (r: seq<T>)
    ensures |r| == Min(|s|, k)
    ensures s[..|s| - |r|] + r == s
    ensures |s| <= k ==> r == s
  {
    if |s| <= k then s else s[|s| - k..]
  }

  /** A shorter tail of a tail is a tail: `t.slice(-j)` of `s.slice(-k)` is
      `s.slice(-j)` when j <= k. */
  lemma TailOfTail<T>(s: seq<T>, k: nat, j: nat)
    requires j <= k
    ensures Tail(Tail(s, k), j) == Tail(s, j)
  {
  }

  /** Taking the last k after appending x is the last k-1 before, then x. */
  lemma TailAppend<T>(s: seq<T>, x: T, k: nat)
    requires k > 0
    ensures Tail(s + [x], k) == Tail(s, k - 1) + [x]
  {
    var t := s + [x];
    if |t| > k {
      assert t[|t| - k..] == s[|s| - (k - 1)..] + [x];
    }
  }

  /** The sum of the values of a sequence of events, folded from the back. */
  function SumValues(events: seq<TradeEvent>): int
  {
    if events == [] then 0
    else SumValues(events[..|events| - 1]) + events[|events| - 1].value
  }
}
