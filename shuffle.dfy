/**
 * The Fisher-Yates shuffle that the trivia, survey, steal, match, jackpot
 * and destroy screens each carry a copy of (`shuffleArray` / `shuffleDeck`).
 * The `Math.random()` draws are explicit: draw `k` is used by the `k`-th
 * pass of the loop, the one for position `length - 1 - k`.
 */
module Shuffle {

  /** Every draw is a possible result of `Math.random()`. */
  predicate ValidDraws(draws: seq<real>)
  {
    forall k :: 0 <= k < |draws| ==> 0.0 <= draws[k] < 1.0
  }

  /** `Math.floor(u * (i + 1))`: the position swapped with position `i`. */
  function SwapIndex(u: real, i: nat): (j: nat)
    requires 0.0 <= u < 1.0
    ensures j <= i
  {
    var m := (i + 1) as real;
    assert 0.0 <= u * m < m by {
      assert u * m <= 1.0 * m;
      assert u * m != m;
    }
    (u * m).Floor
  }

  /** `shuffleArray`: copies the input and swaps from the last position down to position 1. */
  method ShuffleArray<T>(input: seq<T>, draws: seq<real>) returns (shuffled: seq<T>)
    requires ValidDraws(draws) && |input| <= |draws| + 1
    ensures |shuffled| == |input|
    ensures multiset(shuffled) == multiset(input)
  {
    var a := new T[|input|](k requires 0 <= k < |input| => input[k]);
    assert a[..] == input;
    var i := a.Length - 1;
    var k := 0;
    while i > 0
      invariant -1 <= i < a.Length || (a.Length == 0 && i == -1)
      invariant k == a.Length - 1 - i
      invariant multiset(a[..]) == multiset(input)
    {
      var j := SwapIndex(draws[k], i);
      a[i], a[j] := a[j], a[i];
      i := i - 1;
      k := k + 1;
    }
    shuffled := a[..];
  }
}
