/** The Fisher-Yates shuffle, with the random draws supplied by the caller. */
module Shuffling {
  import opened Types

  // `swaps[i]` is the index drawn when the loop stands at position `i`;
  // entry 0 is never read.

  /** Every draw lies in `[0, i]`, as `floor(random() * (i + 1))` does. */
  predicate SwapsFit(swaps: seq<nat>, n: nat)
  {
    |swaps| == n && forall i :: 0 < i < n ==> swaps[i] <= i
  }

  function Swap(a: seq<Card>, i: nat, j: nat): (r: seq<Card>)
    requires i < |a| && j < |a|
    ensures |r| == |a|
  {
    a[i := a[j]][j := a[i]]
  }

  lemma SwapPermutes(a: seq<Card>, i: nat, j: nat)
    requires i < |a| && j < |a|
    ensures multiset(Swap(a, i, j)) == multiset(a)
  {
  }

  /** The Fisher-Yates passes for positions `i` down to 1. */
  function FisherYates(a: seq<Card>, swaps: seq<nat>, i: nat): (r: seq<Card>)
    requires i < |a| && SwapsFit(swaps, |a|)
    ensures |r| == |a|
    decreases i
  {
    if i == 0 then a else FisherYates(Swap(a, i, swaps[i]), swaps, i - 1)
  }

  /** Every pass only exchanges two cards, so the passes together permute the input. */
  lemma {:induction false} FisherYatesPermutes(a: seq<Card>, swaps: seq<nat>, i: nat)
    requires i < |a| && SwapsFit(swaps, |a|)
    ensures multiset(FisherYates(a, swaps, i)) == multiset(a)
    decreases i
  {
    if i > 0 {
      SwapPermutes(a, i, swaps[i]);
      FisherYatesPermutes(Swap(a, i, swaps[i]), swaps, i - 1);
    }
  }

  /** The shuffle as a function: a permutation of its input, for every length. */
  function Shuffle(deck: seq<Card>, swaps: seq<nat>): (r: seq<Card>)
    requires SwapsFit(swaps, |deck|)
    ensures |r| == |deck| && multiset(r) == multiset(deck)
  {
    if |deck| == 0 then deck
    else
      FisherYatesPermutes(deck, swaps, |deck| - 1);
      FisherYates(deck, swaps, |deck| - 1)
  }

  /** One pass of the loop: swapping position `i` with its draw leaves the passes below `i` to do. */
  lemma PassStep(a: seq<Card>, swaps: seq<nat>, i: nat)
    requires 0 < i < |a| && SwapsFit(swaps, |a|)
    ensures FisherYates(Swap(a, i, swaps[i]), swaps, i - 1) == FisherYates(a, swaps, i)
  {
  }

  /**
   * The shuffle as a swapping loop: copy the input (a sequence is a value,
   * so the caller's deck is never changed), then swap position `i` with
   * `swaps[i]` for `i` from the last index down to 1.
   */
  method ShuffleInPlace(deck: seq<Card>, swaps: seq<nat>) returns (r: seq<Card>)
    requires SwapsFit(swaps, |deck|)
    ensures r == Shuffle(deck, swaps)
    ensures |r| == |deck| && multiset(r) == multiset(deck)
  {
    var a := deck;
    if |deck| == 0 { return a; }
    var i: nat := |deck| - 1;
    while i > 0
      invariant |a| == |deck|
      invariant i < |deck|
      invariant FisherYates(a, swaps, i) == Shuffle(deck, swaps)
    {
      var j := swaps[i];
      PassStep(a, swaps, i);
      a := Swap(a, i, j);
      i := i - 1;
    }
    r := a;
  }
}
