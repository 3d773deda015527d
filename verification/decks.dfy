/**
 * Facts about collections of cards drawn from one created deck: no card twice,
 * no identity twice, and at most four 8s.
 */
module Decks {
  import opened Types
  import opened CardUtils

  /** `cs` holds, with multiplicity, only cards of one created deck. */
  predicate FromDeck(cs: seq<Card>)
  {
    multiset(cs) <= multiset(CreateDeck())
  }

  /** Both parts of a split selection are selections too. */
  lemma FromDeckParts(cs: seq<Card>, i: nat)
    requires i <= |cs| && FromDeck(cs)
    ensures FromDeck(cs[..i]) && FromDeck(cs[i..])
  {
    assert cs == cs[..i] + cs[i..];
    assert multiset(cs) == multiset(cs[..i]) + multiset(cs[i..]);
  }

  lemma {:induction false} DistinctCountsOnce(d: seq<Card>, x: Card)
    requires Distinct(d)
    ensures multiset(d)[x] <= 1
  {
    if |d| > 0 {
      assert d == [d[0]] + d[1..];
      assert Distinct(d[1..]) by {
        forall i, j | 0 <= i < j < |d[1..]|
          ensures d[1..][i] != d[1..][j]
        {
          assert d[1..][i] == d[i + 1] && d[1..][j] == d[j + 1];
        }
      }
      DistinctCountsOnce(d[1..], x);
      if d[0] == x {
        assert x !in d[1..] by {
          forall k | 0 <= k < |d[1..]|
            ensures d[1..][k] != x
          {
            assert d[1..][k] == d[k + 1];
          }
        }
      }
    }
  }

  /** A card at two positions is counted at least twice. */
  lemma RepeatCountsTwice(h: seq<Card>, i: nat, j: nat)
    requires i < j < |h| && h[i] == h[j]
    ensures multiset(h)[h[i]] >= 2
  {
    assert h == h[..j] + h[j..];
    assert h[i] in h[..j];
    assert h[j] in h[j..];
    assert multiset(h) == multiset(h[..j]) + multiset(h[j..]);
  }

  /** Any selection from one created deck repeats neither cards nor identities. */
  lemma FromDeckDistinct(h: seq<Card>)
    requires FromDeck(h)
    ensures Distinct(h) && DistinctIds(h)
    ensures forall c :: c in h ==> c == MakeCard(c.suit, c.rank)
  {
    var d := CreateDeck();
    forall c | c in h
      ensures c == MakeCard(c.suit, c.rank)
    {
      assert c in multiset(h);
      assert c in multiset(d);
    }
    forall i, j | 0 <= i < j < |h|
      ensures h[i] != h[j] && h[i].id != h[j].id
    {
      if h[i] == h[j] {
        RepeatCountsTwice(h, i, j);
        DistinctCountsOnce(d, h[i]);
        assert false;
      }
      assert h[i] == MakeCard(h[i].suit, h[i].rank) && h[j] == MakeCard(h[j].suit, h[j].rank);
      IdsDetermineCards(h[i].suit, h[i].rank, h[j].suit, h[j].rank);
    }
  }

  /** Five numbers below four cannot all differ. */
  lemma Pigeonhole(i0: nat, i1: nat, i2: nat, i3: nat, i4: nat)
    requires i0 < 4 && i1 < 4 && i2 < 4 && i3 < 4 && i4 < 4
    ensures i0 == i1 || i0 == i2 || i0 == i3 || i0 == i4 || i1 == i2
         || i1 == i3 || i1 == i4 || i2 == i3 || i2 == i4 || i3 == i4
  {
  }

  /** Two different 8s of a created deck differ in suit. */
  lemma EightsDifferInSuit(cs: seq<Card>, a: nat, b: nat)
    requires a < b < |cs| && Distinct(cs)
    requires forall c :: c in cs ==> c == MakeCard(c.suit, c.rank)
    requires cs[a].rank == Eight && cs[b].rank == Eight
    ensures cs[a].suit != cs[b].suit
  {
    assert cs[a] in cs && cs[b] in cs;
  }

  /**
   * A deck has only four 8s, so among the first five cards of any selection
   * from it at least one is not an 8.
   */
  lemma NonEightAmongFirstFive(cs: seq<Card>)
    requires |cs| >= 5 && FromDeck(cs)
    ensures exists j :: 0 <= j < 5 && cs[j].rank != Eight
  {
    FromDeckDistinct(cs);
    if forall j :: 0 <= j < 5 ==> cs[j].rank == Eight {
      Pigeonhole(SuitIndex(cs[0].suit), SuitIndex(cs[1].suit), SuitIndex(cs[2].suit),
        SuitIndex(cs[3].suit), SuitIndex(cs[4].suit));
      var a, b :| 0 <= a < b < 5 && cs[a].suit == cs[b].suit;
      EightsDifferInSuit(cs, a, b);
    }
  }
}
