/** Deck construction, card identities, the Fisher-Yates shuffle and the legality rule. */
module CardUtils {
  import opened Types

  /** The suit listing used to build a deck: every suit once, in declaration order. */
  const Suits: seq<Suit> := [Hearts, Diamonds, Clubs, Spades]

  /** The rank listing used to build a deck: every rank once, in declaration order. */
  const Ranks: seq<Rank> :=
    [Ace, Two, Three, Four, Five, Six, Seven, Eight, Nine, Ten, Jack, Queen, King]

  function SuitIndex(s: Suit): (i: nat)
    ensures i < |Suits| && Suits[i] == s
  {
    match s
    case Hearts => 0
    case Diamonds => 1
    case Clubs => 2
    case Spades => 3
  }

  function RankIndex(k: Rank): (i: nat)
    ensures i < |Ranks| && Ranks[i] == k
  {
    match k
    case Ace => 0
    case Two => 1
    case Three => 2
    case Four => 3
    case Five => 4
    case Six => 5
    case Seven => 6
    case Eight => 7
    case Nine => 8
    case Ten => 9
    case Jack => 10
    case Queen => 11
    case King => 12
  }

  /** The suit's name as it appears in a card identity, e.g. `"hearts"`. */
  function SuitName(s: Suit): string
  {
    match s
    case Hearts => "hearts"
    case Diamonds => "diamonds"
    case Clubs => "clubs"
    case Spades => "spades"
  }

  /** The rank's name as it appears in a card identity, e.g. `"10"` or `"Q"`. */
  function RankName(k: Rank): string
  {
    match k
    case Ace => "A"
    case Two => "2"
    case Three => "3"
    case Four => "4"
    case Five => "5"
    case Six => "6"
    case Seven => "7"
    case Eight => "8"
    case Nine => "9"
    case Ten => "10"
    case Jack => "J"
    case Queen => "Q"
    case King => "K"
  }

  /** The identity string of a card: rank name, a dash, suit name. */
  function CardId(s: Suit, k: Rank): string
  {
    RankName(k) + "-" + SuitName(s)
  }

  function MakeCard(s: Suit, k: Rank): Card
  {
    Card(CardId(s, k), s, k)
  }

  /** No two positions of `cs` hold the same card. */
  predicate Distinct(cs: seq<Card>)
  {
    forall i, j :: 0 <= i < j < |cs| ==> cs[i] != cs[j]
  }

  /** No two positions of `cs` hold cards with the same identity string. */
  predicate DistinctIds(cs: seq<Card>)
  {
    forall i, j :: 0 <= i < j < |cs| ==> cs[i].id != cs[j].id
  }

  /**
   * The full deck, suit-major and rank-minor: position `i` holds the card of
   * suit number `i / 13` and rank number `i % 13`. It holds every (suit, rank)
   * pair, every card in it is the canonical card of its pair, and no card twice.
   */
  function CreateDeck(): (r: seq<Card>)
    ensures |r| == |Suits| * |Ranks| == 52
    ensures forall i :: 0 <= i < |r| ==> r[i].suit == Suits[i / |Ranks|] && r[i].rank == Ranks[i % |Ranks|]
    ensures forall s: Suit, k: Rank :: MakeCard(s, k) in r
    ensures forall c :: c in r ==> c == MakeCard(c.suit, c.rank)
    ensures Distinct(r)
  {
    var r := seq(52, i requires 0 <= i < 52 => MakeCard(Suits[i / 13], Ranks[i % 13]));
    forall s: Suit, k: Rank
      ensures MakeCard(s, k) in r
    {
      PositionOf(SuitIndex(s), RankIndex(k));
      assert r[SuitIndex(s) * 13 + RankIndex(k)] == MakeCard(s, k);
    }
    forall i, j | 0 <= i < j < |r|
      ensures r[i] != r[j]
    {
      PositionsDiffer(i, j);
      ListingsDistinct();
    }
    r
  }

  /** Position `13 * a + b` of the deck is suit number `a`, rank number `b`. */
  lemma PositionOf(a: nat, b: nat)
    requires a < 4 && b < 13
    ensures (a * 13 + b) / 13 == a && (a * 13 + b) % 13 == b && a * 13 + b < 52
  {
  }

  lemma PositionsDiffer(i: nat, j: nat)
    requires i < j < 52
    ensures i / 13 != j / 13 || i % 13 != j % 13
  {
  }

  lemma ListingsDistinct()
    ensures forall a, b :: 0 <= a < b < |Suits| ==> Suits[a] != Suits[b]
    ensures forall a, b :: 0 <= a < b < |Ranks| ==> Ranks[a] != Ranks[b]
  {
  }

  // ---------------------------------------------------------------------------
  // Reading a card identity back. Used to show that identities determine cards.
  // ---------------------------------------------------------------------------

  /** The position of the first dash in `id`, if any. */
  function DashIndex(id: string): (r: Option<nat>)
    ensures r.Some? ==> r.value < |id| && id[r.value] == '-' && '-' !in id[..r.value]
    ensures r.None? ==> '-' !in id
  {
    if |id| == 0 then None
    else if id[0] == '-' then Some(0)
    else match DashIndex(id[1..])
      case None => None
      case Some(k) => Some(k + 1)
  }

  function ParseSuit(name: string): (r: Option<Suit>)
    ensures r.Some? ==> SuitName(r.value) == name
  {
    if name == "hearts" then Some(Hearts)
    else if name == "diamonds" then Some(Diamonds)
    else if name == "clubs" then Some(Clubs)
    else if name == "spades" then Some(Spades)
    else None
  }

  function ParseRank(name: string): (r: Option<Rank>)
    ensures r.Some? ==> RankName(r.value) == name
  {
    if name == "A" then Some(Ace)
    else if name == "2" then Some(Two)
    else if name == "3" then Some(Three)
    else if name == "4" then Some(Four)
    else if name == "5" then Some(Five)
    else if name == "6" then Some(Six)
    else if name == "7" then Some(Seven)
    else if name == "8" then Some(Eight)
    else if name == "9" then Some(Nine)
    else if name == "10" then Some(Ten)
    else if name == "J" then Some(Jack)
    else if name == "Q" then Some(Queen)
    else if name == "K" then Some(King)
    else None
  }

  /** Splits an identity at its first dash into a rank name and a suit name. */
  function ParseId(id: string): (r: Option<(Suit, Rank)>)
    ensures r.Some? ==> CardId(r.value.0, r.value.1) == id
  {
    match DashIndex(id)
    case None => None
    case Some(d) =>
      match (ParseSuit(id[d + 1..]), ParseRank(id[..d]))
      case (Some(s), Some(k)) =>
        assert id == id[..d] + "-" + id[d + 1..];
        Some((s, k))
      case _ => None
  }

  lemma {:induction false} DashAfterPrefix(x: string, y: string)
    requires '-' !in x
    ensures DashIndex(x + "-" + y) == Some(|x|)
  {
    if |x| == 0 {
      assert (x + "-" + y)[0] == '-';
    } else {
      assert x[0] != '-';
      assert '-' !in x[1..];
      assert (x + "-" + y)[1..] == x[1..] + "-" + y;
      DashAfterPrefix(x[1..], y);
    }
  }

  lemma ParseSuitName(s: Suit)
    ensures ParseSuit(SuitName(s)) == Some(s)
  {
  }

  lemma ParseRankName(k: Rank)
    ensures ParseRank(RankName(k)) == Some(k)
    ensures '-' !in RankName(k)
  {
  }

  /** Reading back an identity yields the suit and rank it was made from. */
  lemma IdRoundTrip(s: Suit, k: Rank)
    ensures ParseId(CardId(s, k)) == Some((s, k))
  {
    var id := CardId(s, k);
    ParseRankName(k);
    ParseSuitName(s);
    DashAfterPrefix(RankName(k), SuitName(s));
    var d := |RankName(k)|;
    assert id[..d] == RankName(k);
    assert id[d + 1..] == SuitName(s);
  }

  /** Two cards of the created kind share an identity only if they are the same card. */
  lemma IdsDetermineCards(s: Suit, k: Rank, s': Suit, k': Rank)
    ensures CardId(s, k) == CardId(s', k') <==> s == s' && k == k'
  {
    IdRoundTrip(s, k);
    IdRoundTrip(s', k');
  }

  /** The identities in the created deck are pairwise distinct. */
  lemma CreateDeckIdsDistinct()
    ensures DistinctIds(CreateDeck())
  {
    var d := CreateDeck();
    forall i, j | 0 <= i < j < |d|
      ensures d[i].id != d[j].id
    {
      assert d[i] == MakeCard(d[i].suit, d[i].rank) && d[j] == MakeCard(d[j].suit, d[j].rank);
      IdsDetermineCards(d[i].suit, d[i].rank, d[j].suit, d[j].rank);
    }
  }

  // ---------------------------------------------------------------------------
  // Legality.
  // ---------------------------------------------------------------------------

  /** The suit a play has to follow: the wild suit when one is in force, else the top card's. */
  function SuitToFollow(top: Card, activeSuit: Option<Suit>): Suit
  {
    match activeSuit
    case Some(s) => s
    case None => top.suit
  }

  /**
   * Whether `card` may be played onto `top`. An 8 always may; otherwise the card
   * must share the top card's rank or follow the suit in force, and an active
   * wild suit replaces the top card's own suit.
   */
  function CanPlayCard(card: Card, top: Card, activeSuit: Option<Suit>): (r: bool)
    ensures card.rank == Eight ==> r
    ensures r <==> card.rank == Eight || card.rank == top.rank || card.suit == SuitToFollow(top, activeSuit)
  {
    if card.rank == Eight then true
    else if activeSuit.Some? then card.suit == activeSuit.value || card.rank == top.rank
    else card.suit == top.suit || card.rank == top.rank
  }

  /** With a wild suit in force, sharing only the top card's suit is not enough. */
  lemma TopSuitAloneNotEnough(card: Card, top: Card, wild: Suit)
    requires card.rank != Eight && card.rank != top.rank
    requires card.suit == top.suit && wild != top.suit
    ensures !CanPlayCard(card, top, Some(wild))
    ensures CanPlayCard(card, top, None)
  {
  }

  /** A wild suit equal to the top card's suit changes nothing. */
  lemma WildSameAsTop(card: Card, top: Card)
    ensures CanPlayCard(card, top, Some(top.suit)) == CanPlayCard(card, top, None)
  {
  }
}
