/**
 * The game's state transitions: dealing, playing a card, drawing, choosing a
 * suit, and the computer opponent's turn. Every transition is a pure function
 * from the current state to the next one; a rejected intent returns the state
 * unchanged, as the handlers return early without touching it.
 */
module GameBoard {
  import opened Types
  import opened CardUtils
  import opened Shuffling
  import opened Seqs
  import opened Decks

  /**
   * The handlers take the top of the discard pile whenever the game is being
   * played. On an empty pile that top is missing and the legality check throws
   * when it reads it, except for an 8 or a card of the wild suit. No state
   * reached from the deal has an empty pile while playing.
   */
  predicate HasTop(s: GameState)
  {
    s.status == Playing ==> |s.discardPile| > 0
  }

  function Top(s: GameState): Card
    requires |s.discardPile| > 0
  {
    s.discardPile[|s.discardPile| - 1]
  }

  /** The cards of `hand` that may be played onto `top` under `activeSuit`. */
  function Playable(hand: seq<Card>, top: Card, activeSuit: Option<Suit>): (r: seq<Card>)
    ensures forall c :: c in r <==> c in hand && CanPlayCard(c, top, activeSuit)
  {
    Filter(hand, (c: Card) => CanPlayCard(c, top, activeSuit))
  }

  function NonEights(cards: seq<Card>): (r: seq<Card>)
    ensures forall c :: c in r <==> c in cards && c.rank != Eight
  {
    Filter(cards, (c: Card) => c.rank != Eight)
  }

  /** `hand` without every card whose identity is `id`. */
  function RemoveById(hand: seq<Card>, id: string): (r: seq<Card>)
    ensures forall c :: multiset(r)[c] == if c.id == id then 0 else multiset(hand)[c]
  {
    FilterCounts(hand, (c: Card) => c.id != id);
    Filter(hand, (c: Card) => c.id != id)
  }

  // ---------------------------------------------------------------------------
  // Dealing.
  // ---------------------------------------------------------------------------

  /** The index where the forward scan over 8s stops: the first non-8 at or after `i`. */
  function SkipEights(cards: seq<Card>, i: nat): (r: nat)
    requires exists j :: i <= j < |cards| && cards[j].rank != Eight
    ensures i <= r < |cards| && cards[r].rank != Eight
    ensures forall k :: i <= k < r ==> cards[k].rank == Eight
    decreases |cards| - i
  {
    if cards[i].rank == Eight then SkipEights(cards, i + 1) else i
  }

  /**
   * Dealing from an ordered deck: the first 8 cards to the player, the next 8 to
   * the computer, and the first non-8 of the rest as the only discard; any 8s
   * scanned past stay in the deck in their order. A deck of distinct cards has
   * only four 8s, so the scan stops within five cards.
   */
  function Deal(full: seq<Card>): (r: GameState)
    requires |full| == 52 && FromDeck(full)
    ensures var rest := full[16..];
      && r.playerHand == full[..8] && r.aiHand == full[8..16]
      && exists k :: 0 <= k < 5
           && r.discardPile == [rest[k]] && rest[k].rank != Eight
           && r.deck == rest[..k] + rest[k + 1..]
           && forall m :: 0 <= m < k ==> rest[m].rank == Eight
    ensures |r.deck| == 35 && |r.discardPile| == 1 && r.discardPile[0].rank != Eight
    ensures r.status == Playing && r.currentTurn == Player && r.winner == None
    ensures r.activeSuit == None && !r.isSuitPicking
  {
    var rest := full[16..];
    FromDeckParts(full, 16);
    NonEightAmongFirstFive(rest);
    var k := SkipEights(rest, 0);
    assert k < 5;
    GameState(rest[..k] + rest[k + 1..], full[..8], full[8..16], [rest[k]],
      Player, Playing, None, None, false)
  }

  /** A new game: deal from a shuffle of the created deck. */
  function InitGame(swaps: seq<nat>): (r: GameState)
    requires SwapsFit(swaps, 52)
    ensures |r.playerHand| == 8 && |r.aiHand| == 8 && |r.deck| == 35
    ensures |r.discardPile| == 1 && r.discardPile[0].rank != Eight
    ensures r.status == Playing && r.currentTurn == Player && r.winner == None
    ensures r.activeSuit == None && !r.isSuitPicking
  {
    Deal(Shuffle(CreateDeck(), swaps))
  }

  // ---------------------------------------------------------------------------
  // Playing a card.
  // ---------------------------------------------------------------------------

  /**
   * The game is decided as soon as a hand is empty; the player's hand is looked
   * at first.
   */
  function CheckWinner(s: GameState): (r: Option<Turn>)
    ensures r == None <==> |s.playerHand| > 0 && |s.aiHand| > 0
    ensures r == Some(Player) <==> |s.playerHand| == 0
    ensures r.Some? ==> |HandOf(s, r.value)| == 0
  {
    if |s.playerHand| == 0 then Some(Player)
    else if |s.aiHand| == 0 then Some(Ai)
    else None
  }

  /** How many cards of `hand` are of suit `t`. */
  function SuitCount(hand: seq<Card>, t: Suit): nat
  {
    |Filter(hand, (c: Card) => c.suit == t)|
  }

  /**
   * The computer's suit after it plays an 8. The suits of its remaining hand
   * are sorted stably by how often each occurs and the last one is taken: the
   * suit of the last card whose suit has the greatest count. An empty hand
   * gives `fallback`, the suit of the 8 itself.
   */
  function MostCommonSuit(hand: seq<Card>, fallback: Suit): (r: Suit)
    ensures |hand| == 0 ==> r == fallback
    ensures forall t :: SuitCount(hand, t) <= SuitCount(hand, r)
    ensures |hand| > 0 ==>
      (exists j :: 0 <= j < |hand| && hand[j].suit == r &&
        forall k :: j < k < |hand| ==> SuitCount(hand, hand[k].suit) < SuitCount(hand, r))
  {
    if |hand| == 0 then fallback
    else
      var best := Heaviest(hand, Heaviest(hand, Hearts, Diamonds), Heaviest(hand, Clubs, Spades));
      HeaviestOfAll(hand, best);
      SuitCountsCoverHand(hand);
      var w :| w in Filter(hand, (c: Card) => c.suit == best);
      var isMax := (t: Suit) => SuitCount(hand, t) == SuitCount(hand, best);
      assert isMax(w.suit);
      var j := LastWithSuit(hand, isMax, |hand|);
      hand[j].suit
  }

  /** The last position before `i` whose card's suit satisfies `ok`. */
  function LastWithSuit(hand: seq<Card>, ok: Suit -> bool, i: nat): (j: nat)
    requires i <= |hand| && exists k :: 0 <= k < i && ok(hand[k].suit)
    ensures j < i && ok(hand[j].suit)
    ensures forall k :: j < k < i ==> !ok(hand[k].suit)
    decreases i
  {
    if ok(hand[i - 1].suit) then i - 1 else LastWithSuit(hand, ok, i - 1)
  }

  lemma HeaviestOfAll(hand: seq<Card>, best: Suit)
    requires best == Heaviest(hand, Heaviest(hand, Hearts, Diamonds), Heaviest(hand, Clubs, Spades))
    ensures forall t :: SuitCount(hand, t) <= SuitCount(hand, best)
  {
    forall t ensures SuitCount(hand, t) <= SuitCount(hand, best) {
      match t
      case Hearts =>
      case Diamonds =>
      case Clubs =>
      case Spades =>
    }
  }

  /** Of two suits, one with the larger count in `hand`. */
  function Heaviest(hand: seq<Card>, a: Suit, b: Suit): (r: Suit)
    ensures r == a || r == b
    ensures SuitCount(hand, a) <= SuitCount(hand, r) && SuitCount(hand, b) <= SuitCount(hand, r)
  {
    if SuitCount(hand, b) > SuitCount(hand, a) then b else a
  }

  /** Every card of a non-empty hand is counted under its own suit, so some count is positive. */
  lemma SuitCountsCoverHand(hand: seq<Card>)
    requires |hand| > 0
    ensures SuitCount(hand, hand[0].suit) > 0
  {
    assert hand[0] in Filter(hand, (c: Card) => c.suit == hand[0].suit);
  }

  /** The card leaves the actor's hand by identity, tops the discard pile, and any wild suit ends. */
  function PlaceCard(s: GameState, card: Card, actor: Turn): (r: GameState)
    ensures r.discardPile == s.discardPile + [card]
    ensures HandOf(r, actor) == RemoveById(HandOf(s, actor), card.id)
    ensures HandOf(r, Other(actor)) == HandOf(s, Other(actor))
    ensures r.deck == s.deck && r.activeSuit == None
    ensures r.currentTurn == s.currentTurn && r.status == s.status && r.winner == s.winner
    ensures r.isSuitPicking == s.isSuitPicking
  {
    WithHand(s, actor, RemoveById(HandOf(s, actor), card.id)).(discardPile := s.discardPile + [card], activeSuit := None)
  }

  /**
   * What follows a placed card: an emptied hand ends the game; otherwise an 8
   * opens the player's suit choice or sets the computer's suit, and any other
   * card passes the turn. Only status, winner, turn, wild suit and the choice
   * flag can change.
   */
  function FinishPlay(next: GameState, card: Card, actor: Turn): (r: GameState)
    requires next.status == Playing
    ensures r.(status := next.status, winner := next.winner, currentTurn := next.currentTurn,
               activeSuit := next.activeSuit, isSuitPicking := next.isSuitPicking) == next
    ensures r.status == GameOver <==> |next.playerHand| == 0 || |next.aiHand| == 0
    ensures r.status == GameOver ==>
      r.winner == CheckWinner(next) && r.activeSuit == next.activeSuit && r.currentTurn == next.currentTurn
      && r.isSuitPicking == next.isSuitPicking
    ensures r.status != GameOver ==> r.status == Playing && r.winner == next.winner
    ensures r.status != GameOver && card.rank != Eight ==>
      r.currentTurn == Other(actor) && r.activeSuit == next.activeSuit && r.isSuitPicking == next.isSuitPicking
    ensures r.status != GameOver && card.rank == Eight && actor == Player ==>
      r.currentTurn == next.currentTurn && r.activeSuit == next.activeSuit && r.isSuitPicking
    ensures r.status != GameOver && card.rank == Eight && actor == Ai ==>
      && r.currentTurn == Player && r.isSuitPicking == next.isSuitPicking
      && r.activeSuit == Some(MostCommonSuit(next.aiHand, card.suit))
  {
    match CheckWinner(next)
    case Some(w) => next.(status := GameOver, winner := Some(w))
    case None =>
      if card.rank == Eight then
        if actor == Player then next.(isSuitPicking := true)
        else next.(activeSuit := Some(MostCommonSuit(next.aiHand, card.suit)), currentTurn := Player)
      else next.(currentTurn := Other(actor))
  }

  /** Whether a play by `actor` of `card` passes the handler's checks. */
  predicate PlayAccepted(s: GameState, card: Card, actor: Turn)
    requires HasTop(s)
  {
    s.status == Playing && s.currentTurn == actor && CanPlayCard(card, Top(s), s.activeSuit)
  }

  /**
   * A play by `actor`. Ignored unless the game is being played, it is the
   * actor's turn, and the card is playable on the top card under the wild suit;
   * neither membership of the card in the hand nor an open suit choice is
   * checked.
   */
  function HandlePlayCard(s: GameState, card: Card, actor: Turn): (r: GameState)
    requires HasTop(s)
    ensures !PlayAccepted(s, card, actor) ==> r == s
    ensures PlayAccepted(s, card, actor) ==>
      && r.discardPile == s.discardPile + [card]
      && HandOf(r, actor) == RemoveById(HandOf(s, actor), card.id)
      && HandOf(r, Other(actor)) == HandOf(s, Other(actor))
      && r.deck == s.deck
      && (r.status == Playing || r.status == GameOver)
      && (r.status == GameOver <==> |r.playerHand| == 0 || |r.aiHand| == 0)
      && (r.status == GameOver ==>
            r.winner == CheckWinner(r) && r.activeSuit == None && r.currentTurn == actor
            && r.isSuitPicking == s.isSuitPicking)
      && (r.status == Playing ==> r.winner == s.winner)
      && (r.status == Playing && card.rank != Eight ==>
            r.currentTurn == Other(actor) && r.activeSuit == None && r.isSuitPicking == s.isSuitPicking)
      && (r.status == Playing && card.rank == Eight && actor == Player ==>
            r.currentTurn == Player && r.activeSuit == None && r.isSuitPicking)
      && (r.status == Playing && card.rank == Eight && actor == Ai ==>
            && r.currentTurn == Player && r.isSuitPicking == s.isSuitPicking
            && r.activeSuit == Some(MostCommonSuit(r.aiHand, card.suit)))
  {
    if s.status != Playing || s.currentTurn != actor then s
    else if !CanPlayCard(card, Top(s), s.activeSuit) then s
    else FinishPlay(PlaceCard(s, card, actor), card, actor)
  }

  // ---------------------------------------------------------------------------
  // Drawing and choosing a suit.
  // ---------------------------------------------------------------------------

  /**
   * A draw by `actor`. Ignored unless the game is being played and it is the
   * actor's turn. From an empty deck the turn is forfeited; otherwise the last
   * card of the deck goes to the end of the actor's hand, the player keeps the
   * turn exactly when that card is playable, and the computer always keeps it.
   */
  function HandleDrawCard(s: GameState, actor: Turn): (r: GameState)
    requires HasTop(s)
    ensures !(s.status == Playing && s.currentTurn == actor) ==> r == s
    ensures s.status == Playing && s.currentTurn == actor && |s.deck| == 0 ==>
      r == s.(currentTurn := Other(actor))
    ensures s.status == Playing && s.currentTurn == actor && |s.deck| > 0 ==>
      && r.deck + [s.deck[|s.deck| - 1]] == s.deck
      && HandOf(r, actor) == HandOf(s, actor) + [s.deck[|s.deck| - 1]]
      && HandOf(r, Other(actor)) == HandOf(s, Other(actor))
      && r.discardPile == s.discardPile && r.status == s.status && r.winner == s.winner
      && r.activeSuit == s.activeSuit && r.isSuitPicking == s.isSuitPicking
      && (r.currentTurn == actor <==>
            actor == Ai || CanPlayCard(s.deck[|s.deck| - 1], Top(s), s.activeSuit))
  {
    if s.status != Playing || s.currentTurn != actor then s
    else if |s.deck| == 0 then s.(currentTurn := Other(actor))
    else
      var drawn := s.deck[|s.deck| - 1];
      var next := WithHand(s, actor, HandOf(s, actor) + [drawn]).(deck := s.deck[..|s.deck| - 1]);
      if actor == Player then
        next.(currentTurn := if CanPlayCard(drawn, Top(s), s.activeSuit) then Player else Ai)
      else next
  }

  /**
   * The player's suit choice after an 8. It checks nothing: whatever the state,
   * the wild suit is set, the choice closes and the computer moves next.
   */
  function HandleSuitSelect(s: GameState, suit: Suit): (r: GameState)
    ensures r.activeSuit == Some(suit) && !r.isSuitPicking && r.currentTurn == Ai
    ensures r.(activeSuit := s.activeSuit, isSuitPicking := s.isSuitPicking, currentTurn := s.currentTurn) == s
  {
    s.(activeSuit := Some(suit), isSuitPicking := false, currentTurn := Ai)
  }

  // ---------------------------------------------------------------------------
  // The computer opponent.
  // ---------------------------------------------------------------------------

  /** The random pick among playable non-8s lies in range (it is `floor(random() * n)`). */
  predicate PickFits(hand: seq<Card>, top: Card, activeSuit: Option<Suit>, pick: nat)
  {
    var candidates := NonEights(Playable(hand, top, activeSuit));
    |candidates| > 0 ==> pick < |candidates|
  }

  /**
   * The card the computer chooses, if any is playable: the `pick`-th playable
   * non-8 when there is one, else the first playable card (an 8).
   */
  function AiChoice(hand: seq<Card>, top: Card, activeSuit: Option<Suit>, pick: nat): (r: Option<Card>)
    requires PickFits(hand, top, activeSuit, pick)
    ensures r.None? <==> forall c :: c in hand ==> !CanPlayCard(c, top, activeSuit)
    ensures r.Some? ==> r.value in hand && CanPlayCard(r.value, top, activeSuit)
    ensures r.Some? && r.value.rank == Eight ==>
      forall c :: c in hand && CanPlayCard(c, top, activeSuit) ==> c.rank == Eight
  {
    var playable := Playable(hand, top, activeSuit);
    if |playable| == 0 then None
    else
      var candidates := NonEights(playable);
      if |candidates| > 0 then
        assert candidates[pick] in candidates;
        Some(candidates[pick])
      else
        assert playable[0] in playable;
        Some(playable[0])
  }

  /** The computer has something it could play right now. */
  predicate AiCanPlay(s: GameState)
    requires |s.discardPile| > 0
  {
    exists c :: c in s.aiHand && CanPlayCard(c, Top(s), s.activeSuit)
  }

  predicate AiPickFits(s: GameState, pick: nat)
  {
    |s.discardPile| > 0 ==> PickFits(s.aiHand, Top(s), s.activeSuit, pick)
  }

  /**
   * The computer's move when its turn comes up and no suit choice is open:
   * play its chosen card, or draw when nothing is playable.
   */
  function AiPlayOrDraw(s: GameState, pick: nat): (r: GameState)
    requires HasTop(s) && AiPickFits(s, pick)
    ensures !(s.status == Playing && s.currentTurn == Ai && !s.isSuitPicking) ==> r == s
    ensures s.status == Playing && s.currentTurn == Ai && !s.isSuitPicking && AiCanPlay(s) ==>
      && |r.discardPile| == |s.discardPile| + 1
      && var c := Top(r);
      && r == HandlePlayCard(s, c, Ai)
      && c in s.aiHand && CanPlayCard(c, Top(s), s.activeSuit)
      && (c.rank == Eight ==> forall d :: d in s.aiHand && CanPlayCard(d, Top(s), s.activeSuit) ==> d.rank == Eight)
    ensures s.status == Playing && s.currentTurn == Ai && !s.isSuitPicking && !AiCanPlay(s) ==>
      r == HandleDrawCard(s, Ai)
  {
    if !(s.status == Playing && s.currentTurn == Ai && !s.isSuitPicking) then s
    else
      match AiChoice(s.aiHand, Top(s), s.activeSuit, pick)
      case Some(c) => HandlePlayCard(s, c, Ai)
      case None => HandleDrawCard(s, Ai)
  }

  /**
   * The follow-up check on the computer's turn: with nothing playable, the turn
   * goes to the player and nothing else changes.
   */
  function AiPass(s: GameState): (r: GameState)
    requires HasTop(s)
    ensures s.status == Playing && s.currentTurn == Ai && !AiCanPlay(s) ==> r == s.(currentTurn := Player)
    ensures !(s.status == Playing && s.currentTurn == Ai && !AiCanPlay(s)) ==> r == s
  {
    if s.status == Playing && s.currentTurn == Ai then
      assert |Playable(s.aiHand, Top(s), s.activeSuit)| > 0 ==>
        Playable(s.aiHand, Top(s), s.activeSuit)[0] in Playable(s.aiHand, Top(s), s.activeSuit);
      if |Playable(s.aiHand, Top(s), s.activeSuit)| == 0 then s.(currentTurn := Player) else s
    else s
  }

  /** After a draw with nothing playable before it, only the drawn card can be playable. */
  lemma OnlyDrawnCardPlayable(hand: seq<Card>, drawn: Card, top: Card, activeSuit: Option<Suit>)
    requires forall c :: c in hand ==> !CanPlayCard(c, top, activeSuit)
    ensures Playable(hand + [drawn], top, activeSuit) == if CanPlayCard(drawn, top, activeSuit) then [drawn] else []
  {
    var p := (c: Card) => CanPlayCard(c, top, activeSuit);
    FilterAppend(hand, [drawn], p);
    assert Filter([drawn], p) == (if p(drawn) then [drawn] else []) + Filter([drawn][1..], p);
    FilterNone(hand, p);
  }

  /**
   * A whole computer turn as the comments describe it: play if it can;
   * otherwise draw, then play the drawn card if it is playable and pass
   * otherwise; an empty deck forfeits the turn at once. Outside its turn, or
   * while a suit choice is open, nothing happens.
   */
  function AiTurn(s: GameState, pick: nat): (r: GameState)
    requires HasTop(s) && AiPickFits(s, pick)
    ensures !(s.status == Playing && s.currentTurn == Ai && !s.isSuitPicking) ==> r == s
    ensures s.status == Playing && s.currentTurn == Ai && !s.isSuitPicking && AiCanPlay(s) ==>
      r == AiPlayOrDraw(s, pick)
    ensures s.status == Playing && s.currentTurn == Ai && !s.isSuitPicking && !AiCanPlay(s) && |s.deck| == 0 ==>
      r == s.(currentTurn := Player)
    ensures s.status == Playing && s.currentTurn == Ai && !s.isSuitPicking && !AiCanPlay(s) && |s.deck| > 0 ==>
      var drawn := s.deck[|s.deck| - 1];
      var afterDraw := HandleDrawCard(s, Ai);
      && afterDraw.aiHand == s.aiHand + [drawn] && afterDraw.currentTurn == Ai
      && (CanPlayCard(drawn, Top(s), s.activeSuit) ==> r == HandlePlayCard(afterDraw, drawn, Ai))
      && (!CanPlayCard(drawn, Top(s), s.activeSuit) ==> r == afterDraw.(currentTurn := Player))
  {
    var first := AiPlayOrDraw(s, pick);
    if s.status == Playing && s.currentTurn == Ai && !s.isSuitPicking && !AiCanPlay(s)
       && first.status == Playing && first.currentTurn == Ai then
      var drawn := s.deck[|s.deck| - 1];
      assert Top(first) == Top(s);
      OnlyDrawnCardPlayable(s.aiHand, drawn, Top(s), s.activeSuit);
      assert AiPickFits(first, 0);
      if AiCanPlay(first) then
        assert AiChoice(first.aiHand, Top(s), s.activeSuit, 0) == Some(drawn);
        AiPlayOrDraw(first, 0)
      else
        AiPass(first)
    else first
  }

  /**
   * The computer's turn as the two timers order it. Both effects start when
   * the turn reaches the computer; with nothing playable the follow-up check
   * hands the turn back after 1000 ms, which cancels the 1500 ms move before it
   * can draw.
   */
  function AiTurnAsScheduled(s: GameState, pick: nat): (r: GameState)
    requires HasTop(s) && AiPickFits(s, pick)
    ensures s.status == Playing && s.currentTurn == Ai && !AiCanPlay(s) ==> r == s.(currentTurn := Player)
    ensures !(s.status == Playing && s.currentTurn == Ai && !AiCanPlay(s)) ==> r == AiPlayOrDraw(s, pick)
  {
    if s.status == Playing && s.currentTurn == Ai && !AiCanPlay(s) then AiPass(s)
    else AiPlayOrDraw(s, pick)
  }
}
