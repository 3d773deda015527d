/**
 * The invariant of a game in progress and its preservation by every
 * transition: the four piles always hold exactly the created deck, the discard
 * pile is never empty, a winner is recorded exactly when the game is over, and
 * an open suit choice keeps the turn with the player.
 */
module GameInvariants {
  import opened Types
  import opened CardUtils
  import opened Shuffling
  import opened Seqs
  import opened Decks
  import opened GameBoard

  /** Every card of the game, wherever it lies, with multiplicity. */
  function Cards(s: GameState): multiset<Card>
  {
    multiset(s.deck) + multiset(s.playerHand) + multiset(s.aiHand) + multiset(s.discardPile)
  }

  /** The four piles together hold exactly the created deck: nothing lost, doubled or invented. */
  predicate Conserved(s: GameState)
  {
    Cards(s) == multiset(CreateDeck())
  }

  /**
   * The bookkeeping of a started game: a top card exists, a winner is recorded
   * exactly when the game is over and has an empty hand, both hands hold cards
   * while it is played, an open suit choice keeps the player to move right
   * after an 8, and a wild suit is only ever in force on an 8.
   */
  predicate Shape(s: GameState)
  {
    && s.status != Waiting
    && |s.discardPile| > 0
    && (s.winner.Some? <==> s.status == GameOver)
    && (s.winner.Some? ==> |HandOf(s, s.winner.value)| == 0)
    && (s.status == Playing ==> |s.playerHand| > 0 && |s.aiHand| > 0)
    && (s.isSuitPicking ==>
          s.status == Playing && s.currentTurn == Player && s.activeSuit == None && Top(s).rank == Eight)
    && (s.activeSuit.Some? ==> Top(s).rank == Eight)
  }

  /** The state of a started game. */
  predicate Valid(s: GameState)
  {
    Shape(s) && Conserved(s)
  }

  /** In a valid state the piles add up to the 52 cards of the deck. */
  lemma ValidCardCount(s: GameState)
    requires Valid(s)
    ensures |s.deck| + |s.playerHand| + |s.aiHand| + |s.discardPile| == 52
  {
    assert |Cards(s)| == |multiset(CreateDeck())|;
  }

  // ---------------------------------------------------------------------------
  // Card bookkeeping.
  // ---------------------------------------------------------------------------

  /** The hands of a conserved state repeat no identity. */
  lemma HandsDistinct(s: GameState)
    requires Conserved(s)
    ensures DistinctIds(s.playerHand) && DistinctIds(s.aiHand)
  {
    assert FromDeck(s.playerHand) && FromDeck(s.aiHand);
    FromDeckDistinct(s.playerHand);
    FromDeckDistinct(s.aiHand);
  }

  /**
   * Removing by identity a card that is in a hand of distinct identities takes
   * out exactly that one card.
   */
  lemma RemoveByIdTakesOne(h: seq<Card>, card: Card)
    requires card in h && DistinctIds(h)
    ensures multiset(RemoveById(h, card.id)) + multiset{card} == multiset(h)
  {
    assert Distinct(h) by {
      forall i, j | 0 <= i < j < |h| ensures h[i] != h[j] {
        assert h[i].id != h[j].id;
      }
    }
    DistinctCountsOnce(h, card);
    forall x | x in h && x.id == card.id
      ensures x == card
    {
      var i :| 0 <= i < |h| && h[i] == x;
      var j :| 0 <= j < |h| && h[j] == card;
      assert h[i].id == h[j].id;
    }
  }

  /**
   * Moving `card` onto the discard pile while `removed` leaves the actor's hand
   * and nothing else moves: the game gains `card` and loses `removed`.
   */
  lemma MoveToDiscard(s: GameState, r: GameState, actor: Turn, card: Card, removed: multiset<Card>)
    requires multiset(HandOf(r, actor)) + removed == multiset(HandOf(s, actor))
    requires HandOf(r, Other(actor)) == HandOf(s, Other(actor))
    requires r.deck == s.deck && r.discardPile == s.discardPile + [card]
    ensures Cards(r) + removed == Cards(s) + multiset{card}
  {
    assert multiset(r.discardPile) == multiset(s.discardPile) + multiset{card};
    if actor == Player {
      assert multiset(r.playerHand) + removed == multiset(s.playerHand);
    } else {
      assert multiset(r.aiHand) + removed == multiset(s.aiHand);
    }
  }

  /** Moving the last card of the deck to the end of the actor's hand keeps every card in the game. */
  lemma MoveToHand(s: GameState, r: GameState, actor: Turn, drawn: Card)
    requires r.deck + [drawn] == s.deck
    requires HandOf(r, actor) == HandOf(s, actor) + [drawn]
    requires HandOf(r, Other(actor)) == HandOf(s, Other(actor))
    requires r.discardPile == s.discardPile
    ensures Cards(r) == Cards(s)
  {
    assert multiset(s.deck) == multiset(r.deck) + multiset{drawn};
    assert multiset(HandOf(r, actor)) == multiset(HandOf(s, actor)) + multiset{drawn};
    if actor == Player {
      assert multiset(r.playerHand) == multiset(s.playerHand) + multiset{drawn};
    } else {
      assert multiset(r.aiHand) == multiset(s.aiHand) + multiset{drawn};
    }
  }

  /** An accepted play of a card from the actor's hand moves it from the hand to the discard pile. */
  lemma PlayKeepsCards(s: GameState, card: Card, actor: Turn)
    requires HasTop(s) && card in HandOf(s, actor) && DistinctIds(HandOf(s, actor))
    ensures Cards(HandlePlayCard(s, card, actor)) == Cards(s)
  {
    var r := HandlePlayCard(s, card, actor);
    if PlayAccepted(s, card, actor) {
      RemoveByIdTakesOne(HandOf(s, actor), card);
      MoveToDiscard(s, r, actor, card, multiset{card});
    }
  }

  /** A draw moves the last card of the deck into the actor's hand. */
  lemma DrawKeepsCards(s: GameState, actor: Turn)
    requires HasTop(s)
    ensures Cards(HandleDrawCard(s, actor)) == Cards(s)
  {
    if s.status == Playing && s.currentTurn == actor && |s.deck| > 0 {
      MoveToHand(s, HandleDrawCard(s, actor), actor, s.deck[|s.deck| - 1]);
    }
  }

  // ---------------------------------------------------------------------------
  // The invariant holds from the deal on.
  // ---------------------------------------------------------------------------

  /** The five parts a deal cuts an ordered deck into hold exactly its cards. */
  lemma DealParts(full: seq<Card>, k: nat)
    requires |full| == 52 && k < 36
    ensures var rest := full[16..];
      multiset(rest[..k] + rest[k + 1..]) + multiset(full[..8]) + multiset(full[8..16]) + multiset([rest[k]])
        == multiset(full)
  {
    var rest := full[16..];
    assert rest == rest[..k] + [rest[k]] + rest[k + 1..];
    assert full == full[..8] + full[8..16] + rest;
  }

  /** Dealing only distributes the ordered deck over the piles. */
  lemma DealKeepsCards(full: seq<Card>)
    requires |full| == 52 && FromDeck(full)
    ensures Cards(Deal(full)) == multiset(full)
  {
    var r := Deal(full);
    var rest := full[16..];
    var k :| 0 <= k < 5 && r.discardPile == [rest[k]] && r.deck == rest[..k] + rest[k + 1..];
    DealParts(full, k);
  }

  /** A new game is valid; in particular its piles are a permutation of the created deck. */
  lemma InitGameValid(swaps: seq<nat>)
    requires SwapsFit(swaps, 52)
    ensures Valid(InitGame(swaps))
  {
    var full := Shuffle(CreateDeck(), swaps);
    DealKeepsCards(full);
  }

  /** A play keeps the bookkeeping of a started game, unless the player plays while choosing a suit. */
  lemma PlayKeepsShape(s: GameState, card: Card, actor: Turn)
    requires Shape(s)
    requires actor == Player ==> !s.isSuitPicking
    ensures Shape(HandlePlayCard(s, card, actor))
  {
  }

  /**
   * A play keeps the game valid when the card is in the actor's hand and, for
   * the player, no suit choice is open; the handler checks neither, the board
   * only offers the player's own cards and covers them while the choice is open.
   */
  lemma PlayPreservesValid(s: GameState, card: Card, actor: Turn)
    requires Valid(s) && card in HandOf(s, actor)
    requires actor == Player ==> !s.isSuitPicking
    ensures Valid(HandlePlayCard(s, card, actor))
  {
    HandsDistinct(s);
    PlayKeepsCards(s, card, actor);
    PlayKeepsShape(s, card, actor);
  }

  /** A draw keeps the bookkeeping of a started game, unless the player draws while choosing a suit. */
  lemma DrawKeepsShape(s: GameState, actor: Turn)
    requires Shape(s)
    requires actor == Player ==> !s.isSuitPicking
    ensures Shape(HandleDrawCard(s, actor))
  {
  }

  /** A draw keeps the game valid, except while the player's suit choice is open. */
  lemma DrawPreservesValid(s: GameState, actor: Turn)
    requires Valid(s)
    requires actor == Player ==> !s.isSuitPicking
    ensures Valid(HandleDrawCard(s, actor))
  {
    DrawKeepsCards(s, actor);
    DrawKeepsShape(s, actor);
  }

  /** Choosing the suit while the choice is open keeps the bookkeeping of a started game. */
  lemma SuitSelectKeepsShape(s: GameState, suit: Suit)
    requires Shape(s) && s.isSuitPicking
    ensures Shape(HandleSuitSelect(s, suit))
  {
    assert Top(HandleSuitSelect(s, suit)) == Top(s);
  }

  /** Choosing the suit while the choice is open keeps the game valid. */
  lemma SuitSelectPreservesValid(s: GameState, suit: Suit)
    requires Valid(s) && s.isSuitPicking
    ensures Valid(HandleSuitSelect(s, suit))
  {
    SuitSelectKeepsShape(s, suit);
    assert Cards(HandleSuitSelect(s, suit)) == Cards(s);
  }

  lemma AiPassPreservesValid(s: GameState)
    requires Valid(s)
    ensures Valid(AiPass(s))
  {
    if s.status == Playing && s.currentTurn == Ai && !AiCanPlay(s) {
      var r := s.(currentTurn := Player);
      assert Cards(r) == Cards(s) && Top(r) == Top(s);
    }
  }

  lemma AiPlayOrDrawPreservesValid(s: GameState, pick: nat)
    requires Valid(s) && AiPickFits(s, pick)
    ensures Valid(AiPlayOrDraw(s, pick))
  {
    if s.status == Playing && s.currentTurn == Ai && !s.isSuitPicking {
      match AiChoice(s.aiHand, Top(s), s.activeSuit, pick)
      case Some(c) => PlayPreservesValid(s, c, Ai);
      case None => DrawPreservesValid(s, Ai);
    }
  }

  // ---------------------------------------------------------------------------
  // The computer's whole turn.
  // ---------------------------------------------------------------------------

  /** A computer turn always ends with the player to move or the game over. */
  lemma AiTurnHandsOver(s: GameState, pick: nat)
    requires Valid(s) && AiPickFits(s, pick)
    requires s.status == Playing && s.currentTurn == Ai
    ensures var r := AiTurn(s, pick); r.status == GameOver || (r.status == Playing && r.currentTurn == Player)
  {
  }

  lemma AiTurnPreservesValid(s: GameState, pick: nat)
    requires Valid(s) && AiPickFits(s, pick)
    ensures Valid(AiTurn(s, pick))
  {
    AiPlayOrDrawPreservesValid(s, pick);
    var first := AiPlayOrDraw(s, pick);
    if s.status == Playing && s.currentTurn == Ai && !s.isSuitPicking && !AiCanPlay(s)
       && first.status == Playing && first.currentTurn == Ai {
      if AiCanPlay(first) {
        AiPlayOrDrawPreservesValid(first, 0);
      } else {
        AiPassPreservesValid(first);
      }
    }
  }

  /** The computer's turn in timer order keeps the game valid too. */
  lemma AiTurnAsScheduledPreservesValid(s: GameState, pick: nat)
    requires Valid(s) && AiPickFits(s, pick)
    ensures Valid(AiTurnAsScheduled(s, pick))
  {
    AiPassPreservesValid(s);
    AiPlayOrDrawPreservesValid(s, pick);
  }

  /**
   * As the timers order it, a computer with nothing playable never draws: the
   * deck and its hand stay as they were, where the intended turn draws a card.
   */
  lemma ScheduledAiNeverDraws(s: GameState, pick: nat)
    requires HasTop(s) && AiPickFits(s, pick)
    requires s.status == Playing && s.currentTurn == Ai && !s.isSuitPicking
    requires !AiCanPlay(s) && |s.deck| > 0
    ensures AiTurnAsScheduled(s, pick).deck == s.deck && AiTurnAsScheduled(s, pick).aiHand == s.aiHand
    ensures |AiTurn(s, pick).deck| + 1 == |s.deck|
  {
    var afterDraw := HandleDrawCard(s, Ai);
    assert |afterDraw.deck| + 1 == |s.deck|;
  }

  /**
   * Once the game is over, play, draw and the computer's turn, intended or as
   * scheduled, change nothing: their status guards alone make them no-ops.
   */
  lemma GameOverIsFinal(s: GameState, card: Card, actor: Turn, pick: nat)
    requires s.status == GameOver && AiPickFits(s, pick)
    ensures HandlePlayCard(s, card, actor) == s
    ensures HandleDrawCard(s, actor) == s
    ensures AiPass(s) == s && AiTurn(s, pick) == s && AiTurnAsScheduled(s, pick) == s
  {
  }

  /**
   * Before the first deal, play, draw and the computer's turn leave the waiting
   * state as it is. The unguarded suit choice does change it, setting a wild
   * suit and handing the turn to the computer, but the status stays waiting:
   * only the deal starts a game.
   */
  lemma WaitingOnlyLeftByDeal(card: Card, actor: Turn, suit: Suit, pick: nat, swaps: seq<nat>)
    requires SwapsFit(swaps, 52)
    ensures !Valid(InitialState)
    ensures HandlePlayCard(InitialState, card, actor) == InitialState
    ensures HandleDrawCard(InitialState, actor) == InitialState
    ensures AiPass(InitialState) == InitialState && AiTurnAsScheduled(InitialState, pick) == InitialState
    ensures AiTurn(InitialState, pick) == InitialState
    ensures HandleSuitSelect(InitialState, suit) != InitialState
    ensures HandleSuitSelect(InitialState, suit).status == Waiting
    ensures InitGame(swaps).status == Playing && Valid(InitGame(swaps))
  {
    InitGameValid(swaps);
  }

  // ---------------------------------------------------------------------------
  // What the handlers leave to the board.
  // ---------------------------------------------------------------------------

  /**
   * The play handler does not check that the card is in the hand: an accepted
   * play of a card whose identity is in no position of the actor's hand adds a
   * card to the game.
   */
  lemma PlayOfForeignCard(s: GameState, card: Card, actor: Turn)
    requires HasTop(s) && PlayAccepted(s, card, actor)
    requires forall c :: c in HandOf(s, actor) ==> c.id != card.id
    ensures Cards(HandlePlayCard(s, card, actor)) == Cards(s) + multiset{card}
    ensures Conserved(s) ==> !Conserved(HandlePlayCard(s, card, actor))
  {
    var r := HandlePlayCard(s, card, actor);
    var h := HandOf(s, actor);
    assert multiset(RemoveById(h, card.id)) == multiset(h);
    MoveToDiscard(s, r, actor, card, multiset{});
    assert Cards(r)[card] == Cards(s)[card] + 1;
  }

  /**
   * The suit-choice handler has no guard: after the game is over it still sets
   * a wild suit and hands the turn to the computer.
   */
  lemma SuitSelectAfterGameOver(s: GameState, suit: Suit)
    requires s.status == GameOver && s.activeSuit == None
    ensures var r := HandleSuitSelect(s, suit);
      r != s && r.status == GameOver && r.activeSuit == Some(suit) && r.currentTurn == Ai
  {
  }

  /**
   * The play handler does not check the open suit choice: a player who plays a
   * non-8 instead of choosing hands the turn to the computer with the choice
   * still open, which the invariant forbids.
   */
  lemma PlayDuringSuitChoice(s: GameState, card: Card)
    requires Valid(s) && s.isSuitPicking && card in s.playerHand && |s.playerHand| >= 2
    requires card.rank != Eight && CanPlayCard(card, Top(s), s.activeSuit)
    ensures var r := HandlePlayCard(s, card, Player); r.isSuitPicking && r.currentTurn == Ai && !Valid(r)
  {
    var r := HandlePlayCard(s, card, Player);
    HandsDistinct(s);
    RemoveByIdTakesOne(s.playerHand, card);
    assert |r.playerHand| + 1 == |s.playerHand| by {
      assert |multiset(r.playerHand) + multiset{card}| == |multiset(s.playerHand)|;
    }
  }
}
