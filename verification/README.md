# Crazy Eights rule engine in Dafny

This project models the rules of a two-sided Crazy Eights game: a human player against a computer opponent. The model covers the following.

- **Deck and legality**:
  - building the 52-card deck with its identity strings (`"8-hearts"`);
  - the Fisher–Yates shuffle;
  - the legality rule. An 8 is always playable. Otherwise a card must match the top card's rank or follow the suit in force. After an 8, the chosen wild suit replaces the top card's suit.
- **Transitions**: each handler of the game board is a pure function from one `GameState` to the next:
  - dealing a new game;
  - the win check;
  - playing a card, including the 8 / suit-choice flow and the computer's suit choice;
  - drawing;
  - choosing a suit;
  - the computer's turn.
- **Invariant**: `GameInvariants.Valid` holds from the deal on and is preserved by every transition, under the conditions the board provides. It states:
  - the four piles always hold exactly the created deck, so no card is lost, doubled or invented;
  - the discard pile is never empty;
  - a winner is recorded exactly when the game is over, and the winner's hand is empty;
  - both hands hold cards while the game is played;
  - an open suit choice keeps the player to move, right after an 8;
  - a wild suit is only in force on an 8.

Modules follow the source:
- `Types` is the record and enum vocabulary.
- `CardUtils` covers deck construction, identities and legality.
- `Shuffling` is the shuffle.
- `GameBoard` holds the transitions.
- `GameInvariants` holds the invariant and its preservation.
- `Seqs` and `Decks` are helper modules: filtering, and facts about cards taken from one deck.

Randomness, assumptions and faithfully modelled gaps:
- **Randomness is a parameter.**
  - The shuffle takes `swaps`. `swaps[i]` is the index `j` in `[0, i]` that `Math.floor(Math.random() * (i + 1))` produced at step `i`.
  - The computer's choice among its playable non-8s takes `pick`, the index that `Math.floor(Math.random() * n)` produced.
- **Assumed suit and rank listings.** The listings the deck is built from come from a constants file that is not part of this model. They are assumed to list every suit and every rank in the declaration order of `src/types.ts`.
- **The AI's suit choice assumes a stable sort.** It sorts the suits of its remaining hand by frequency and pops the last one. With a stable sort, that is the suit of the last card whose suit has the greatest count, and `GameBoard.MostCommonSuit` states exactly that.
- **Unchecked play.** The play handler checks neither that the card is in the actor's hand nor that a suit choice is open. Only the board prevents this: it offers only the player's own cards, and disables them when it is not the player's turn or a suit choice is open. The draw pile is not disabled during a choice; only the suit picker shown over the board keeps it out of reach. The model keeps the handler as it is. The two lemmas `PlayOfForeignCard` and `PlayDuringSuitChoice` show what the missing checks would allow. Preservation of `Valid` therefore takes card membership, and for the player a closed suit choice, as preconditions.
- **Unguarded suit choice.** The suit-choice handler checks nothing and is modelled that way. `SuitSelectAfterGameOver` shows that it still changes a finished game.

## Model

| member | source | states |
|---|---|---|
| CardUtils.CreateDeck | src/utils/cardUtils.ts:4-16 | 52 cards, suit-major and rank-minor; every (suit, rank) pair occurs, each card is the canonical card of its pair, and no card occurs twice |
| CardUtils.IdRoundTrip | src/utils/cardUtils.ts:9 | the identity `rank-suit` can be read back into the suit and rank it was made from |
| CardUtils.IdsDetermineCards | src/utils/cardUtils.ts:9 | two identities are equal exactly when suit and rank are |
| CardUtils.CreateDeckIdsDistinct | src/utils/cardUtils.ts:4-16 | the identities in the created deck are pairwise distinct |
| CardUtils.CanPlayCard | src/utils/cardUtils.ts:27-38 | an 8 is always legal; otherwise legal iff the rank matches the top card or the suit matches the suit in force (the wild suit if any, else the top card's) |
| CardUtils.TopSuitAloneNotEnough | src/utils/cardUtils.ts:32-37 | under a different wild suit, matching only the top card's suit is illegal, though legal without a wild suit |
| CardUtils.WildSameAsTop | src/utils/cardUtils.ts:32-37 | a wild suit equal to the top card's suit decides exactly as no wild suit |
| Shuffling.SwapPermutes | src/utils/cardUtils.ts:22 | one swap keeps the multiset of cards |
| Shuffling.FisherYatesPermutes | src/utils/cardUtils.ts:20-23 | the passes from position `i` down to 1 keep the multiset of cards |
| Shuffling.Shuffle | src/utils/cardUtils.ts:18-25 | the result has the input's length and the same multiset of cards, for every length including 0 and 1 |
| Shuffling.ShuffleInPlace | src/utils/cardUtils.ts:18-25 | the swapping loop from the last index down to 1 computes the same permutation as the recursive definition |
| Decks.NonEightAmongFirstFive | src/components/GameBoard.tsx:33-36 | among five cards taken from one deck at least one is not an 8, so the scan for the first discard stops within five steps |
| GameBoard.SkipEights | src/components/GameBoard.tsx:33-36 | the scan stops at the first non-8 and passes only 8s |
| GameBoard.Deal | src/components/GameBoard.tsx:28-49 | player gets the first 8 cards and the computer the next 8; the discard is the first non-8 among the next five, and the scanned 8s stay in the deck in order; 35 cards remain; playing, player to move, no winner, no wild suit, no open choice |
| GameBoard.InitGame | src/components/GameBoard.tsx:27-51 | a new game has hands of 8, one non-8 discard, a deck of 35, and the opening status fields |
| GameBoard.CheckWinner | src/components/GameBoard.tsx:59-70 | no winner iff both hands hold cards; the player wins iff the player's hand is empty, so the player's hand is looked at first; a winner's hand is empty |
| GameBoard.RemoveById | src/components/GameBoard.tsx:80-82 | every card with the played card's identity leaves the hand and every other card keeps its multiplicity |
| GameBoard.PlaceCard | src/components/GameBoard.tsx:80-89 | the card leaves the actor's hand by identity and becomes the discard top; the wild suit is cleared; nothing else changes |
| GameBoard.MostCommonSuit | src/components/GameBoard.tsx:104-107 | the chosen suit has the greatest count in the hand and is the suit of the last card with such a count; an empty hand gives the fallback |
| GameBoard.FinishPlay | src/components/GameBoard.tsx:91-119 | an emptied hand ends the game with that winner and nothing else; otherwise a player's 8 opens the suit choice, a computer's 8 sets the most common suit and gives the turn to the player, and any other card passes the turn |
| GameBoard.HandlePlayCard | src/components/GameBoard.tsx:72-120 | a no-op unless playing, the actor's turn and the card is legal; otherwise every effect of a play, the other hand and the deck unchanged, and the game over exactly when a hand is empty |
| GameBoard.HandleDrawCard | src/components/GameBoard.tsx:122-166 | a no-op unless playing and the actor's turn; an empty deck only passes the turn; otherwise the deck's last card moves to the end of the actor's hand, and the actor keeps the turn iff it is the computer or the card is legal |
| GameBoard.HandleSuitSelect | src/components/GameBoard.tsx:168-176 | whatever the state, the wild suit is set, the choice closes and the computer moves; nothing else changes |
| GameBoard.Playable | src/components/GameBoard.tsx:183 | a card is among the playable ones iff it is in the hand and legal |
| GameBoard.AiChoice | src/components/GameBoard.tsx:182-191 | nothing is chosen iff no card is legal; a chosen card is in the hand and legal, and is an 8 only when every legal card is an 8 |
| GameBoard.AiPlayOrDraw | src/components/GameBoard.tsx:179-201 | a no-op unless it is the computer's move with no open choice; it plays a legal card from its hand when it has one, preferring non-8s, and draws otherwise |
| GameBoard.AiPass | src/components/GameBoard.tsx:204-220 | on the computer's turn with nothing playable, only the turn changes, to the player; otherwise nothing changes |
| GameBoard.AiTurnAsScheduled | src/components/GameBoard.tsx:179-220 | the computer's turn in the order the two timers fire: with nothing playable it passes at once; otherwise it plays |
| GameInvariants.ValidCardCount | src/components/GameBoard.tsx:28-37 | a valid state holds 52 cards over its four piles |
| GameInvariants.DealKeepsCards | src/components/GameBoard.tsx:28-37 | dealing puts exactly the cards of the shuffled deck into the four piles |
| GameInvariants.InitGameValid | src/components/GameBoard.tsx:27-51 | a new game satisfies the invariant; in particular its piles are a permutation of the created deck |
| GameInvariants.RemoveByIdTakesOne | src/components/GameBoard.tsx:80-82 | in a hand of distinct identities, removing a held card by identity takes out exactly that card |
| GameInvariants.PlayKeepsCards | src/components/GameBoard.tsx:80-89 | a play of a card from the actor's hand keeps the multiset of all cards |
| GameInvariants.PlayKeepsShape | src/components/GameBoard.tsx:72-120 | a play keeps the status, winner, hand and suit-choice bookkeeping, unless the player plays during the choice |
| GameInvariants.PlayPreservesValid | src/components/GameBoard.tsx:72-120 | a play of a held card keeps the invariant, unless the player plays during the choice |
| GameInvariants.DrawKeepsCards | src/components/GameBoard.tsx:133-165 | a draw keeps the multiset of all cards |
| GameInvariants.DrawKeepsShape | src/components/GameBoard.tsx:122-166 | a draw keeps the bookkeeping, unless the player draws during the choice |
| GameInvariants.DrawPreservesValid | src/components/GameBoard.tsx:122-166 | a draw keeps the invariant, unless the player draws during the choice |
| GameInvariants.SuitSelectKeepsShape | src/components/GameBoard.tsx:168-176 | choosing the suit while the choice is open keeps the bookkeeping |
| GameInvariants.SuitSelectPreservesValid | src/components/GameBoard.tsx:168-176 | choosing the suit while the choice is open keeps the invariant |
| GameInvariants.AiPassPreservesValid | src/components/GameBoard.tsx:212-218 | the computer's pass keeps the invariant |
| GameInvariants.AiPlayOrDrawPreservesValid | src/components/GameBoard.tsx:183-194 | the computer's play or draw keeps the invariant |
| GameBoard.OnlyDrawnCardPlayable | src/components/GameBoard.tsx:193-197 | after a draw with nothing playable before it, the playable cards are the drawn card if it is legal and nothing otherwise |
| GameBoard.AiTurn | src/components/GameBoard.tsx:179-220 | the computer's turn as the comments at lines 193-197 and 209-211 describe it: outside its turn or during an open suit choice nothing happens; it plays when it can; otherwise it draws, then plays the drawn card if that is legal and passes if not; an empty deck passes the turn at once |
| GameInvariants.AiTurnHandsOver | src/components/GameBoard.tsx:179-220 | a computer turn ends with the player to move or the game over |
| GameInvariants.AiTurnPreservesValid | src/components/GameBoard.tsx:179-220 | a whole computer turn keeps the invariant |
| GameInvariants.AiTurnAsScheduledPreservesValid | src/components/GameBoard.tsx:179-220 | the computer's turn in the order the timers fire also keeps the invariant |
| GameInvariants.WaitingOnlyLeftByDeal | src/components/GameBoard.tsx:13-57 | the waiting state is not a started game; play, draw, pass and the computer's turn leave it unchanged; the unguarded suit choice changes it but keeps the status waiting; the deal yields a valid game in progress |
| GameInvariants.SuitSelectAfterGameOver | src/components/GameBoard.tsx:168-176 | after the game is over the unguarded suit choice still sets a wild suit and hands the turn to the computer |
| GameInvariants.ScheduledAiNeverDraws | src/components/GameBoard.tsx:204-220 | in timer order, a computer with nothing playable leaves deck and hand untouched, while the intended turn draws one card |
| GameInvariants.GameOverIsFinal | src/components/GameBoard.tsx:73-205 | once the game is over, the status guards alone make play, draw, pass and the computer's turn, intended or as scheduled, change nothing |
| GameInvariants.PlayOfForeignCard | src/components/GameBoard.tsx:73-89 | an accepted play of a card whose identity is not in the hand adds that card to the game, breaking conservation |
| GameInvariants.PlayDuringSuitChoice | src/components/GameBoard.tsx:73-78 | a player's non-8 play during the open suit choice gives the turn to the computer with the choice still open, which breaks the invariant |

## Left out

- The rendered board, the status messages, the confetti on a win, the restart button, and the presentation components `src/components/Card.tsx` and `src/components/SuitPicker.tsx`. These are user interface and a foreign library. The locks the board provides appear only as preconditions of the preservation lemmas.
- The effect that starts a game while the status is waiting. `GameBoard.InitGame` is the dealing it calls. The `Types.InitialState` constant is the waiting state, and `GameInvariants.WaitingOnlyLeftByDeal` shows that only the deal leaves the waiting status. The suit choice, which checks nothing, still sets a wild suit and hands the turn to the computer there.
- `Math.random` and the float arithmetic around it. Both are replaced by the caller-supplied `swaps` and `pick` indices, with range preconditions (`Shuffling.SwapsFit`, `GameBoard.PickFits`).
- The constants file with the suit and rank listings, and the class-name helper. Neither is part of this model, and the listings are assumed as described above.
- The timer delays and the effects' re-triggering. `GameBoard.AiTurn` composes the computer's move and its follow-up check directly, in the order the comments describe. `GameBoard.AiTurnAsScheduled` records the order in which the timers actually fire (see Findings).
- The handlers take the top of the discard pile. On an empty pile in the playing state that top is missing, and the legality check throws when it reads it, except for an 8 or a card of the wild suit, which are accepted before the read. The model requires `GameBoard.HasTop`: while playing, the pile is non-empty. Every state reached from the deal meets it, since `Valid` keeps the pile non-empty.
- GameBoard.AiChoice: states that the chosen card is legal, held, and a non-8 whenever a legal non-8 exists. It does not state which of the legal non-8s the random index selects.
- The shuffle copying its input before swapping. Sequences are values in the model, so the input cannot change.
- The AI's `|| card.suit` fallback is kept as the `fallback` parameter of `GameBoard.MostCommonSuit`. After the win check the computer's hand is never empty there, so the fallback is not reached.

## Findings

| source | as written | input that shows it | evidently intended | confidence | as-written member | corrected member |
|---|---|---|---|---|---|---|
| src/components/GameBoard.tsx:204-220 | the follow-up effect starts a 1000 ms pass whenever the turn reaches the computer with nothing playable; this fires before the 1500 ms move of lines 179-201 and cancels it, so the computer passes without drawing | any playing state on the computer's turn, with no choice open, no playable card in its hand and a non-empty deck | draw first (lines 193-197), then play the drawn card if it is legal and pass only otherwise | medium, not executed (depends on the order of the two timers) | GameInvariants.ScheduledAiNeverDraws | GameBoard.AiTurn |
