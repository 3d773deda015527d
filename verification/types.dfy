/** The vocabulary of the game: suits, ranks, cards and the game-state record. */
module Types {

  /** An optional value; stands for a nullable field (`None` is null). */
  datatype Option<+T> = None | Some(value: T)

  /** Exactly the four suits, in declaration order. */
  datatype Suit = Hearts | Diamonds | Clubs | Spades

  /** Exactly the thirteen ranks A..K, in declaration order; `Eight` is the wild rank. */
  datatype Rank = Ace | Two | Three | Four | Five | Six | Seven | Eight | Nine | Ten | Jack | Queen | King

  /** A card: its identity string, suit and rank. */
  datatype Card = Card(id: string, suit: Suit, rank: Rank)

  datatype GameStatus = Waiting | Playing | GameOver

  /** Whose turn it is; also names the two sides (the `isPlayer` flag of the handlers). */
  datatype Turn = Player | Ai

  /** The whole game: four card sequences plus turn, phase and wild-suit bookkeeping. */
  datatype GameState = GameState(
    deck: seq<Card>,
    playerHand: seq<Card>,
    aiHand: seq<Card>,
    discardPile: seq<Card>,
    currentTurn: Turn,
    status: GameStatus,
    winner: Option<Turn>,
    activeSuit: Option<Suit>,
    isSuitPicking: bool)

  function Other(t: Turn): (r: Turn)
    ensures r != t
  {
    match t
    case Player => Ai
    case Ai => Player
  }

  /** The hand held by side `t`. */
  function HandOf(s: GameState, t: Turn): seq<Card>
  {
    if t == Player then s.playerHand else s.aiHand
  }

  /** `s` with side `t`'s hand replaced by `h`. */
  function WithHand(s: GameState, t: Turn, h: seq<Card>): (r: GameState)
    ensures HandOf(r, t) == h && HandOf(r, Other(t)) == HandOf(s, Other(t))
  {
    if t == Player then s.(playerHand := h) else s.(aiHand := h)
  }

  /** The state before any game has started. */
  const InitialState: GameState :=
    GameState([], [], [], [], Player, Waiting, None, None, false)
}
