/** The game-state record the orchestrator hands to every `decide` call. The core writes the
    ledger part (hands seen, rotation cursor, opponents' played cards, distribution) and only
    reads the rest. */
module Game {
  import opened Cards

  /** The ledger fields, as a value. `started` is false while `hands` is still None. */
  datatype LedgerView = LedgerView(
    started: bool,
    hands: seq<seq<Card>>,
    handNum: nat,
    playerCount: nat,
    startCardNum: nat,
    totalRemaining: int,
    enemyCardsPlayed: seq<Card>)

  /** The ledger between turns: the cursor addresses a slot already recorded or the next new
      one, and never more slots are recorded than there are players. Before the first hand
      the cursor may hold anything, since the first call resets it. */
  predicate ValidLedger(v: LedgerView)
  {
    if v.started then
      2 <= v.playerCount && 1 <= |v.hands| <= v.playerCount
      && v.handNum < v.playerCount && v.handNum <= |v.hands|
    else
      v.hands == []
  }

  /** Everything the valuation functions read from the state in one turn. */
  datatype Context = Context(
    played: seq<Card>,
    enemyPlayed: seq<Card>,
    round: int,
    turn: int,
    playerCount: int,
    puddings: int,
    hasUnusedWasabi: bool,
    hasChopsticks: bool,
    dist: map<Card, real>)

  class GameState {
    // written by the core
    var started: bool
    var hands: seq<seq<Card>>
    var handNum: nat
    var playerCount: nat
    var startCardNum: nat
    var totalRemaining: int
    var enemyCardsPlayed: seq<Card>
    var cardDistribution: map<Card, real>
    // owned by the orchestrator, read by the core
    var playedCards: seq<Card>
    var round: int
    var turn: int
    var puddings: int
    var hasUnusedWasabi: bool
    var hasChopsticks: bool

    function View(): LedgerView
      reads this
    {
      LedgerView(started, hands, handNum, playerCount, startCardNum, totalRemaining, enemyCardsPlayed)
    }

    predicate Valid()
      reads this
    {
      ValidLedger(View())
    }

    function ScoringContext(): Context
      reads this
    {
      Context(playedCards, enemyCardsPlayed, round, turn, playerCount, puddings,
              hasUnusedWasabi, hasChopsticks, cardDistribution)
    }

    /** A fresh state at the start of a round: no hand seen yet, cursor at 0. */
    constructor (playedCards: seq<Card>, round: int, turn: int, puddings: int,
                 hasUnusedWasabi: bool, hasChopsticks: bool)
      ensures Valid() && !started && enemyCardsPlayed == [] && cardDistribution == map[]
      ensures this.playedCards == playedCards && this.round == round && this.turn == turn
      ensures this.puddings == puddings && this.hasUnusedWasabi == hasUnusedWasabi
      ensures this.hasChopsticks == hasChopsticks
    {
      started, hands, handNum, playerCount := false, [], 0, 0;
      startCardNum, totalRemaining, enemyCardsPlayed, cardDistribution := 0, 0, [], map[];
      this.playedCards, this.round, this.turn, this.puddings := playedCards, round, turn, puddings;
      this.hasUnusedWasabi, this.hasChopsticks := hasUnusedWasabi, hasChopsticks;
    }
  }

  /** Moving the cursor to the next rotation position (`hand_num = (hand_num + 1) % player_count`). */
  function Advance(v: LedgerView): LedgerView
    requires v.playerCount > 0
  {
    v.(handNum := (v.handNum + 1) % v.playerCount)
  }
}
