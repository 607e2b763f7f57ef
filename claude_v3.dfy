/** The third Claude bot: a fixed base priority per card type, adjusted by set progress, the
    own pile's Wasabi and the estimated distribution. */
module ClaudeV3 {
  import opened Cards
  import opened Game
  import opened Ledger
  import opened Estimator
  import opened Selector

  /** Nigiri points the distribution promises, squid 3, salmon 2, egg 1. */
  function NigiriSupply(ctx: Context): real
  {
    Get(ctx.dist, SquidNigiri) * 3.0 + Get(ctx.dist, SalmonNigiri) * 2.0 + Get(ctx.dist, EggNigiri)
  }

  /** Estimated Maki rolls per opponent. */
  function OpponentMakiEstimate(ctx: Context): real
  {
    (Get(ctx.dist, Maki(1)) + Get(ctx.dist, Maki(2)) * 2.0 + Get(ctx.dist, Maki(3)) * 3.0)
      / MaxInt(ctx.playerCount - 1, 1) as real
  }

  /** What `_score` adds to the base priority of `card`. */
  function Adjustment(card: Card, hand: seq<Card>, ctx: Context): real
  {
    var turnsLeft := |hand| - 1;
    match card
    case EggNigiri => WasabiBonus(ctx)
    case SalmonNigiri => WasabiBonus(ctx)
    case SquidNigiri => WasabiBonus(ctx)
    case Tempura =>
      var available := Get(ctx.dist, Tempura) - Count(hand, Tempura) as real;
      if Count(ctx.played, Tempura) % 2 == 1 then 10.0
      else if available < 1.0 || turnsLeft < 1 then -4.0
      else 0.0
    case Sashimi =>
      var have := Count(ctx.played, Sashimi) % 3;
      var available := Get(ctx.dist, Sashimi) - Count(hand, Sashimi) as real;
      if have == 2 then 10.0
      else if have == 1 then (if available >= 1.0 && turnsLeft >= 1 then 5.0 else -5.0)
      else (if available >= 2.0 && turnsLeft >= 2 then 2.0 else -5.0)
    case Dumpling =>
      var have := Count(ctx.played, Dumpling);
      (DumplingPoints(have + 1) - DumplingPoints(have) + have * 2) as real
    case Maki(rolls) =>
      rolls as real
      + (if (MakiTotal(ctx.played) + rolls) as real > OpponentMakiEstimate(ctx) then 2.0 else 0.0)
    case Wasabi =>
      if HasEmptyWasabi(ctx.played) then -13.0
      else if NigiriSupply(ctx) < 1.0 || turnsLeft < 1 then -8.0
      else 0.0
    case Pudding =>
      var average := (Get(ctx.dist, Pudding) + ctx.puddings as real) / MaxInt(ctx.playerCount, 1) as real;
      ctx.round as real + (if (ctx.puddings as real) < average then 2.0 else 0.0)
    case Chopsticks =>
      if ctx.hasChopsticks || turnsLeft <= 1 then -10.0 else turnsLeft as real * 0.3
    case Other(_) => 0.0
  }

  /** +20 on a nigiri while the own pile holds an empty Wasabi. */
  function WasabiBonus(ctx: Context): real
  {
    if HasEmptyWasabi(ctx.played) then 20.0 else 0.0
  }

  /** `_score`: base priority plus the adjustment. */
  function Score(card: Card, hand: seq<Card>, ctx: Context): real
  {
    BasePriority(card) as real + Adjustment(card, hand, ctx)
  }

  /** `_deny`: at two players, 1.0 for a strong card and 0.5 for a medium one. */
  function Deny(card: Card, playerCount: int): real
  {
    if playerCount > 2 then 0.0
    else if card in {SquidNigiri, Sashimi, Pudding, Maki(3)} then 1.0
    else if card in {SalmonNigiri, Tempura, Maki(2)} then 0.5
    else 0.0
  }

  /** The total each card of the hand is judged by. */
  function Totals(hand: seq<Card>, ctx: Context): seq<real>
  {
    seq(|hand|, i requires 0 <= i < |hand| => Score(hand[i], hand, ctx) + Deny(hand[i], ctx.playerCount))
  }

  /** A card outside the catalog starts from 0 and is not adjusted. */
  lemma UnknownWorthless(name: string, hand: seq<Card>, ctx: Context)
    ensures Score(Other(name), hand, ctx) == 0.0
    ensures Deny(Other(name), ctx.playerCount) == 0.0
  {
  }

  /** An empty Wasabi in the own pile adds 20 to every nigiri and takes 13 from Wasabi;
      without one neither changes. */
  lemma EmptyWasabiSwing(card: Card, hand: seq<Card>, ctx: Context)
    requires IsNigiri(card)
    ensures Score(card, hand, ctx) == BasePriority(card) as real + 20.0 <==> HasEmptyWasabi(ctx.played)
    ensures Score(card, hand, ctx) == BasePriority(card) as real <==> !HasEmptyWasabi(ctx.played)
    ensures HasEmptyWasabi(ctx.played) <==> Score(Wasabi, hand, ctx) == -2.0
  {
  }

  /** Tempura: +10 to complete a pair; -4 to start one no partner can reach; else unchanged. */
  lemma TempuraAdjustment(hand: seq<Card>, ctx: Context)
    ensures Count(ctx.played, Tempura) % 2 == 1 <==> Score(Tempura, hand, ctx) == 16.0
    ensures Count(ctx.played, Tempura) % 2 == 0
            && Get(ctx.dist, Tempura) - Count(hand, Tempura) as real >= 1.0 && |hand| >= 2
            ==> Score(Tempura, hand, ctx) == 6.0
    ensures Count(ctx.played, Tempura) % 2 == 0 ==>
      (Score(Tempura, hand, ctx) == 2.0
       <==> Get(ctx.dist, Tempura) - Count(hand, Tempura) as real < 1.0 || |hand| < 2)
  {
  }

  /** Sashimi: +10 to complete a triple, else +5 (one owned) or +2 (none owned) when the
      triple can still be reached, -5 when it cannot. */
  lemma SashimiAdjustment(hand: seq<Card>, ctx: Context)
    ensures var have := Count(ctx.played, Sashimi) % 3;
      var available := Get(ctx.dist, Sashimi) - Count(hand, Sashimi) as real;
      && (Score(Sashimi, hand, ctx) == 17.0 <==> have == 2)
      && (Score(Sashimi, hand, ctx) == 12.0 <==> have == 1 && available >= 1.0 && |hand| >= 2)
      && (Score(Sashimi, hand, ctx) == 9.0 <==> have == 0 && available >= 2.0 && |hand| >= 3)
      && (Score(Sashimi, hand, ctx) == 2.0
          <==> (have == 1 && (available < 1.0 || |hand| < 2))
               || (have == 0 && (available < 2.0 || |hand| < 3)))
    ensures Score(Sashimi, hand, ctx) in {17.0, 12.0, 9.0, 2.0}
  {
  }

  /** Wasabi without an empty one down: -8 (a score of 3) exactly when fewer than one nigiri
      point is estimated to come or no pick follows, else unchanged at 11. */
  lemma WasabiSupply(hand: seq<Card>, ctx: Context)
    ensures !HasEmptyWasabi(ctx.played) ==>
      && (Score(Wasabi, hand, ctx) == 3.0 <==> NigiriSupply(ctx) < 1.0 || |hand| < 2)
      && (Score(Wasabi, hand, ctx) == 11.0 <==> NigiriSupply(ctx) >= 1.0 && |hand| >= 2)
  {
  }

  /** Pudding: the round number, plus 2 exactly when the own puddings trail the per-player
      average of the estimated and owned puddings. */
  lemma PuddingAdjustment(hand: seq<Card>, ctx: Context)
    ensures var bonus := Adjustment(Pudding, hand, ctx) - ctx.round as real;
      var average := (Get(ctx.dist, Pudding) + ctx.puddings as real) / MaxInt(ctx.playerCount, 1) as real;
      && (bonus == 2.0 <==> (ctx.puddings as real) < average)
      && (bonus == 0.0 <==> (ctx.puddings as real) >= average)
  {
  }

  /** Dumpling: base 8 plus the table's marginal plus two per dumpling owned. */
  lemma DumplingAdjustment(hand: seq<Card>, ctx: Context)
    ensures var have := Count(ctx.played, Dumpling);
      Score(Dumpling, hand, ctx) == if have < 5 then (9 + 3 * have) as real else (8 + 2 * have) as real
  {
    DumplingMarginal(Count(ctx.played, Dumpling));
  }

  /** Maki Roll: its rolls, plus 2 when the projected total leads the per-opponent estimate. */
  lemma MakiAdjustment(rolls: nat, hand: seq<Card>, ctx: Context)
    ensures Adjustment(Maki(rolls), hand, ctx) == rolls as real + 2.0
            <==> (MakiTotal(ctx.played) + rolls) as real > OpponentMakiEstimate(ctx)
    ensures Adjustment(Maki(rolls), hand, ctx) >= rolls as real
  {
  }

  /** Chopsticks: -10 when owned or late, otherwise 0.3 per remaining pick. */
  lemma ChopsticksAdjustment(hand: seq<Card>, ctx: Context)
    ensures ctx.hasChopsticks || |hand| <= 2 <==> Score(Chopsticks, hand, ctx) == -10.0
    ensures !ctx.hasChopsticks && |hand| > 2
            ==> Adjustment(Chopsticks, hand, ctx) == (|hand| - 1) as real * 0.3
  {
  }

  /** The denial bonus is zero above two players and 1.0 / 0.5 / 0 at two; Wasabi is not
      denied. */
  lemma DenyBounds(card: Card, playerCount: int)
    ensures playerCount > 2 ==> Deny(card, playerCount) == 0.0
    ensures 0.0 <= Deny(card, playerCount) <= 1.0
    ensures Deny(Wasabi, playerCount) == 0.0
    ensures Deny(card, playerCount) == 1.0 <==> playerCount <= 2 && card in {SquidNigiri, Sashimi, Pudding, Maki(3)}
    ensures Deny(card, playerCount) == 0.5 <==> playerCount <= 2 && card in {SalmonNigiri, Tempura, Maki(2)}
  {
  }

  /** `decide`: update the ledger, move the cursor on, and play the first card of highest
      total; an empty hand gives index 0. */
  method Decide(hand: seq<Card>, st: GameState) returns (index: nat)
    requires st.Valid()
    modifies st`started, st`hands, st`handNum, st`playerCount, st`startCardNum,
             st`totalRemaining, st`enemyCardsPlayed, st`cardDistribution
    ensures st.View() == Turn(old(st.View()), hand, Untracked)
    ensures st.Valid()
    ensures st.cardDistribution
            == Distribution(st.hands, st.enemyCardsPlayed, st.playerCount, st.startCardNum)
    ensures |hand| == 0 ==> index == 0
    ensures |hand| > 0 ==> IsFirstMax(Totals(hand, st.ScoringContext()), index)
  {
    TurnKeepsValid(st.View(), hand, Untracked);
    UpdateState(hand, st, Untracked);
    AdvanceCursor(st);
    if |hand| == 0 {
      return 0;
    }
    index := FirstMax(Totals(hand, st.ScoringContext()));
  }
}
