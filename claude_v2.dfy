/** The second Claude bot: larger constants, set bonuses judged on its own played pile, a
    denial bonus at every table size, and a deck count that never goes below zero. */
module ClaudeV2 {
  import opened Cards
  import opened Game
  import opened Ledger
  import opened Estimator
  import opened Selector

  /** Nigiri points the distribution promises, squid 3, salmon 2, egg 1. */
  function NigiriEstimate(ctx: Context): real
  {
    Get(ctx.dist, SquidNigiri) * 3.0 + Get(ctx.dist, SalmonNigiri) * 2.0 + Get(ctx.dist, EggNigiri)
  }

  /** Estimated Maki rolls per opponent. */
  function OpponentMakiEstimate(ctx: Context): real
  {
    (Get(ctx.dist, Maki(1)) * 1.0 + Get(ctx.dist, Maki(2)) * 2.0 + Get(ctx.dist, Maki(3)) * 3.0)
      / MaxInt(ctx.playerCount - 1, 1) as real
  }

  /** `score_card`: the value of playing `card` from `hand`. */
  function Score(card: Card, hand: seq<Card>, ctx: Context): real
  {
    var turnsLeft := |hand| - 1;
    match card
    case Tempura =>
      var available := Get(ctx.dist, Tempura) - Count(hand, Tempura) as real;
      if Count(ctx.played, Tempura) % 2 == 1 then 15.0
      else if available >= 1.0 && turnsLeft >= 1 then 6.0
      else 1.0
    case Sashimi =>
      var have := Count(ctx.played, Sashimi) % 3;
      var available := Get(ctx.dist, Sashimi) - Count(hand, Sashimi) as real;
      if have == 2 then 18.0
      else if have == 1 && available >= 1.0 && turnsLeft >= 1 then 9.0
      else if have == 0 && available >= 2.0 && turnsLeft >= 2 then 5.0
      else 0.5
    case Dumpling =>
      var have := Count(ctx.played, Dumpling);
      (DumplingPoints(have + 1) - DumplingPoints(have)) as real + have as real * 2.0
    case Maki(rolls) =>
      var projected := (MakiTotal(ctx.played) + rolls) as real;
      var estimate := OpponentMakiEstimate(ctx);
      rolls as real * 1.5 + (if projected > estimate then 3.0 else if projected >= estimate then 1.5 else 0.0)
    case EggNigiri => NigiriValue(card, ctx)
    case SalmonNigiri => NigiriValue(card, ctx)
    case SquidNigiri => NigiriValue(card, ctx)
    case Wasabi =>
      if HasEmptyWasabi(ctx.played) then -2.0
      else 2.0 + MinReal(NigiriEstimate(ctx), turnsLeft as real) * 1.5
    case Pudding =>
      var average := (Get(ctx.dist, Pudding) + ctx.puddings as real) / MaxInt(ctx.playerCount, 1) as real;
      ctx.round as real * 1.5 + (if (ctx.puddings as real) < average then 2.0 else 0.0)
    case Chopsticks =>
      if ctx.hasChopsticks || turnsLeft <= 1 then -3.0 else 0.5 + turnsLeft as real * 0.4
    case Other(_) => 0.0
  }

  /** A nigiri's face value, tripled plus eight while the own pile holds an empty Wasabi. */
  function NigiriValue(card: Card, ctx: Context): real
    requires IsNigiri(card)
  {
    if HasEmptyWasabi(ctx.played) then NigiriBase(card) as real * 3.0 + 8.0 else NigiriBase(card) as real
  }

  /** `deny_value`: 1.0 for a strong card and 0.5 for a medium one, scaled by 0.3 unless the
      table has exactly two players. */
  function Deny(card: Card, playerCount: int): real
  {
    var multiplier := if playerCount == 2 then 1.0 else 0.3;
    if card in {SquidNigiri, Sashimi, Pudding, Maki(3)} then 1.0 * multiplier
    else if card in {SalmonNigiri, Tempura, Wasabi, Maki(2)} then 0.5 * multiplier
    else 0.0
  }

  /** The total each card of the hand is judged by. */
  function Totals(hand: seq<Card>, ctx: Context): seq<real>
  {
    seq(|hand|, i requires 0 <= i < |hand| => Score(hand[i], hand, ctx) + Deny(hand[i], ctx.playerCount))
  }

  /** Tempura: 15 when it completes a pair; else 6 when another can still come, else 1. */
  lemma TempuraValues(hand: seq<Card>, ctx: Context)
    ensures Score(Tempura, hand, ctx) == 15.0 <==> Count(ctx.played, Tempura) % 2 == 1
    ensures Count(ctx.played, Tempura) % 2 == 0 ==>
      (Score(Tempura, hand, ctx) == 6.0
       <==> Get(ctx.dist, Tempura) - Count(hand, Tempura) as real >= 1.0 && |hand| >= 2)
    ensures Count(ctx.played, Tempura) % 2 == 0 ==>
      (Score(Tempura, hand, ctx) == 1.0
       <==> Get(ctx.dist, Tempura) - Count(hand, Tempura) as real < 1.0 || |hand| < 2)
  {
  }

  /** Sashimi: 18 exactly when it completes a triple, then 9, 5 or 0.5 by what can still come. */
  lemma SashimiValues(hand: seq<Card>, ctx: Context)
    ensures var have := Count(ctx.played, Sashimi) % 3;
      var available := Get(ctx.dist, Sashimi) - Count(hand, Sashimi) as real;
      && (Score(Sashimi, hand, ctx) == 18.0 <==> have == 2)
      && (Score(Sashimi, hand, ctx) == 9.0 <==> have == 1 && available >= 1.0 && |hand| >= 2)
      && (Score(Sashimi, hand, ctx) == 5.0 <==> have == 0 && available >= 2.0 && |hand| >= 3)
    ensures Score(Sashimi, hand, ctx) in {18.0, 9.0, 5.0, 0.5}
  {
  }

  /** Dumpling: the table's marginal plus two per dumpling owned, so it keeps growing. */
  lemma DumplingSnowball(hand: seq<Card>, ctx: Context)
    ensures var have := Count(ctx.played, Dumpling);
      Score(Dumpling, hand, ctx) == if have < 5 then (3 * have + 1) as real else (2 * have) as real
  {
    DumplingMarginal(Count(ctx.played, Dumpling));
  }

  /** A nigiri gets three times its face plus eight exactly when the own pile holds more
      Wasabi than nigiri. */
  lemma NigiriOnWasabi(card: Card, hand: seq<Card>, ctx: Context)
    requires IsNigiri(card)
    ensures Score(card, hand, ctx) == NigiriBase(card) as real * 3.0 + 8.0
            <==> Count(ctx.played, Wasabi) > NigiriCount(ctx.played)
    ensures Score(card, hand, ctx) >= 1.0
  {
  }

  /** Wasabi: -2 with an empty Wasabi already down; else 2 + 1.5 per reachable nigiri point,
      the estimated nigiri points capped by the picks left. */
  lemma WasabiValues(hand: seq<Card>, ctx: Context)
    ensures HasEmptyWasabi(ctx.played) ==> Score(Wasabi, hand, ctx) == -2.0
    ensures !HasEmptyWasabi(ctx.played)
            ==> Score(Wasabi, hand, ctx) == 2.0 + MinReal(NigiriEstimate(ctx), (|hand| - 1) as real) * 1.5
    ensures !HasEmptyWasabi(ctx.played) && NigiriEstimate(ctx) >= 0.0 && |hand| >= 1
            ==> 2.0 <= Score(Wasabi, hand, ctx) <= 2.0 + 1.5 * (|hand| - 1) as real
  {
  }

  /** Maki Roll: 1.5 per roll, plus 3.0 ahead of the per-opponent estimate, 1.5 level with it. */
  lemma MakiLeadBonus(rolls: nat, hand: seq<Card>, ctx: Context)
    ensures var bonus := Score(Maki(rolls), hand, ctx) - rolls as real * 1.5;
      var projected := (MakiTotal(ctx.played) + rolls) as real;
      && (bonus == 3.0 <==> projected > OpponentMakiEstimate(ctx))
      && (bonus == 1.5 <==> projected == OpponentMakiEstimate(ctx))
      && (bonus == 0.0 <==> projected < OpponentMakiEstimate(ctx))
  {
  }

  /** Chopsticks: -3 when owned or late, otherwise above 1.2. */
  lemma ChopsticksValues(hand: seq<Card>, ctx: Context)
    ensures ctx.hasChopsticks || |hand| <= 2 ==> Score(Chopsticks, hand, ctx) == -3.0
    ensures !ctx.hasChopsticks && |hand| > 2
            ==> Score(Chopsticks, hand, ctx) == 0.5 + (|hand| - 1) as real * 0.4
    ensures !ctx.hasChopsticks && |hand| > 2 ==> Score(Chopsticks, hand, ctx) > 1.2
  {
  }

  /** Pudding: 1.5 per round number, plus 2.0 exactly when the own puddings trail the
      per-player average of the estimated and owned puddings. */
  lemma PuddingValues(hand: seq<Card>, ctx: Context)
    ensures var bonus := Score(Pudding, hand, ctx) - ctx.round as real * 1.5;
      var average := (Get(ctx.dist, Pudding) + ctx.puddings as real) / MaxInt(ctx.playerCount, 1) as real;
      && (bonus == 2.0 <==> (ctx.puddings as real) < average)
      && (bonus == 0.0 <==> (ctx.puddings as real) >= average)
  {
  }

  /** The denial bonus is never negative, at most 1.0, and full only at two players. */
  lemma DenyBounds(card: Card, playerCount: int)
    ensures 0.0 <= Deny(card, playerCount) <= 1.0
    ensures Deny(card, playerCount) == 1.0 ==> playerCount == 2
    ensures playerCount != 2 ==> Deny(card, playerCount) <= 0.3
    ensures card.Other? ==> Deny(card, playerCount) == 0.0
    ensures var multiplier := if playerCount == 2 then 1.0 else 0.3;
      && (card in {SquidNigiri, Sashimi, Pudding, Maki(3)} ==> Deny(card, playerCount) == 1.0 * multiplier)
      && (card in {SalmonNigiri, Tempura, Wasabi, Maki(2)} ==> Deny(card, playerCount) == 0.5 * multiplier)
      && (card !in {SquidNigiri, Sashimi, Pudding, Maki(3), SalmonNigiri, Tempura, Wasabi, Maki(2)}
          ==> Deny(card, playerCount) == 0.0)
  {
  }

  /** A card outside the catalog is worth nothing. */
  lemma UnknownWorthless(name: string, hand: seq<Card>, ctx: Context)
    ensures Score(Other(name), hand, ctx) == 0.0
  {
  }

  /** `decide`: update the ledger (deck count clamped at zero), move the cursor on, and play
      the first card of highest total; an empty hand gives index 0. */
  method Decide(hand: seq<Card>, st: GameState) returns (index: nat)
    requires st.Valid()
    modifies st`started, st`hands, st`handNum, st`playerCount, st`startCardNum,
             st`totalRemaining, st`enemyCardsPlayed, st`cardDistribution
    ensures st.View() == Turn(old(st.View()), hand, Clamped)
    ensures st.Valid()
    ensures st.cardDistribution
            == Distribution(st.hands, st.enemyCardsPlayed, st.playerCount, st.startCardNum)
    ensures |hand| == 0 ==> index == 0
    ensures |hand| > 0 ==> IsFirstMax(Totals(hand, st.ScoringContext()), index)
  {
    TurnKeepsValid(st.View(), hand, Clamped);
    UpdateState(hand, st, Clamped);
    AdvanceCursor(st);
    if |hand| == 0 {
      return 0;
    }
    index := FirstMax(Totals(hand, st.ScoringContext()));
  }
}
