/** The Claude bot: heuristic card values informed by the estimated distribution, a small
    denial bonus at a two-player table, and the first card of highest total. */
module Claude {
  import opened Cards
  import opened Game
  import opened Ledger
  import opened Estimator
  import opened Selector

  /** Estimated Maki rolls per opponent: the distribution's rolls shared over the other players
      (at least one). */
  function EnemyMakiEstimate(ctx: Context): real
  {
    (Get(ctx.dist, Maki(1)) * 1.0 + Get(ctx.dist, Maki(2)) * 2.0 + Get(ctx.dist, Maki(3)) * 3.0)
      / MaxInt(ctx.playerCount - 1, 1) as real
  }

  /** Nigiri points the distribution promises, squid 3, salmon 2, egg 1. */
  function NigiriEstimate(ctx: Context): real
  {
    Get(ctx.dist, SquidNigiri) * 3.0 + Get(ctx.dist, SalmonNigiri) * 2.0 + Get(ctx.dist, EggNigiri)
  }

  /** `score_card`: the value of playing `card` from `hand`. */
  function Score(card: Card, hand: seq<Card>, ctx: Context): real
  {
    var turnsLeft := |hand| - 1;
    match card
    case Tempura =>
      var inPlay := Get(ctx.dist, Tempura) - Count(hand, Tempura) as real;
      if Count(ctx.played, Tempura) % 2 == 1 then 4.5
      else if MinReal(turnsLeft as real, inPlay) >= 1.0 then 3.0
      else 0.5
    case Sashimi =>
      var need := 3 - Count(ctx.played, Sashimi) % 3;
      var inPlay := Get(ctx.dist, Sashimi) - Count(hand, Sashimi) as real;
      if need == 1 then 5.0
      else if need == 2 && inPlay >= 2.0 && turnsLeft >= 2 then 3.5
      else if need == 3 && inPlay >= 3.0 && turnsLeft >= 3 then 2.5
      else 0.3
    case Dumpling =>
      var owned := Count(ctx.played, Dumpling);
      (DumplingPoints(owned + 1) - DumplingPoints(owned)) as real
    case Maki(rolls) =>
      var projected := (MakiTotal(ctx.played) + rolls) as real;
      var estimate := EnemyMakiEstimate(ctx);
      rolls as real * 1.2 + (if projected > estimate then 2.0 else if projected == estimate then 0.5 else 0.0)
    case EggNigiri => NigiriValue(card, ctx)
    case SalmonNigiri => NigiriValue(card, ctx)
    case SquidNigiri => NigiriValue(card, ctx)
    case Wasabi =>
      if ctx.hasUnusedWasabi then -1.0
      else 2.0 + MinReal(NigiriEstimate(ctx) / MaxInt(turnsLeft, 1) as real, 1.0) * 4.0
    case Pudding =>
      var base := if ctx.round == 3 then 3.0 else if ctx.round == 2 then 2.0 else 1.5;
      base + (if (ctx.puddings as real) < Get(ctx.dist, Pudding) / MaxInt(ctx.playerCount, 1) as real then 1.5 else 0.0)
    case Chopsticks =>
      if ctx.hasChopsticks || turnsLeft <= 1 then -1.0 else 1.0 + turnsLeft as real * 0.3
    case Other(_) => 0.0
  }

  /** A nigiri's face value, tripled plus one when an unused Wasabi waits for it. */
  function NigiriValue(card: Card, ctx: Context): real
    requires IsNigiri(card)
  {
    if ctx.hasUnusedWasabi then (NigiriBase(card) * 3 + 1) as real else NigiriBase(card) as real
  }

  /** `deny_value`: taking a strong card from the single opponent. */
  function Deny(card: Card, playerCount: int): real
  {
    if playerCount > 2 then 0.0
    else if card in {SquidNigiri, Sashimi, Pudding, Maki(3)} then 0.5
    else if card in {SalmonNigiri, Tempura, Wasabi, Maki(2)} then 0.25
    else 0.0
  }

  /** The total each card of the hand is judged by. */
  function Totals(hand: seq<Card>, ctx: Context): seq<real>
  {
    seq(|hand|, i requires 0 <= i < |hand| => Score(hand[i], hand, ctx) + Deny(hand[i], ctx.playerCount))
  }

  /** A Tempura is worth 4.5 exactly when it completes a pair, and less otherwise: 3.0 when
      a partner can still come and a pick follows, else 0.5. */
  lemma TempuraCompletesPair(hand: seq<Card>, ctx: Context)
    ensures Score(Tempura, hand, ctx) == 4.5 <==> Count(ctx.played, Tempura) % 2 == 1
    ensures Score(Tempura, hand, ctx) <= 4.5
    ensures var inPlay := Get(ctx.dist, Tempura) - Count(hand, Tempura) as real;
      Count(ctx.played, Tempura) % 2 == 0 ==>
        && (Score(Tempura, hand, ctx) == 3.0 <==> inPlay >= 1.0 && |hand| >= 2)
        && (Score(Tempura, hand, ctx) == 0.5 <==> inPlay < 1.0 || |hand| < 2)
  {
  }

  /** A Sashimi is worth 5.0 exactly when it completes a triple; 3.5 with one owned and 2.5
      with none owned when the triple can still be reached; an unreachable triple is worth
      0.3. */
  lemma SashimiCompletesTriple(hand: seq<Card>, ctx: Context)
    ensures Score(Sashimi, hand, ctx) == 5.0 <==> Count(ctx.played, Sashimi) % 3 == 2
    ensures Count(ctx.played, Sashimi) % 3 == 0 && |hand| < 4 ==> Score(Sashimi, hand, ctx) == 0.3
    ensures var have := Count(ctx.played, Sashimi) % 3;
      var inPlay := Get(ctx.dist, Sashimi) - Count(hand, Sashimi) as real;
      && (Score(Sashimi, hand, ctx) == 3.5 <==> have == 1 && inPlay >= 2.0 && |hand| >= 3)
      && (Score(Sashimi, hand, ctx) == 2.5 <==> have == 0 && inPlay >= 3.0 && |hand| >= 4)
      && (Score(Sashimi, hand, ctx) == 0.3
          <==> (have == 1 && (inPlay < 2.0 || |hand| < 3)) || (have == 0 && (inPlay < 3.0 || |hand| < 4)))
  {
  }

  /** A Dumpling is worth what it adds on the dumpling table: one more than the number owned,
      and nothing once five are owned. */
  lemma DumplingIsMarginal(hand: seq<Card>, ctx: Context)
    ensures var owned := Count(ctx.played, Dumpling);
      Score(Dumpling, hand, ctx) == if owned < 5 then (owned + 1) as real else 0.0
  {
    DumplingMarginal(Count(ctx.played, Dumpling));
  }

  /** A Maki Roll is worth 1.2 per roll plus a lead bonus: 2.0 when our projected rolls beat
      the per-opponent estimate, 0.5 on a tie, nothing behind. */
  lemma MakiLeadBonus(rolls: nat, hand: seq<Card>, ctx: Context)
    ensures var bonus := Score(Maki(rolls), hand, ctx) - rolls as real * 1.2;
      var projected := (MakiTotal(ctx.played) + rolls) as real;
      && (bonus == 2.0 <==> projected > EnemyMakiEstimate(ctx))
      && (bonus == 0.5 <==> projected == EnemyMakiEstimate(ctx))
      && (bonus == 0.0 <==> projected < EnemyMakiEstimate(ctx))
  {
  }

  /** On an unused Wasabi a nigiri is worth three times its face plus one, so squid beats
      salmon beats egg; without one, the face value. */
  lemma NigiriOnWasabi(card: Card, hand: seq<Card>, ctx: Context)
    requires IsNigiri(card)
    ensures ctx.hasUnusedWasabi ==> Score(card, hand, ctx) == (3 * NigiriBase(card) + 1) as real
    ensures !ctx.hasUnusedWasabi ==> Score(card, hand, ctx) == NigiriBase(card) as real
    ensures ctx.hasUnusedWasabi ==> Score(card, hand, ctx) >= 4.0
  {
  }

  /** A second Wasabi is worth -1.0; otherwise 2.0 plus 4.0 per estimated nigiri point per
      remaining pick, capped at one, so between 2.0 and 6.0 as long as no estimate is
      negative. */
  lemma WasabiRange(hand: seq<Card>, ctx: Context)
    ensures ctx.hasUnusedWasabi ==> Score(Wasabi, hand, ctx) == -1.0
    ensures !ctx.hasUnusedWasabi
            ==> Score(Wasabi, hand, ctx)
                == 2.0 + MinReal(NigiriEstimate(ctx) / MaxInt(|hand| - 1, 1) as real, 1.0) * 4.0
    ensures !ctx.hasUnusedWasabi && NigiriEstimate(ctx) >= 0.0
            ==> 2.0 <= Score(Wasabi, hand, ctx) <= 6.0
  {
    if !ctx.hasUnusedWasabi && NigiriEstimate(ctx) >= 0.0 {
      var turns := MaxInt(|hand| - 1, 1) as real;
      assert NigiriEstimate(ctx) / turns >= 0.0;
    }
  }

  /** Pudding is worth 1.5, 2.0 or 3.0 by round, plus 1.5 when the own puddings trail the
      per-player share of the estimated puddings; so more in later rounds. */
  lemma PuddingByRound(hand: seq<Card>, ctx: Context)
    ensures var behind := (ctx.puddings as real) < Get(ctx.dist, Pudding) / MaxInt(ctx.playerCount, 1) as real;
      && (ctx.round == 3 ==> Score(Pudding, hand, ctx) == if behind then 4.5 else 3.0)
      && (ctx.round == 2 ==> Score(Pudding, hand, ctx) == if behind then 3.5 else 2.0)
      && (ctx.round != 2 && ctx.round != 3 ==> Score(Pudding, hand, ctx) == if behind then 3.0 else 1.5)
    ensures ctx.round == 3 ==> Score(Pudding, hand, ctx) >= 3.0
    ensures ctx.round != 3 ==> 1.5 <= Score(Pudding, hand, ctx) <= 3.5
    ensures ctx.round == 1 ==> Score(Pudding, hand, ctx) <= 3.0
  {
  }

  /** Chopsticks are worth -1.0 when one is already owned or at most one pick follows, and
      gain 0.3 per remaining pick otherwise. */
  lemma ChopsticksWorth(hand: seq<Card>, ctx: Context)
    ensures ctx.hasChopsticks || |hand| <= 2 ==> Score(Chopsticks, hand, ctx) == -1.0
    ensures !ctx.hasChopsticks && |hand| > 2
            ==> Score(Chopsticks, hand, ctx) == 1.0 + (|hand| - 1) as real * 0.3
    ensures !ctx.hasChopsticks && |hand| > 2 ==> Score(Chopsticks, hand, ctx) > 1.5
  {
  }

  /** A card outside the catalog is worth nothing and denies nothing. */
  lemma UnknownWorthless(name: string, hand: seq<Card>, ctx: Context)
    ensures Score(Other(name), hand, ctx) == 0.0
    ensures Deny(Other(name), ctx.playerCount) == 0.0
  {
  }

  /** The denial bonus is zero above two players and 0.5 / 0.25 / 0 at two. */
  lemma DenyBounds(card: Card, playerCount: int)
    ensures playerCount > 2 ==> Deny(card, playerCount) == 0.0
    ensures 0.0 <= Deny(card, playerCount) <= 0.5
    ensures Deny(card, playerCount) == 0.5 <==> playerCount <= 2 && card in {SquidNigiri, Sashimi, Pudding, Maki(3)}
    ensures Deny(card, playerCount) == 0.25 <==> playerCount <= 2 && card in {SalmonNigiri, Tempura, Wasabi, Maki(2)}
    ensures playerCount <= 2 && card !in {SquidNigiri, Sashimi, Pudding, Maki(3), SalmonNigiri, Tempura, Wasabi, Maki(2)}
            ==> Deny(card, playerCount) == 0.0
  {
  }

  /** Completing a set does not always win: at two players a Maki Roll (3) that takes the Maki
      lead totals 6.1, above the 4.75 of a Tempura that completes a pair. */
  lemma MakiCanOutrankPairCompletion()
    ensures var ctx := Context([Tempura], [], 1, 1, 2, 0, false, false, map[]);
      var hand := [Tempura, Maki(3)];
      Totals(hand, ctx) == [4.75, 6.1]
  {
    var ctx := Context([Tempura], [], 1, 1, 2, 0, false, false, map[]);
    assert MakiTotal([Tempura]) == 0;
    assert Count([Tempura], Tempura) == 1;
    assert EnemyMakiEstimate(ctx) == 0.0;
  }

  /** `decide`: update the ledger, move the cursor on, and play the first card of highest
      total; an empty hand gives index 0. */
  method Decide(hand: seq<Card>, st: GameState) returns (index: nat)
    requires st.Valid()
    modifies st`started, st`hands, st`handNum, st`playerCount, st`startCardNum,
             st`totalRemaining, st`enemyCardsPlayed, st`cardDistribution
    ensures st.View() == Turn(old(st.View()), hand, Unclamped)
    ensures st.Valid()
    ensures st.cardDistribution
            == Distribution(st.hands, st.enemyCardsPlayed, st.playerCount, st.startCardNum)
    ensures |hand| == 0 ==> index == 0
    ensures |hand| > 0 ==> IsFirstMax(Totals(hand, st.ScoringContext()), index)
  {
    TurnKeepsValid(st.View(), hand, Unclamped);
    UpdateState(hand, st, Unclamped);
    AdvanceCursor(st);
    if |hand| == 0 {
      return 0;
    }
    index := FirstMax(Totals(hand, st.ScoringContext()));
  }
}
