/** The GeminiPro bot: a tiered score per card (completions, denial, Maki, early setup, a late
    penalty, Pudding, Chopsticks, then fallbacks for cards still at zero) and the first card of
    highest score. */
module GeminiPro {
  import opened Cards
  import opened Game
  import opened Selector

  /** The first four tiers: only the first branch that matches applies. */
  function Tiered(card: Card, mine: seq<Card>, enemy: seq<Card>, cardsLeft: nat): int
  {
    if HasEmptyWasabi(mine) && card == SquidNigiri then 100
    else if Count(mine, Sashimi) % 3 == 2 && card == Sashimi then 95
    else if Count(mine, Tempura) % 2 == 1 && card == Tempura then 90
    else if HasEmptyWasabi(mine) && card == SalmonNigiri then 85
    else if HasEmptyWasabi(mine) && card == EggNigiri then 80
    else if card == Sashimi && Count(enemy, Sashimi) >= 2 then 75
    else if card == SquidNigiri && HasEmptyWasabi(enemy) then 70
    else if card.Maki? then 40 + LeadingDigit(card.rolls) * 5
    else if cardsLeft >= 7 then
      if card == Wasabi then 65
      else if card == Sashimi && Count(mine, Sashimi) % 3 == 0 then 60
      else if card == Tempura && Count(mine, Tempura) % 2 == 0 then 55
      else 0
    else 0
  }

  /** The late penalty, else the Pudding or Chopsticks adjustment. */
  function LateAdjustment(card: Card, cardsLeft: nat, round: int): int
  {
    if cardsLeft <= 3 && card in {Wasabi, Sashimi, Tempura} then -100
    else if card == Pudding then 30 + (if round == 3 then 20 else 0)
    else if card == Chopsticks then (if cardsLeft >= 7 then 50 else -100)
    else 0
  }

  /** The fallback for a card whose score is still zero. */
  function Fallback(card: Card, mine: seq<Card>): int
  {
    if card == SquidNigiri then 25
    else if card == Dumpling then 15 + Count(mine, Dumpling) * 5
    else if card == SalmonNigiri then 10
    else if card == EggNigiri then 5
    else 0
  }

  /** The score of one card of a hand of `cardsLeft` cards. */
  function Score(card: Card, ctx: Context, cardsLeft: nat): int
  {
    var s := Tiered(card, ctx.played, ctx.enemyPlayed, cardsLeft) + LateAdjustment(card, cardsLeft, ctx.round);
    if s == 0 then Fallback(card, ctx.played) else s
  }

  /** The scores of the cards of the hand, in hand order. */
  function Scores(hand: seq<Card>, ctx: Context): seq<real>
  {
    seq(|hand|, i requires 0 <= i < |hand| => Score(hand[i], ctx, |hand|) as real)
  }

  /** Squid on an empty Wasabi is 100 whatever else holds; the completions follow in the order
      Sashimi 95, Tempura 90, Salmon 85, Egg 80 while more than three cards are left. */
  lemma TierOneOrder(ctx: Context, cardsLeft: nat)
    requires HasEmptyWasabi(ctx.played)
    ensures Score(SquidNigiri, ctx, cardsLeft) == 100
    ensures Score(SalmonNigiri, ctx, cardsLeft) == 85
    ensures Score(EggNigiri, ctx, cardsLeft) == 80
  {
  }

  lemma SetCompletions(ctx: Context, cardsLeft: nat)
    requires cardsLeft > 3
    ensures Count(ctx.played, Sashimi) % 3 == 2 <==> Score(Sashimi, ctx, cardsLeft) == 95
    ensures Count(ctx.played, Tempura) % 2 == 1 <==> Score(Tempura, ctx, cardsLeft) == 90
  {
  }

  /** The late penalty hits even a completing Sashimi or Tempura, which the comment beside it
      says it spares: 95 - 100 and 90 - 100. */
  lemma LatePenaltyHitsCompletions(ctx: Context, cardsLeft: nat)
    requires cardsLeft <= 3
    ensures Count(ctx.played, Sashimi) % 3 == 2 ==> Score(Sashimi, ctx, cardsLeft) == -5
    ensures Count(ctx.played, Tempura) % 2 == 1 ==> Score(Tempura, ctx, cardsLeft) == -10
    ensures Score(Wasabi, ctx, cardsLeft) == -100
  {
  }

  /** Denial: a Sashimi the opponents are collecting scores 75, a Squid an opponent's empty
      Wasabi waits for scores 70, when no own completion takes precedence. */
  lemma DenialTier(ctx: Context, cardsLeft: nat)
    requires cardsLeft > 3
    ensures Count(ctx.played, Sashimi) % 3 != 2 && Count(ctx.enemyPlayed, Sashimi) >= 2
            ==> Score(Sashimi, ctx, cardsLeft) == 75
    ensures !HasEmptyWasabi(ctx.played) && HasEmptyWasabi(ctx.enemyPlayed)
            ==> Score(SquidNigiri, ctx, cardsLeft) == 70
  {
  }

  /** Any Maki Roll scores 40 plus 5 per roll digit, however many cards are left. */
  lemma MakiAnyTime(n: nat, ctx: Context, cardsLeft: nat)
    ensures Score(Maki(n), ctx, cardsLeft) == 40 + 5 * LeadingDigit(n)
  {
  }

  /** Early setup, with seven or more cards left: Wasabi 65, a Sashimi starting a triple 60
      (unless the opponents' Sashimi earn it the denial score), a Tempura starting a pair 55.
      With four to six cards left a Wasabi falls through every tier and scores 0. */
  lemma SetupTier(ctx: Context, cardsLeft: nat)
    ensures cardsLeft >= 7 ==> Score(Wasabi, ctx, cardsLeft) == 65
    ensures cardsLeft >= 7 && Count(ctx.played, Sashimi) % 3 == 0 && Count(ctx.enemyPlayed, Sashimi) < 2
            ==> Score(Sashimi, ctx, cardsLeft) == 60
    ensures cardsLeft >= 7 && Count(ctx.played, Tempura) % 2 == 0 ==> Score(Tempura, ctx, cardsLeft) == 55
    ensures 3 < cardsLeft < 7 ==> Score(Wasabi, ctx, cardsLeft) == 0
  {
  }

  /** Pudding is always worth 30, 50 in round 3; Chopsticks 50 with seven or more cards left,
      else -100. */
  lemma PuddingAndChopsticks(ctx: Context, cardsLeft: nat)
    ensures Score(Pudding, ctx, cardsLeft) == if ctx.round == 3 then 50 else 30
    ensures Score(Chopsticks, ctx, cardsLeft) == if cardsLeft >= 7 then 50 else -100
  {
  }

  /** The fallbacks apply exactly where no tier scored: a plain Squid 25, a Dumpling 15 plus 5
      per owned Dumpling, a plain Salmon 10, a plain Egg 5. */
  lemma Fallbacks(ctx: Context, cardsLeft: nat)
    ensures Score(Dumpling, ctx, cardsLeft) == 15 + 5 * Count(ctx.played, Dumpling)
    ensures !HasEmptyWasabi(ctx.played) && !HasEmptyWasabi(ctx.enemyPlayed)
            ==> Score(SquidNigiri, ctx, cardsLeft) == 25
    ensures !HasEmptyWasabi(ctx.played) ==> Score(SalmonNigiri, ctx, cardsLeft) == 10
    ensures !HasEmptyWasabi(ctx.played) ==> Score(EggNigiri, ctx, cardsLeft) == 5
  {
  }

  /** No card scores -100 or less except a late setup card or late Chopsticks, so the -999
      starting best is beaten by the first card. */
  lemma ScoreAboveSentinel(card: Card, ctx: Context, cardsLeft: nat)
    ensures Score(card, ctx, cardsLeft) >= -100
    ensures Score(card, ctx, cardsLeft) == -100
            ==> card in {Wasabi, Sashimi, Tempura, Chopsticks} && cardsLeft < 7
  {
  }

  /** A card outside the catalog scores 0. */
  lemma UnknownScoresZero(name: string, ctx: Context, cardsLeft: nat)
    ensures Score(Other(name), ctx, cardsLeft) == 0
  {
  }

  /** `decide`: the running-best loop from -999, taking a card only when it beats the best so
      far; the state is only read, and an empty hand gives index 0. */
  method Decide(hand: seq<Card>, st: GameState) returns (index: nat)
    ensures |hand| == 0 ==> index == 0
    ensures |hand| > 0 ==> IsFirstMax(Scores(hand, st.ScoringContext()), index)
  {
    index := Scan(hand, st.ScoringContext());
  }

  /** The scan itself, over the values `decide` reads from the state. */
  method Scan(hand: seq<Card>, ctx: Context) returns (index: nat)
    ensures |hand| == 0 ==> index == 0
    ensures |hand| > 0 ==> IsFirstMax(Scores(hand, ctx), index)
  {
    ghost var scores := Scores(hand, ctx);
    index := 0;
    var highest := -999;
    var i := 0;
    while i < |hand|
      invariant 0 <= i <= |hand| == |scores|
      invariant Scanned(scores, i, index, highest)
    {
      var score := ScoreAt(hand, ctx, i);
      SentinelScanStep(scores, i, index, highest, score);
      if score > highest {
        highest := score;
        index := i;
      }
      i := i + 1;
    }
    if |hand| > 0 {
      assert scores[..|hand|] == scores;
    }
  }

  /** After `i` steps of the scan: nothing seen yet and the -999 sentinel as best, or `index`
      is the first maximum of the scores seen and `highest` its score. */
  predicate Scanned(s: seq<real>, i: nat, index: nat, highest: int)
    requires i <= |s|
  {
    if i == 0 then index == 0 && highest == -999
    else IsFirstMax(s[..i], index) && highest as real == s[index]
  }

  /** The score of the `i`-th card, which is above the -999 sentinel. */
  method ScoreAt(hand: seq<Card>, ctx: Context, i: nat) returns (score: int)
    requires i < |hand|
    ensures score as real == Scores(hand, ctx)[i]
    ensures score > -999
  {
    score := Score(hand[i], ctx, |hand|);
    ScoreAboveSentinel(hand[i], ctx, |hand|);
  }

  /** One step of the scan from the -999 sentinel: since every score is above the sentinel,
      the first card always takes over, and later ones only when they beat the best so far. */
  lemma SentinelScanStep(s: seq<real>, i: nat, index: nat, highest: int, x: int)
    requires i < |s| && s[i] == x as real && x > -999
    requires Scanned(s, i, index, highest)
    ensures if x > highest then Scanned(s, i + 1, i, x) else Scanned(s, i + 1, index, highest)
  {
    assert s[..i + 1] == s[..i] + [x as real];
    if i > 0 {
      FirstMaxExtend(s[..i], index, x as real);
    }
  }
}
