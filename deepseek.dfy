/** The deepseek bot: a base score per card type plus set-completion, Wasabi, Maki, Pudding,
    Chopsticks and last-copy adjustments, judged on the hand and the own played pile only. */
module Deepseek {
  import opened Cards
  import opened Game
  import opened Selector

  /** `BASE_SCORES`: average points per card type, 0 for anything unlisted. */
  function BaseScore(card: Card): real
  {
    match card
    case EggNigiri => 1.0
    case SalmonNigiri => 2.0
    case SquidNigiri => 3.0
    case Tempura => 2.5
    case Sashimi => 3.33
    case Dumpling => 0.0
    case Maki(n) => if n == 1 then 1.5 else if n == 2 then 2.5 else if n == 3 then 3.5 else 0.0
    case Wasabi => 2.0
    case Pudding => 0.0
    case Chopsticks => 4.0
    case Other(_) => 0.0
  }

  /** Roll digits of the distinct Maki Roll names among the first `k` cards of a pile: a name
      counts once however many copies the pile holds, as when summing over a Counter's keys. */
  function DistinctMakiPrefix(pile: seq<Card>, k: nat): nat
    requires k <= |pile|
  {
    if k == 0 then 0
    else
      var c := pile[k - 1];
      DistinctMakiPrefix(pile, k - 1)
      + (if c.Maki? && c !in pile[..k - 1] then LeadingDigit(c.rolls) else 0)
  }

  /** `current_maki`: the roll digits of the distinct Maki Roll names in the own pile. */
  function DistinctMaki(pile: seq<Card>): nat
  {
    DistinctMakiPrefix(pile, |pile|)
  }

  /** The adjustments of `score_card`, in its order, for a card of kind `card`. */
  function Adjustment(card: Card, hand: seq<Card>, ctx: Context): real
  {
    match card
    case EggNigiri => if ctx.hasUnusedWasabi then 2.0 else 0.0
    case SalmonNigiri => if ctx.hasUnusedWasabi then 4.0 else 0.0
    case SquidNigiri => if ctx.hasUnusedWasabi then 6.0 else 0.0
    case Wasabi =>
      if ctx.hasUnusedWasabi then -2.0
      else if NigiriCount(hand) > 0 then 5.0
      else 3.0
    case Tempura => if Count(ctx.played, Tempura) % 2 == 1 then 2.5 else -0.5
    case Sashimi =>
      var m := Count(ctx.played, Sashimi) % 3;
      if m == 2 then 6.67 else if m == 1 then 3.33 else 0.0
    case Dumpling =>
      var current := Count(ctx.played, Dumpling);
      if current < 5 then (current + 1) as real else -5.0
    case Maki(n) =>
      var rolls := LeadingDigit(n);
      if DistinctMaki(ctx.played) + rolls > 5 then rolls as real * 1.5 else rolls as real * 0.5
    case Pudding =>
      (if ctx.round == 1 then 5.0 else if ctx.round == 2 then 10.0 else 20.0)
      + (if ctx.puddings == 0 then 10.0 else if ctx.puddings == 1 then 5.0 else -5.0)
    case Chopsticks =>
      if ctx.round == 1 && ctx.turn < 5 then 8.0
      else if ctx.round == 2 && ctx.turn < 5 then 5.0
      else 2.0
    case Other(_) => 0.0
  }

  /** `score_card`: base, adjustments, and +0.5 for a card that is the only copy in the hand. */
  function Score(card: Card, hand: seq<Card>, ctx: Context): real
  {
    BaseScore(card) + Adjustment(card, hand, ctx) + (if Count(hand, card) == 1 then 0.5 else 0.0)
  }

  /** The scores of the cards of the hand, in hand order. */
  function Scores(hand: seq<Card>, ctx: Context): seq<real>
  {
    seq(|hand|, i requires 0 <= i < |hand| => Score(hand[i], hand, ctx))
  }

  /** A card outside the catalog scores only the last-copy bonus. */
  lemma UnknownScore(name: string, hand: seq<Card>, ctx: Context)
    ensures Score(Other(name), hand, ctx) == if Count(hand, Other(name)) == 1 then 0.5 else 0.0
  {
  }

  /** Every card that is the only copy in the hand scores 0.5 more than a duplicated one would
      in the same situation. */
  lemma LastCopyBonus(card: Card, hand: seq<Card>, ctx: Context)
    ensures Count(hand, card) == 1 ==> Score(card, hand, ctx) == BaseScore(card) + Adjustment(card, hand, ctx) + 0.5
    ensures Count(hand, card) != 1 ==> Score(card, hand, ctx) == BaseScore(card) + Adjustment(card, hand, ctx)
  {
  }

  /** On an unused Wasabi a nigiri is worth three times its face value; without one, its face
      value. */
  lemma NigiriOnWasabi(card: Card, hand: seq<Card>, ctx: Context)
    requires IsNigiri(card)
    ensures BaseScore(card) + Adjustment(card, hand, ctx)
            == (if ctx.hasUnusedWasabi then 3 * NigiriBase(card) else NigiriBase(card)) as real
  {
  }

  /** Wasabi: +5 with a nigiri in the hand, +3 without, -2 when one is already unused. */
  lemma WasabiAdjustment(hand: seq<Card>, ctx: Context)
    ensures ctx.hasUnusedWasabi <==> Adjustment(Wasabi, hand, ctx) < 0.0
    ensures !ctx.hasUnusedWasabi ==> (Adjustment(Wasabi, hand, ctx) == 5.0 <==> NigiriCount(hand) > 0)
    ensures ctx.hasUnusedWasabi ==> Adjustment(Wasabi, hand, ctx) == -2.0
    ensures !ctx.hasUnusedWasabi && NigiriCount(hand) == 0 ==> Adjustment(Wasabi, hand, ctx) == 3.0
  {
  }

  /** Tempura: +2.5 to complete a pair, -0.5 to start one. Sashimi: +6.67 to complete a
      triple, +3.33 for a second, nothing for a first. */
  lemma SetAdjustments(hand: seq<Card>, ctx: Context)
    ensures Adjustment(Tempura, hand, ctx) == 2.5 <==> Count(ctx.played, Tempura) % 2 == 1
    ensures Adjustment(Tempura, hand, ctx) == -0.5 <==> Count(ctx.played, Tempura) % 2 == 0
    ensures Adjustment(Sashimi, hand, ctx) == 6.67 <==> Count(ctx.played, Sashimi) % 3 == 2
    ensures Adjustment(Sashimi, hand, ctx) == 3.33 <==> Count(ctx.played, Sashimi) % 3 == 1
    ensures Adjustment(Sashimi, hand, ctx) == 0.0 <==> Count(ctx.played, Sashimi) % 3 == 0
  {
  }

  /** Dumpling: the points the next dumpling adds on the dumpling table, and -5 from the sixth
      on. */
  lemma DumplingAdjustment(hand: seq<Card>, ctx: Context)
    ensures var current := Count(ctx.played, Dumpling);
      Adjustment(Dumpling, hand, ctx)
      == if current < 5 then (DumplingPoints(current + 1) - DumplingPoints(current)) as real else -5.0
  {
    DumplingMarginal(Count(ctx.played, Dumpling));
  }

  /** Pudding: +5/+10/+20 by round (any round past 2 counts as the last), then +10/+5/-5 for
      owning none, one, or more. */
  lemma PuddingAdjustment(hand: seq<Card>, ctx: Context)
    ensures var owned := if ctx.puddings == 0 then 10.0 else if ctx.puddings == 1 then 5.0 else -5.0;
      && (ctx.round == 1 ==> Adjustment(Pudding, hand, ctx) == 5.0 + owned)
      && (ctx.round == 2 ==> Adjustment(Pudding, hand, ctx) == 10.0 + owned)
      && (ctx.round !in {1, 2} ==> Adjustment(Pudding, hand, ctx) == 20.0 + owned)
    ensures ctx.round == 1 && ctx.puddings == 0 ==> Adjustment(Pudding, hand, ctx) == 15.0
    ensures ctx.round !in {1, 2} ==> Adjustment(Pudding, hand, ctx) >= 15.0
    ensures 0.0 <= Adjustment(Pudding, hand, ctx) <= 30.0
  {
  }

  /** Chopsticks: +8 early in round 1, +5 early in round 2 (before turn 5), +2 otherwise. */
  lemma ChopsticksAdjustment(hand: seq<Card>, ctx: Context)
    ensures Adjustment(Chopsticks, hand, ctx) == 8.0 <==> ctx.round == 1 && ctx.turn < 5
    ensures Adjustment(Chopsticks, hand, ctx) == 5.0 <==> ctx.round == 2 && ctx.turn < 5
    ensures Adjustment(Chopsticks, hand, ctx) == 2.0 <==> !(ctx.round in {1, 2} && ctx.turn < 5)
  {
  }

  /** The Maki bonus weighs the card's own roll digit by 1.5 once the distinct-name total
      passes 5, else by 0.5. */
  lemma MakiAdjustment(n: nat, hand: seq<Card>, ctx: Context)
    ensures var rolls := LeadingDigit(n);
      && (DistinctMaki(ctx.played) + rolls > 5 ==> Adjustment(Maki(n), hand, ctx) == rolls as real * 1.5)
      && (DistinctMaki(ctx.played) + rolls <= 5 ==> Adjustment(Maki(n), hand, ctx) == rolls as real * 0.5)
      && 0.0 <= Adjustment(Maki(n), hand, ctx) <= 13.5
  {
  }

  /** Each distinct Maki Roll name counts once: the distinct total never exceeds the digits of
      every copy. */
  lemma {:induction false} DistinctMakiAtMostAll(pile: seq<Card>, k: nat)
    requires k <= |pile|
    ensures DistinctMakiPrefix(pile, k) <= MakiDigits(pile[..k])
  {
    if k > 0 {
      DistinctMakiAtMostAll(pile, k - 1);
      assert pile[..k] == pile[..k - 1] + [pile[k - 1]];
      MakiDigitsAppend(pile[..k - 1], pile[k - 1]);
    }
  }

  /** Roll digits of every Maki Roll copy in a pile. */
  function MakiDigits(pile: seq<Card>): nat
  {
    if pile == [] then 0
    else MakiDigits(pile[..|pile| - 1]) + (if pile[|pile| - 1].Maki? then LeadingDigit(pile[|pile| - 1].rolls) else 0)
  }

  lemma MakiDigitsAppend(pile: seq<Card>, c: Card)
    ensures MakiDigits(pile + [c]) == MakiDigits(pile) + (if c.Maki? then LeadingDigit(c.rolls) else 0)
  {
    assert (pile + [c])[..|pile + [c]| - 1] == pile;
  }

  /** Two copies of Maki Roll (2) in the pile count as 2 rolls, not 4. */
  lemma DistinctMakiCountsNamesOnce()
    ensures DistinctMaki([Maki(2), Maki(2)]) == 2
    ensures MakiDigits([Maki(2), Maki(2)]) == 4
  {
    var p := [Maki(2), Maki(2)];
    assert p[..1] == [Maki(2)];
    assert p[..0] == [];
    assert DistinctMakiPrefix(p, 1) == 2;
  }

  /** `decide`: score every card, then take the first index of the highest score. The state is
      only read. An empty hand has no such index. */
  method Decide(hand: seq<Card>, st: GameState) returns (index: nat)
    requires |hand| > 0
    ensures IsFirstMax(Scores(hand, st.ScoringContext()), index)
  {
    var ctx := st.ScoringContext();
    var scores: seq<real> := [];
    var i := 0;
    while i < |hand|
      invariant 0 <= i <= |hand|
      invariant |scores| == i
      invariant forall j :: 0 <= j < i ==> scores[j] == Score(hand[j], hand, ctx)
    {
      scores := scores + [Score(hand[i], hand, ctx)];
      i := i + 1;
    }
    assert scores == Scores(hand, ctx);
    index := FirstMax(scores);
  }
}
