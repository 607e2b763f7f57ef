/** The gemini bot: the shared priority table plus set, Wasabi, Maki and Pudding bonuses,
    read from a state dictionary that may lack its keys. */
module Gemini {
  import opened Cards
  import opened Selector

  /** The two keys the bot reads from the state dictionary; either may be absent. */
  datatype GeminiState = GeminiState(playedCards: Option<seq<Card>>, round: Option<int>)

  /** `state.get("played_cards", [])`. */
  function PlayedOf(state: GeminiState): seq<Card>
  {
    match state.playedCards
    case Some(p) => p
    case None => []
  }

  /** `state.get("round", 1)`. */
  function RoundOf(state: GeminiState): int
  {
    match state.round
    case Some(r) => r
    case None => 1
  }

  /** Every bonus of `get_card_priority` except the dumpling term, which every card gets. */
  function OwnPriority(card: Card, played: seq<Card>, round: int): int
  {
    BasePriority(card)
    + (if Count(played, Wasabi) > 0 && IsNigiri(card) then 20 else 0)
    + (if card == Tempura && Count(played, Tempura) % 2 == 1 then 10 else 0)
    + (if card == Sashimi && 0 < Count(played, Sashimi) % 3 < 3 then 10 else 0)
    + (if card.Maki? then LeadingDigit(card.rolls) else 0)
    + (if card == Pudding then round else 0)
  }

  /** `get_card_priority`. */
  function Priority(card: Card, state: GeminiState): int
  {
    var played := PlayedOf(state);
    OwnPriority(card, played, RoundOf(state)) + Count(played, Dumpling) * 2
  }

  /** The priorities of the cards of the hand, in hand order. */
  function Priorities(hand: seq<Card>, state: GeminiState): seq<real>
  {
    seq(|hand|, i requires 0 <= i < |hand| => Priority(hand[i], state) as real)
  }

  /** A missing state key reads as an empty pile and round 1. */
  lemma MissingKeysDefault(card: Card)
    ensures Priority(card, GeminiState(None, None))
            == BasePriority(card) + (if card.Maki? then LeadingDigit(card.rolls) else 0)
               + (if card == Pudding then 1 else 0)
  {
  }

  /** A card outside the catalog scores only the dumpling term. */
  lemma UnknownScoresDumplingTerm(name: string, state: GeminiState)
    ensures Priority(Other(name), state) == 2 * Count(PlayedOf(state), Dumpling)
  {
  }

  /** Any Wasabi in the pile, used or not, adds 20 to every nigiri. */
  lemma NigiriAfterAnyWasabi(card: Card, state: GeminiState)
    requires IsNigiri(card)
    ensures Priority(card, state) - 2 * Count(PlayedOf(state), Dumpling) == BasePriority(card) + 20
            <==> Wasabi in PlayedOf(state)
    ensures Priority(card, state) - 2 * Count(PlayedOf(state), Dumpling) == BasePriority(card)
            <==> Wasabi !in PlayedOf(state)
  {
  }

  /** Tempura gains 10 exactly when the pile holds an odd number of them; Sashimi gains 10
      exactly when the pile's count is not a multiple of three. */
  lemma SetBonuses(state: GeminiState)
    ensures var base := 2 * Count(PlayedOf(state), Dumpling);
      && (Priority(Tempura, state) == 16 + base <==> Count(PlayedOf(state), Tempura) % 2 == 1)
      && (Priority(Tempura, state) == 6 + base <==> Count(PlayedOf(state), Tempura) % 2 == 0)
      && (Priority(Sashimi, state) == 17 + base <==> Count(PlayedOf(state), Sashimi) % 3 != 0)
  {
  }

  /** A Maki Roll adds its roll digit; a Pudding adds the round. */
  lemma MakiAndPudding(n: nat, state: GeminiState)
    ensures Priority(Maki(n), state) - BasePriority(Maki(n)) - 2 * Count(PlayedOf(state), Dumpling)
            == LeadingDigit(n)
    ensures Priority(Pudding, state) == 5 + RoundOf(state) + 2 * Count(PlayedOf(state), Dumpling)
  {
  }

  /** The dumpling term is the same for every card, so the chosen index depends only on the
      other bonuses. */
  lemma {:induction false} DumplingTermNeutral(hand: seq<Card>, state: GeminiState, k: int)
    ensures var own := seq(|hand|, i requires 0 <= i < |hand| => OwnPriority(hand[i], PlayedOf(state), RoundOf(state)) as real);
      IsFirstMax(Priorities(hand, state), k) <==> IsFirstMax(own, k)
  {
    var own := seq(|hand|, i requires 0 <= i < |hand| => OwnPriority(hand[i], PlayedOf(state), RoundOf(state)) as real);
    var d := (Count(PlayedOf(state), Dumpling) * 2) as real;
    FirstMaxShift(own, Priorities(hand, state), d, k);
  }

  /** `decide`: fill the priorities in hand order, then take the first index of the highest.
      The state is only read; an empty hand has no such index. */
  method Decide(hand: seq<Card>, state: GeminiState) returns (index: nat)
    requires |hand| > 0
    ensures IsFirstMax(Priorities(hand, state), index)
  {
    var priorities: seq<real> := [];
    var i := 0;
    while i < |hand|
      invariant 0 <= i <= |hand|
      invariant |priorities| == i
      invariant forall j :: 0 <= j < i ==> priorities[j] == Priority(hand[j], state) as real
    {
      priorities := priorities + [Priority(hand[i], state) as real];
      i := i + 1;
    }
    assert priorities == Priorities(hand, state);
    index := FirstMax(priorities);
  }
}
