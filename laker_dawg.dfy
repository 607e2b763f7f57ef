/** The LakerDawg bot: the gemini priorities with set bonuses read from a distribution that is
    simply the card counts of every hand seen, kept by a ledger prologue that diffs the hand
    at the cursor and never moves the cursor. */
module LakerDawg {
  import opened Cards
  import opened HandDiff
  import opened Game
  import opened Selector
  import opened Prologue

  /** When the prologue can run: the first call needs a hand size the player table lists
      (any other raises KeyError) and the cursor at 0; a later call needs the cursor on a
      recorded hand (the new-hand branch appends the hand and then raises, because it
      decrements `total_cards` without declaring it global). The cursor is never moved, so
      from a cursor of 0 the new-hand branch is never taken. */
  predicate Ready(v: LedgerView, hand: seq<Card>)
  {
    if v.started then v.handNum < |v.hands| else 7 <= |hand| <= 10 && v.handNum == 0
  }

  /** The ledger prologue of `decide`: initialise on the first call, then diff the hand at the
      cursor against the new one, append what vanished to the opponents' pile and replace it. */
  function Observe(v: LedgerView, hand: seq<Card>): LedgerView
    requires Ready(v, hand)
  {
    var w := if v.started then v
             else v.(started := true, hands := [hand], playerCount := PlayersByHand(|hand|).value);
    w.(enemyCardsPlayed := w.enemyCardsPlayed + Missing(w.hands[w.handNum], hand),
       hands := w.hands[w.handNum := hand])
  }

  /** `dict(Counter(cards))`: a key for each card present, mapped to its count. */
  function CountsOf(cards: seq<Card>): map<Card, real>
  {
    map c | c in cards :: multiset(cards)[c] as real
  }

  /** The distribution after the prologue: the counts of every known hand. */
  function KnownCounts(hands: seq<seq<Card>>): map<Card, real>
  {
    CountsOf(Flatten(hands))
  }

  /** The keys `get_card_priority` looks up for the cards of the hand. */
  predicate KeysPresent(hand: seq<Card>, dist: map<Card, real>)
  {
    (Tempura in hand ==> Tempura in dist) && (Sashimi in hand ==> Sashimi in dist)
  }

  /** `get_card_priority`; `int(...)` of a count is its floor. */
  function Priority(card: Card, played: seq<Card>, dist: map<Card, real>, round: int): int
    requires (card == Tempura ==> Tempura in dist) && (card == Sashimi ==> Sashimi in dist)
  {
    BasePriority(card)
    + (if Count(played, Wasabi) > 0 && IsNigiri(card) then 20 else 0)
    + (if card == Tempura && dist[Tempura].Floor % 2 == 0 then 10 else 0)
    + (if card == Sashimi && 0 < dist[Sashimi].Floor % 3 && Count(played, Sashimi) % 3 == 1 then 2 else 0)
    + (if card == Sashimi && 0 < dist[Sashimi].Floor % 3 && Count(played, Sashimi) % 3 == 2 then 20 else 0)
    + Count(played, Dumpling) * 2
    + (if card.Maki? then LeadingDigit(card.rolls) else 0)
    + (if card == Pudding then round else 0)
  }

  /** The priorities of the cards of the hand, in hand order. */
  function Priorities(hand: seq<Card>, played: seq<Card>, dist: map<Card, real>, round: int): seq<real>
    requires KeysPresent(hand, dist)
  {
    seq(|hand|, i requires 0 <= i < |hand| => Priority(hand[i], played, dist, round) as real)
  }

  /** The first call sizes the table from the hand (players plus hand size make 12), records
      the hand as the only one, and reports nothing played: the hand is diffed against itself. */
  lemma FirstCall(v: LedgerView, hand: seq<Card>)
    requires !v.started && Ready(v, hand)
    ensures var w := Observe(v, hand);
      && w.started && w.hands == [hand] && w.handNum == 0
      && w.playerCount + |hand| == 12
      && w.enemyCardsPlayed == v.enemyCardsPlayed
  {
    MissingIsMultisetDifference(hand, hand);
    assert multiset(Missing(hand, hand)) == multiset{};
  }

  /** A later call appends exactly the vanished cards to the opponents' pile, replaces only the
      hand at the cursor, and moves neither the cursor nor the table size. */
  lemma KnownSlot(v: LedgerView, hand: seq<Card>)
    requires v.started && Ready(v, hand)
    ensures var w := Observe(v, hand);
      && w.enemyCardsPlayed == v.enemyCardsPlayed + Missing(v.hands[v.handNum], hand)
      && multiset(w.enemyCardsPlayed)
         == multiset(v.enemyCardsPlayed) + (multiset(v.hands[v.handNum]) - multiset(hand))
      && |w.hands| == |v.hands| && w.hands[v.handNum] == hand
      && (forall i :: 0 <= i < |v.hands| && i != v.handNum ==> w.hands[i] == v.hands[i])
      && w.handNum == v.handNum && w.playerCount == v.playerCount
  {
    MissingIsMultisetDifference(v.hands[v.handNum], hand);
  }

  /** The distribution holds exactly the cards of the known hands, each at its count, so its
      floors are those counts. */
  lemma KnownCountsExact(hands: seq<seq<Card>>, c: Card)
    ensures c in KnownCounts(hands) <==> c in Flatten(hands)
    ensures c in KnownCounts(hands) ==> KnownCounts(hands)[c].Floor == multiset(Flatten(hands))[c]
  {
  }

  /** Every card of a recorded hand is among the known cards. */
  lemma InFlatten(hands: seq<seq<Card>>, i: nat, c: Card)
    requires i < |hands| && c in hands[i]
    ensures c in Flatten(hands)
  {
    FlattenUpdate(hands, i, hands[i]);
    assert hands[i := hands[i]] == hands;
    assert multiset(hands[i]) <= multiset(Flatten(hands));
    assert c in multiset(hands[i]);
  }

  /** After the prologue the priority lookups never miss: the hand itself is a known hand. */
  lemma LookupsSucceed(v: LedgerView, hand: seq<Card>)
    requires Ready(v, hand)
    ensures var w := Observe(v, hand);
      w.handNum < |w.hands| && KeysPresent(hand, KnownCounts(w.hands))
  {
    var w := Observe(v, hand);
    assert w.hands[w.handNum] == hand;
    if Tempura in hand {
      InFlatten(w.hands, w.handNum, Tempura);
    }
    if Sashimi in hand {
      InFlatten(w.hands, w.handNum, Sashimi);
    }
  }

  /** Tempura gains 10 exactly when the known hands hold an even number of Tempura, the
      played pile not counting. */
  lemma TempuraParity(hands: seq<seq<Card>>, played: seq<Card>, round: int)
    requires Tempura in Flatten(hands)
    ensures Priority(Tempura, played, KnownCounts(hands), round) - 2 * Count(played, Dumpling) == 16
            <==> multiset(Flatten(hands))[Tempura] % 2 == 0
  {
    KnownCountsExact(hands, Tempura);
  }

  /** Sashimi gains 2 or 20 for one or two owned (mod 3), and only when the known hands' count
      is not a multiple of three. */
  lemma SashimiBonus(hands: seq<seq<Card>>, played: seq<Card>, round: int)
    requires Sashimi in Flatten(hands)
    ensures var bonus := Priority(Sashimi, played, KnownCounts(hands), round) - 7 - 2 * Count(played, Dumpling);
      && (bonus != 0 <==> multiset(Flatten(hands))[Sashimi] % 3 != 0 && Count(played, Sashimi) % 3 != 0)
      && (bonus == 20 <==> multiset(Flatten(hands))[Sashimi] % 3 != 0 && Count(played, Sashimi) % 3 == 2)
      && (bonus == 2 <==> multiset(Flatten(hands))[Sashimi] % 3 != 0 && Count(played, Sashimi) % 3 == 1)
  {
    KnownCountsExact(hands, Sashimi);
  }

  /** Any Wasabi in the pile adds 20 to a nigiri; a Maki Roll adds its roll digit; a Pudding
      adds the round. */
  lemma OtherBonuses(card: Card, played: seq<Card>, dist: map<Card, real>, round: int)
    requires card != Tempura && card != Sashimi
    ensures var p := Priority(card, played, dist, round) - BasePriority(card) - 2 * Count(played, Dumpling);
      && (IsNigiri(card) ==> (p == 20 <==> Wasabi in played))
      && (card.Maki? ==> p == LeadingDigit(card.rolls))
      && (card == Pudding ==> p == round)
      && (card.Other? ==> p == 0)
  {
  }

  /** The dumpling term is the same for every card, so it never changes the chosen index. */
  lemma {:induction false} DumplingTermNeutral(hand: seq<Card>, played: seq<Card>, dist: map<Card, real>, round: int, k: int)
    requires KeysPresent(hand, dist)
    ensures var own := seq(|hand|, i requires 0 <= i < |hand| =>
                             (Priority(hand[i], played, dist, round) - Count(played, Dumpling) * 2) as real);
      IsFirstMax(Priorities(hand, played, dist, round), k) <==> IsFirstMax(own, k)
  {
    var own := seq(|hand|, i requires 0 <= i < |hand| =>
                     (Priority(hand[i], played, dist, round) - Count(played, Dumpling) * 2) as real);
    FirstMaxShift(own, Priorities(hand, played, dist, round), (Count(played, Dumpling) * 2) as real, k);
  }

  /** The ledger prologue of `decide` on the mutable state, then the distribution rebuilt
      from the known hands. */
  method RunPrologue(hand: seq<Card>, st: GameState)
    requires Ready(st.View(), hand)
    modifies st`started, st`hands, st`playerCount, st`enemyCardsPlayed, st`cardDistribution
    ensures st.View() == Observe(old(st.View()), hand)
    ensures st.cardDistribution == KnownCounts(st.hands)
  {
    Prologue.Initialise(hand, st);
    DiffAndReplace(hand, st);
    var known := KnownCards(st.hands);
    st.cardDistribution := CountsOf(known);
  }

  /** The `known_cards` loop: all cards of all hands, in order. */
  method KnownCards(hands: seq<seq<Card>>) returns (known: seq<Card>)
    ensures known == Flatten(hands)
  {
    known := [];
    var h := 0;
    while h < |hands|
      invariant 0 <= h <= |hands|
      invariant known == Flatten(hands[..h])
    {
      FlattenAppend(hands[..h], [hands[h]]);
      assert hands[..h + 1] == hands[..h] + [hands[h]];
      known := known + hands[h];
      h := h + 1;
    }
    assert hands[..|hands|] == hands;
  }

  /** Fill the priorities in hand order and take the first index of the highest. */
  method Choose(hand: seq<Card>, played: seq<Card>, dist: map<Card, real>, round: int) returns (index: nat)
    requires KeysPresent(hand, dist) && |hand| > 0
    ensures IsFirstMax(Priorities(hand, played, dist, round), index)
  {
    var priorities: seq<real> := [];
    var i := 0;
    while i < |hand|
      invariant 0 <= i <= |hand|
      invariant |priorities| == i
      invariant forall k :: 0 <= k < i ==> priorities[k] == Priority(hand[k], played, dist, round) as real
    {
      priorities := priorities + [Priority(hand[i], played, dist, round) as real];
      i := i + 1;
    }
    assert priorities == Priorities(hand, played, dist, round);
    index := FirstMax(priorities);
  }

  /** `decide`: the ledger prologue, then the first card of highest priority. The cursor is
      never moved. */
  method Decide(hand: seq<Card>, st: GameState) returns (index: nat)
    requires Ready(st.View(), hand) && |hand| > 0
    modifies st`started, st`hands, st`playerCount, st`enemyCardsPlayed, st`cardDistribution
    ensures st.View() == Observe(old(st.View()), hand)
    ensures st.handNum == old(st.handNum)
    ensures st.cardDistribution == KnownCounts(st.hands)
    ensures KeysPresent(hand, st.cardDistribution)
    ensures IsFirstMax(Priorities(hand, st.playedCards, st.cardDistribution, st.round), index)
  {
    LookupsSucceed(st.View(), hand);
    RunPrologue(hand, st);
    index := Choose(hand, st.playedCards, st.cardDistribution, st.round);
  }
}
