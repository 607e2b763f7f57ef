/** The arithmetic of one proportional estimate, on plain numbers. */
module Proportion {

  /** The two branches of the estimate: the exact known count when nothing is unseen or the deck
      is exhausted, else the known count plus the type's proportional share of the unseen hands
      (`proportion * unseen_hands * unseen_hand_size`). */
  function EstimateFrom(known: nat, remaining: nat, deckLeft: nat, unseen: int, handSize: nat): real
  {
    if unseen == 0 || deckLeft == 0 then
      known as real
    else
      known as real + (remaining as real / deckLeft as real) * unseen as real * handSize as real
  }

  lemma EstimateFromAtLeastKnown(known: nat, remaining: nat, deckLeft: nat, unseen: int, handSize: nat)
    requires unseen >= 0
    ensures EstimateFrom(known, remaining, deckLeft, unseen, handSize) >= known as real
  {
    if unseen != 0 && deckLeft != 0 {
      NonNegativeProduct(remaining as real / deckLeft as real, unseen as real, handSize as real);
    }
  }

  /** An estimate exceeds the known count by at most the size of all unseen hands when the type
      has fewer cards left than the deck. */
  lemma EstimateFromBounded(known: nat, remaining: nat, deckLeft: nat, unseen: int, handSize: nat)
    requires remaining < deckLeft && unseen >= 0
    ensures EstimateFrom(known, remaining, deckLeft, unseen, handSize) <= known as real + unseen as real * handSize as real
  {
    NonNegativeProduct(1.0, unseen as real, handSize as real);
    if unseen != 0 {
      var proportion := remaining as real / deckLeft as real;
      assert proportion <= 1.0;
      BoundedProduct(proportion, unseen as real, handSize as real);
    }
  }

  lemma NonNegativeProduct(p: real, u: real, s: real)
    requires p >= 0.0 && u >= 0.0 && s >= 0.0
    ensures p * u * s >= 0.0
  {
    assert p * u >= 0.0;
  }

  lemma BoundedProduct(p: real, u: real, s: real)
    requires 0.0 <= p <= 1.0 && u >= 0.0 && s >= 0.0
    ensures p * u * s <= u * s
  {
    assert u * s >= 0.0;
    assert p * u * s == p * (u * s);
    assert p * (u * s) <= 1.0 * (u * s);
  }
}

/** The proportional distribution estimator: how many cards of each catalog type are live
    across all hands of the round, counting known hands exactly and sharing the rest of the
    deck over the hands not yet seen. */
module Estimator {
  import opened Cards
  import opened Game
  import opened Proportion

  /** Cards of known hands plus cards opponents are known to have played. */
  function Accounted(hands: seq<seq<Card>>, enemy: seq<Card>): multiset<Card>
  {
    multiset(Flatten(hands)) + multiset(enemy)
  }

  /** `remaining_in_deck`: the deck size less every accounted card, clamped at zero. */
  function DeckLeft(hands: seq<seq<Card>>, enemy: seq<Card>): nat
  {
    Max0(TotalCards - |Accounted(hands, enemy)|)
  }

  /** `remaining_of_type`: copies of `c` neither in a known hand nor played, clamped at zero. */
  function Remaining(c: Card, hands: seq<seq<Card>>, enemy: seq<Card>): nat
  {
    Max0(DefaultFrequency(c) - Accounted(hands, enemy)[c])
  }

  /** The estimate for one catalog type. `handSize` is the first hand's size, the size assumed
      for every unseen hand. */
  function Estimate(c: Card, hands: seq<seq<Card>>, enemy: seq<Card>, playerCount: int, handSize: nat): real
  {
    EstimateFrom(multiset(Flatten(hands))[c], Remaining(c, hands, enemy), DeckLeft(hands, enemy),
                 playerCount - |hands|, handSize)
  }

  /** `card_distribution`: one estimate per catalog type and no other key. */
  function Distribution(hands: seq<seq<Card>>, enemy: seq<Card>, playerCount: int, handSize: nat): (d: map<Card, real>)
    ensures forall c :: c in d <==> c in Catalog
    ensures forall c :: c in d ==> d[c] == Estimate(c, hands, enemy, playerCount, handSize)
  {
    map c | c in Catalog :: Estimate(c, hands, enemy, playerCount, handSize)
  }

  /** With no hand left unseen, or nothing left in the deck, every estimate is the exact count
      in the known hands. */
  lemma DistributionFallback(hands: seq<seq<Card>>, enemy: seq<Card>, playerCount: int, handSize: nat, c: Card)
    requires playerCount == |hands| || DeckLeft(hands, enemy) == 0
    requires c in Catalog
    ensures Distribution(hands, enemy, playerCount, handSize)[c] == multiset(Flatten(hands))[c] as real
  {
  }

  /** While some hands are unseen (and no more hands are recorded than players), every estimate
      is at least the known count: the unseen share is never negative. */
  lemma DistributionAtLeastKnown(hands: seq<seq<Card>>, enemy: seq<Card>, playerCount: int, handSize: nat, c: Card)
    requires |hands| <= playerCount
    requires c in Catalog
    ensures Distribution(hands, enemy, playerCount, handSize)[c] >= multiset(Flatten(hands))[c] as real
  {
    EstimateAtLeastKnown(c, hands, enemy, playerCount, handSize);
  }

  lemma {:induction false} EstimateAtLeastKnown(c: Card, hands: seq<seq<Card>>, enemy: seq<Card>, playerCount: int, handSize: nat)
    requires |hands| <= playerCount
    ensures Estimate(c, hands, enemy, playerCount, handSize) >= multiset(Flatten(hands))[c] as real
  {
    EstimateFromAtLeastKnown(multiset(Flatten(hands))[c], Remaining(c, hands, enemy), DeckLeft(hands, enemy),
                             playerCount - |hands|, handSize);
  }

  /** Adding one card to a multiset adds its number of catalog entries to `SumCounts`. */
  lemma {:induction false} SumCountsAdd(m: multiset<Card>, x: Card, cs: seq<Card>)
    ensures SumCounts(m + multiset{x}, cs) == SumCounts(m, cs) + multiset(cs)[x]
  {
    if cs != [] {
      SumCountsAdd(m, x, cs[1..]);
      assert cs == [cs[0]] + cs[1..];
    }
  }

  lemma {:induction false} SumCountsEmpty(cs: seq<Card>)
    ensures SumCounts(multiset{}, cs) == 0
  {
    if cs != [] {
      SumCountsEmpty(cs[1..]);
    }
  }

  /** A multiset of catalog cards has as many cards as its catalog counts add up to. */
  lemma {:induction false} CatalogCardinality(m: multiset<Card>)
    requires forall x :: x in m ==> x in Catalog
    ensures |m| == SumCounts(m, Catalog)
    decreases |m|
  {
    if m == multiset{} {
      SumCountsEmpty(Catalog);
    } else {
      var x :| x in m;
      var rest := m - multiset{x};
      assert m == rest + multiset{x};
      CatalogCardinality(rest);
      SumCountsAdd(rest, x, Catalog);
      CatalogOnce(x);
    }
  }

  /** When no type is over its default frequency, the counts fall short of the frequency total
      by at least the shortfall of any one type. */
  lemma {:induction false} SumCountsShortfall(m: multiset<Card>, cs: seq<Card>, t: Card)
    requires forall x :: m[x] <= DefaultFrequency(x)
    requires t in cs
    ensures SumCounts(m, cs) + (DefaultFrequency(t) - m[t]) <= SumFrequencies(cs)
  {
    if cs[0] == t {
      SumCountsAtMostFrequencies(m, cs[1..]);
    } else {
      SumCountsShortfall(m, cs[1..], t);
    }
  }

  lemma {:induction false} SumCountsAtMostFrequencies(m: multiset<Card>, cs: seq<Card>)
    requires forall x :: m[x] <= DefaultFrequency(x)
    ensures SumCounts(m, cs) <= SumFrequencies(cs)
  {
    if cs != [] {
      SumCountsAtMostFrequencies(m, cs[1..]);
    }
  }

  /** When no accounted type exceeds its default frequency, the deck still holds at least
      five cards (108 less the catalog's 103) plus what any one type has left. */
  lemma DeckLeftCoversRemaining(hands: seq<seq<Card>>, enemy: seq<Card>, c: Card)
    requires forall x :: Accounted(hands, enemy)[x] <= DefaultFrequency(x)
    requires c in Catalog
    ensures DeckLeft(hands, enemy) >= 5 + Remaining(c, hands, enemy)
  {
    var acc := Accounted(hands, enemy);
    forall x | x in acc ensures x in Catalog {
      FrequencyListsCatalog(x);
    }
    CatalogCardinality(acc);
    SumCountsShortfall(acc, Catalog, c);
    CatalogTotal();
  }

  /** When no accounted type exceeds its default frequency, at least five cards remain in the
      deck, and no estimate exceeds the known count plus the size of all unseen hands together. */
  lemma DistributionBounded(hands: seq<seq<Card>>, enemy: seq<Card>, playerCount: int, handSize: nat, c: Card)
    requires forall x :: Accounted(hands, enemy)[x] <= DefaultFrequency(x)
    requires |hands| <= playerCount
    requires c in Catalog
    ensures DeckLeft(hands, enemy) >= 5
    ensures Distribution(hands, enemy, playerCount, handSize)[c]
            <= multiset(Flatten(hands))[c] as real + (playerCount - |hands|) as real * handSize as real
  {
    DeckLeftCoversRemaining(hands, enemy, c);
    EstimateBounded(c, hands, enemy, playerCount, handSize);
  }

  lemma {:induction false} EstimateBounded(c: Card, hands: seq<seq<Card>>, enemy: seq<Card>, playerCount: int, handSize: nat)
    requires DeckLeft(hands, enemy) > Remaining(c, hands, enemy)
    requires |hands| <= playerCount
    ensures Estimate(c, hands, enemy, playerCount, handSize)
            <= multiset(Flatten(hands))[c] as real + (playerCount - |hands|) as real * handSize as real
  {
    EstimateFromBounded(multiset(Flatten(hands))[c], Remaining(c, hands, enemy), DeckLeft(hands, enemy),
                        playerCount - |hands|, handSize);
  }

  /** `_recompute_distribution`: fill the distribution one catalog type at a time. */
  method RecomputeDistribution(st: GameState)
    modifies st`cardDistribution
    ensures st.cardDistribution == Distribution(st.hands, st.enemyCardsPlayed, st.playerCount, st.startCardNum)
  {
    var dist: map<Card, real> := map[];
    var i := 0;
    while i < |Catalog|
      invariant 0 <= i <= |Catalog|
      invariant dist == map c | c in Catalog[..i] :: Estimate(c, st.hands, st.enemyCardsPlayed, st.playerCount, st.startCardNum)
    {
      var card := Catalog[i];
      dist := dist[card := Estimate(card, st.hands, st.enemyCardsPlayed, st.playerCount, st.startCardNum)];
      assert Catalog[..i + 1] == Catalog[..i] + [card];
      i := i + 1;
    }
    assert Catalog[..|Catalog|] == Catalog;
    st.cardDistribution := dist;
  }
}
