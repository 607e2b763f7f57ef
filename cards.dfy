/** Card identities, the deck catalog and the hand-size table shared by every bot variant. */
module Cards {

  /** A card as the game server names it. A Maki Roll carries its roll count instead of the
      "Maki Roll (n)" text; `Other` stands for any name outside the catalog that is not a
      Maki Roll name. */
  datatype Card =
    | Tempura
    | Sashimi
    | Dumpling
    | Maki(rolls: nat)
    | EggNigiri
    | SalmonNigiri
    | SquidNigiri
    | Pudding
    | Wasabi
    | Chopsticks
    | Other(name: string)

  datatype Option<T> = None | Some(value: T)

  /** The twelve catalog card types, in the order the frequency table lists them. */
  const Catalog: seq<Card> := [Tempura, Sashimi, Dumpling, Maki(1), Maki(2), Maki(3),
                               EggNigiri, SalmonNigiri, SquidNigiri, Pudding, Wasabi, Chopsticks]

  /** The deck size the bots assume. */
  const TotalCards: nat := 108

  /** Copies of each catalog type in a full deck; zero for a card the catalog does not list. */
  function DefaultFrequency(c: Card): (f: nat)
    ensures f <= 14
  {
    match c
    case Tempura => 14
    case Sashimi => 14
    case Dumpling => 14
    case Maki(n) => if n == 1 then 6 else if n == 2 then 12 else if n == 3 then 3 else 0
    case EggNigiri => 5
    case SalmonNigiri => 10
    case SquidNigiri => 5
    case Pudding => 10
    case Wasabi => 6
    case Chopsticks => 4
    case Other(_) => 0
  }

  /** The frequency table lists exactly the catalog types. */
  lemma FrequencyListsCatalog(c: Card)
    ensures DefaultFrequency(c) > 0 <==> c in Catalog
  {
    match c
    case Maki(n) =>
      if DefaultFrequency(c) > 0 {
        assert c == Catalog[n + 2];
      }
    case Other(_) =>
    case _ =>
  }

  /** No catalog type is listed twice. */
  predicate Distinct(s: seq<Card>)
  {
    forall i, j :: 0 <= i < j < |s| ==> s[i] != s[j]
  }

  lemma {:induction false} DistinctOnce(s: seq<Card>, x: Card)
    requires Distinct(s) && x in s
    ensures multiset(s)[x] == 1
  {
    assert s == [s[0]] + s[1..];
    if s[0] == x {
      assert x !in s[1..];
    } else {
      assert Distinct(s[1..]);
      DistinctOnce(s[1..], x);
    }
  }

  lemma CatalogDistinct()
    ensures Distinct(Catalog)
  {
  }

  /** Every catalog type occurs in the catalog once. */
  lemma CatalogOnce(x: Card)
    requires x in Catalog
    ensures multiset(Catalog)[x] == 1
  {
    CatalogDistinct();
    DistinctOnce(Catalog, x);
  }

  /** Sum of `DefaultFrequency` over a list of card types. */
  function SumFrequencies(cs: seq<Card>): nat
  {
    if cs == [] then 0 else DefaultFrequency(cs[0]) + SumFrequencies(cs[1..])
  }

  /** Sum of the counts `m` holds of a list of card types. */
  function SumCounts(m: multiset<Card>, cs: seq<Card>): nat
  {
    if cs == [] then 0 else m[cs[0]] + SumCounts(m, cs[1..])
  }

  /** The catalog lists 103 cards, five fewer than the assumed deck size of 108. */
  lemma CatalogTotal()
    ensures SumFrequencies(Catalog) == 103
    ensures TotalCards - SumFrequencies(Catalog) == 5
  {
  }

  /** Players at the table for a first hand of `n` cards: {10: 2, 9: 3, 8: 4, 7: 5}. */
  function PlayersByHand(n: nat): (r: Option<nat>)
    ensures r.Some? <==> 7 <= n <= 10
    ensures r.Some? ==> 2 <= r.value <= 5 && r.value + n == 12
  {
    if n == 10 then Some(2)
    else if n == 9 then Some(3)
    else if n == 8 then Some(4)
    else if n == 7 then Some(5)
    else None
  }

  /** The table lookup with the fallback of two players for any other hand size. */
  function PlayerCountOrDefault(n: nat): (r: nat)
    ensures 2 <= r <= 5
    ensures 7 <= n <= 10 ==> r + n == 12
    ensures !(7 <= n <= 10) ==> r == 2
  {
    match PlayersByHand(n)
    case Some(p) => p
    case None => 2
  }

  predicate IsNigiri(c: Card)
  {
    c == EggNigiri || c == SalmonNigiri || c == SquidNigiri
  }

  /** Face value of a nigiri: egg 1, salmon 2, squid 3. */
  function NigiriBase(c: Card): (v: nat)
    requires IsNigiri(c)
    ensures 1 <= v <= 3
  {
    if c == EggNigiri then 1 else if c == SalmonNigiri then 2 else 3
  }

  /** Number of nigiri in a pile. */
  function NigiriCount(s: seq<Card>): nat
  {
    multiset(s)[EggNigiri] + multiset(s)[SalmonNigiri] + multiset(s)[SquidNigiri]
  }

  /** All cards of all hands, in order (the `known_cards.extend(h)` loop). */
  function Flatten(hands: seq<seq<Card>>): (r: seq<Card>)
    ensures |hands| == 1 ==> r == hands[0]
  {
    if hands == [] then [] else hands[0] + Flatten(hands[1..])
  }

  lemma {:induction false} FlattenAppend(a: seq<seq<Card>>, b: seq<seq<Card>>)
    ensures Flatten(a + b) == Flatten(a) + Flatten(b)
  {
    if a != [] {
      assert (a + b)[1..] == a[1..] + b;
      FlattenAppend(a[1..], b);
    } else {
      assert a + b == b;
    }
  }

  /** Replacing one hand changes the pooled cards by exactly that hand's cards. */
  lemma FlattenUpdate(hands: seq<seq<Card>>, i: nat, h: seq<Card>)
    requires i < |hands|
    ensures multiset(Flatten(hands[i := h]))
            == multiset(Flatten(hands)) - multiset(hands[i]) + multiset(h)
  {
    var pre, post := hands[..i], hands[i + 1..];
    assert hands == pre + [hands[i]] + post;
    assert hands[i := h] == pre + [h] + post;
    FlattenAppend(pre + [hands[i]], post);
    FlattenAppend(pre, [hands[i]]);
    FlattenAppend(pre + [h], post);
    FlattenAppend(pre, [h]);
  }

  /** `pile.count(c)`: copies of `c` in a pile. */
  function Count(pile: seq<Card>, c: Card): nat
  {
    multiset(pile)[c]
  }

  /** More Wasabi than nigiri in a pile: a Wasabi is still waiting for its nigiri. */
  predicate HasEmptyWasabi(pile: seq<Card>)
  {
    Count(pile, Wasabi) > NigiriCount(pile)
  }

  /** `DUMP_SCORES`: points for 0..5 dumplings, the table capped at five. */
  function DumplingPoints(n: nat): nat
  {
    var m := if n < 5 then n else 5;
    [0, 1, 3, 6, 10, 15][m]
  }

  /** The dumpling table is the triangular numbers, capped at five dumplings. */
  lemma DumplingPointsTriangular(n: nat)
    ensures var m := if n < 5 then n else 5;
      DumplingPoints(n) == m * (m + 1) / 2
  {
  }

  /** Another dumpling is worth one more than the number already owned, and nothing from the
      sixth on. */
  lemma DumplingMarginal(n: nat)
    ensures DumplingPoints(n + 1) - DumplingPoints(n) == if n < 5 then n + 1 else 0
  {
  }

  function MinReal(a: real, b: real): real
  {
    if a <= b then a else b
  }

  function MaxInt(a: int, b: int): int
  {
    if a >= b then a else b
  }

  /** The priority table three bots share (`CARD_PRIORITY`, `BASE_PRIORITY`): the twelve
      catalog types ranked 0..11; 0 for anything else. */
  function BasePriority(card: Card): int
  {
    match card
    case Chopsticks => 0
    case EggNigiri => 1
    case Maki(n) => if n == 1 then 2 else if n == 2 then 3 else if n == 3 then 4 else 0
    case Pudding => 5
    case Tempura => 6
    case Sashimi => 7
    case Dumpling => 8
    case SalmonNigiri => 9
    case SquidNigiri => 10
    case Wasabi => 11
    case Other(_) => 0
  }

  /** The base priorities rank the twelve catalog types without ties, from 0 to 11. */
  lemma BasePriorityRanks(c: Card, d: Card)
    requires c in Catalog && d in Catalog
    ensures 0 <= BasePriority(c) <= 11
    ensures BasePriority(c) == BasePriority(d) ==> c == d
  {
  }

  /** Total of the roll counts of the Maki Rolls in a pile, one term per copy. */
  function MakiTotal(s: seq<Card>): nat
  {
    if s == [] then 0
    else (if s[0].Maki? then s[0].rolls else 0) + MakiTotal(s[1..])
  }

  /** First decimal digit of `n`: the character right after "(" in "Maki Roll (n)". */
  function LeadingDigit(n: nat): (d: nat)
    ensures d <= 9
    ensures n < 10 ==> d == n
    ensures n > 0 ==> d > 0
  {
    if n < 10 then n else LeadingDigit(n / 10)
  }

  /** `dist.get(c, 0)` on a distribution dictionary. */
  function Get(dist: map<Card, real>, c: Card): real
  {
    if c in dist then dist[c] else 0.0
  }

  function Max0(x: int): nat
  {
    if x > 0 then x else 0
  }
}
