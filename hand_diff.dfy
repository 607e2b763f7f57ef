/** The hand-diff tracker: which cards vanished from a hand between two sightings of it. */
module HandDiff {
  import opened Cards

  /** How many copies of `c` the previous hand has beyond the current one, never negative. */
  function Excess(previous: seq<Card>, current: seq<Card>, c: Card): nat
  {
    Max0(multiset(previous)[c] as int - multiset(current)[c] as int)
  }

  /** `n` copies of `c`. */
  function Repeat(c: Card, n: nat): (r: seq<Card>)
    ensures |r| == n
  {
    if n == 0 then [] else [c] + Repeat(c, n - 1)
  }

  /** Copies of `c` in `s`, counted position by position. */
  function Occ(s: seq<Card>, c: Card): nat
  {
    if s == [] then 0 else (if s[0] == c then 1 else 0) + Occ(s[1..], c)
  }

  lemma {:induction false} OccIsMultiset(s: seq<Card>, c: Card)
    ensures Occ(s, c) == multiset(s)[c]
  {
    if s != [] {
      OccIsMultiset(s[1..], c);
      assert s == [s[0]] + s[1..];
    }
  }

  lemma {:induction false} OccAppend(a: seq<Card>, b: seq<Card>, c: Card)
    ensures Occ(a + b, c) == Occ(a, c) + Occ(b, c)
  {
    if a == [] {
      assert a + b == b;
    } else {
      OccAppend(a[1..], b, c);
      assert (a + b)[1..] == a[1..] + b;
    }
  }

  lemma {:induction false} OccRepeat(x: Card, n: nat, c: Card)
    ensures Occ(Repeat(x, n), c) == if x == c then n else 0
  {
    if n > 0 {
      OccRepeat(x, n - 1, c);
      assert Repeat(x, n)[1..] == Repeat(x, n - 1);
    }
  }

  /** `c` occurs among the first `k` positions of `s`. */
  predicate Seen(s: seq<Card>, k: nat, c: Card)
    requires k <= |s|
  {
    k > 0 && (s[k - 1] == c || Seen(s, k - 1, c))
  }

  lemma {:induction false} SeenIsMembership(s: seq<Card>, k: nat, c: Card)
    requires k <= |s|
    ensures Seen(s, k, c) <==> c in s[..k]
  {
    if k > 0 {
      SeenIsMembership(s, k - 1, c);
      assert s[..k] == s[..k - 1] + [s[k - 1]];
    }
  }

  /** What position `k` of `previous` contributes: at the first occurrence of a card, that card
      repeated by its excess; nothing at a later occurrence. */
  function Fresh(previous: seq<Card>, current: seq<Card>, k: nat): seq<Card>
    requires k < |previous|
  {
    var c := previous[k];
    if Seen(previous, k, c) then [] else Repeat(c, Excess(previous, current, c))
  }

  /** What the first `k` positions of `previous` contribute to the result: each distinct card,
      at its first occurrence, repeated by its excess. This is the order in which iterating a
      Counter of the previous hand yields the cards. */
  function MissingPrefix(previous: seq<Card>, current: seq<Card>, k: nat): seq<Card>
    requires k <= |previous|
  {
    if k == 0 then [] else MissingPrefix(previous, current, k - 1) + Fresh(previous, current, k - 1)
  }

  /** The cards `find_missing(previous, current)` returns, in its order. */
  function Missing(previous: seq<Card>, current: seq<Card>): seq<Card>
  {
    MissingPrefix(previous, current, |previous|)
  }

  /** Copies of `c` among the first `k` positions' contributions: its excess once it has
      occurred, none before. */
  function Tally(previous: seq<Card>, current: seq<Card>, k: nat, c: Card): nat
    requires k <= |previous|
  {
    if Seen(previous, k, c) then Excess(previous, current, c) else 0
  }

  /** What position `k` adds to the tally of `c`: its excess at its first occurrence. */
  function FreshTally(previous: seq<Card>, current: seq<Card>, k: nat, c: Card): nat
    requires k < |previous|
  {
    if previous[k] == c && !Seen(previous, k, c) then Excess(previous, current, c) else 0
  }

  lemma FreshOcc(previous: seq<Card>, current: seq<Card>, k: nat, c: Card)
    requires k < |previous|
    ensures Occ(Fresh(previous, current, k), c) == FreshTally(previous, current, k, c)
  {
    if !Seen(previous, k, previous[k]) {
      OccRepeat(previous[k], Excess(previous, current, previous[k]), c);
    }
  }

  lemma TallyStep(previous: seq<Card>, current: seq<Card>, k: nat, c: Card)
    requires 0 < k <= |previous|
    ensures Tally(previous, current, k, c) == Tally(previous, current, k - 1, c) + FreshTally(previous, current, k - 1, c)
  {
  }

  lemma PrefixStep(previous: seq<Card>, current: seq<Card>, k: nat)
    requires 0 < k <= |previous|
    ensures MissingPrefix(previous, current, k) == MissingPrefix(previous, current, k - 1) + Fresh(previous, current, k - 1)
  {
  }

  lemma {:induction false} MissingPrefixCounts(previous: seq<Card>, current: seq<Card>, k: nat, c: Card)
    requires k <= |previous|
    ensures Occ(MissingPrefix(previous, current, k), c) == Tally(previous, current, k, c)
  {
    if k > 0 {
      var before, added := MissingPrefix(previous, current, k - 1), Fresh(previous, current, k - 1);
      MissingPrefixCounts(previous, current, k - 1, c);
      PrefixStep(previous, current, k);
      OccAppend(before, added, c);
      FreshOcc(previous, current, k - 1, c);
      TallyStep(previous, current, k, c);
    }
  }

  /** The diff holds exactly max(previous[c] - current[c], 0) copies of every card: Dafny's
      multiset difference, which truncates at zero. */
  lemma MissingIsMultisetDifference(previous: seq<Card>, current: seq<Card>)
    ensures multiset(Missing(previous, current)) == multiset(previous) - multiset(current)
    ensures forall c :: multiset(Missing(previous, current))[c] == Excess(previous, current, c)
  {
    forall c
      ensures multiset(Missing(previous, current))[c] == Excess(previous, current, c)
    {
      MissingPrefixCounts(previous, current, |previous|, c);
      OccIsMultiset(Missing(previous, current), c);
      assert previous[..|previous|] == previous;
      SeenIsMembership(previous, |previous|, c);
      if c !in previous {
        assert multiset(previous)[c] == 0;
      }
    }
    assert multiset(Missing(previous, current)) == multiset(previous) - multiset(current);
  }

  /** A card that only the current hand holds is never reported as played. */
  lemma MissingIgnoresNewCards(previous: seq<Card>, current: seq<Card>, c: Card)
    requires c !in previous
    ensures c !in Missing(previous, current)
  {
    MissingIsMultisetDifference(previous, current);
    assert multiset(previous)[c] == 0;
    assert multiset(Missing(previous, current))[c] == 0;
  }

  /** When the current hand is what is left of the previous one, the diff and the current hand
      together give back the previous hand. */
  lemma MissingRestoresPrevious(previous: seq<Card>, current: seq<Card>)
    requires multiset(current) <= multiset(previous)
    ensures multiset(Missing(previous, current)) + multiset(current) == multiset(previous)
    ensures |Missing(previous, current)| == |previous| - |current|
  {
    MissingIsMultisetDifference(previous, current);
    assert multiset(Missing(previous, current)) + multiset(current) == multiset(previous);
    assert |multiset(Missing(previous, current))| + |multiset(current)| == |multiset(previous)|;
  }

  /** The example beside Drake's find_missing: ["a","b","b","c","d"] against ["a","b","d"]
      gives ["b","c"]. */
  lemma MissingExample()
    ensures Missing([Other("a"), Other("b"), Other("b"), Other("c"), Other("d")],
                    [Other("a"), Other("b"), Other("d")])
            == [Other("b"), Other("c")]
  {
    MissingOfShape(Other("a"), Other("b"), Other("c"), Other("d"));
  }

  /** The same example over any four distinct cards. */
  lemma MissingOfShape(a: Card, b: Card, c: Card, d: Card)
    requires a != b && a != c && a != d && b != c && b != d && c != d
    ensures Missing([a, b, b, c, d], [a, b, d]) == [b, c]
  {
    var p := [a, b, b, c, d];
    var q := [a, b, d];
    ExampleExcess(a, b, c, d);
    ExampleSeen(a, b, c, d);
    assert Repeat(a, 0) == [] && Repeat(d, 0) == [];
    assert Repeat(b, 1) == [b] && Repeat(c, 1) == [c];
    assert Fresh(p, q, 0) == [];
    assert Fresh(p, q, 1) == [b];
    assert Fresh(p, q, 2) == [];
    assert Fresh(p, q, 3) == [c];
    assert Fresh(p, q, 4) == [];
    assert MissingPrefix(p, q, 1) == [];
    assert MissingPrefix(p, q, 2) == [b];
    assert MissingPrefix(p, q, 3) == [b];
    assert MissingPrefix(p, q, 4) == [b, c];
  }

  lemma ExampleSeen(a: Card, b: Card, c: Card, d: Card)
    requires a != b && a != c && a != d && b != c && b != d && c != d
    ensures var p := [a, b, b, c, d];
      !Seen(p, 0, a) && !Seen(p, 1, b) && Seen(p, 2, b) && !Seen(p, 3, c) && !Seen(p, 4, d)
  {
    var p := [a, b, b, c, d];
    assert p[..1] == [a] && p[..2] == [a, b];
    assert p[..3] == [a, b, b] && p[..4] == [a, b, b, c];
    SeenIsMembership(p, 1, b);
    SeenIsMembership(p, 2, b);
    SeenIsMembership(p, 3, c);
    SeenIsMembership(p, 4, d);
  }

  lemma ExampleExcess(a: Card, b: Card, c: Card, d: Card)
    requires a != b && a != c && a != d && b != c && b != d && c != d
    ensures var p, q := [a, b, b, c, d], [a, b, d];
      Excess(p, q, a) == 0 && Excess(p, q, b) == 1 && Excess(p, q, c) == 1 && Excess(p, q, d) == 0
  {
    var p, q := [a, b, b, c, d], [a, b, d];
    assert multiset(p) == multiset{a, b, b, c, d};
    assert multiset(q) == multiset{a, b, d};
  }

  lemma FreshStep(previous: seq<Card>, current: seq<Card>, i: nat, surplus: seq<Card>)
    requires i < |previous|
    requires var c := previous[i];
      surplus == if Seen(previous, i, c) || Excess(previous, current, c) == 0 then [] else Repeat(c, Excess(previous, current, c))
    ensures MissingPrefix(previous, current, i + 1) == MissingPrefix(previous, current, i) + surplus
  {
    if !Seen(previous, i, previous[i]) && Excess(previous, current, previous[i]) == 0 {
      assert Repeat(previous[i], 0) == [];
    }
  }

  /** find_missing: count both hands, then walk the previous hand's distinct cards in order of
      first appearance and emit each one's surplus. */
  method FindMissing(previous: seq<Card>, current: seq<Card>) returns (missing: seq<Card>)
    ensures missing == Missing(previous, current)
    ensures multiset(missing) == multiset(previous) - multiset(current)
  {
    missing := [];
    var i := 0;
    while i < |previous|
      invariant 0 <= i <= |previous|
      invariant missing == MissingPrefix(previous, current, i)
    {
      var surplus := Surplus(previous, current, i);
      missing := missing + surplus;
      i := i + 1;
    }
    MissingIsMultisetDifference(previous, current);
  }

  /** One step of the walk: at the first occurrence of a card, the copies the previous hand
      has beyond the current one; nothing at a later occurrence. */
  method Surplus(previous: seq<Card>, current: seq<Card>, i: nat) returns (surplus: seq<Card>)
    requires i < |previous|
    ensures MissingPrefix(previous, current, i + 1) == MissingPrefix(previous, current, i) + surplus
  {
    var item := previous[i];
    surplus := [];
    if !Seen(previous, i, item) {
      var diff: int := multiset(previous)[item] as int - multiset(current)[item] as int;
      if diff > 0 {
        surplus := Repeat(item, diff);
      }
    }
    FreshStep(previous, current, i, surplus);
  }
}
