/** The turn-spanning ledger of the Claude family of bots (`update_state`): which hands have
    been seen at which rotation position, and which cards opponents have played from them. */
module Ledger {
  import opened Cards
  import opened HandDiff
  import opened Game
  import opened Estimator

  /** How a variant keeps `total_remaining` when a hand position is seen for the first time. */
  datatype Bookkeeping =
    | Unclamped  // Claude: subtract the hand size
    | Clamped    // ClaudeV2: subtract the hand size, never below zero
    | Untracked  // ClaudeV3: no such field

  /** One call of `update_state` on the ledger. The first call sizes the table from the hand
      and records it at position 0; later calls either diff the hand against the one recorded
      at the cursor, or record it at a new position. */
  function Observe(v: LedgerView, hand: seq<Card>, policy: Bookkeeping): LedgerView
  {
    if !v.started then
      v.(started := true, hands := [hand], handNum := 0,
         playerCount := PlayerCountOrDefault(|hand|), startCardNum := |hand|,
         totalRemaining := if policy == Untracked then v.totalRemaining else TotalCards)
    else if v.handNum < |v.hands| then
      v.(enemyCardsPlayed := v.enemyCardsPlayed + Missing(v.hands[v.handNum], hand),
         hands := v.hands[v.handNum := hand])
    else
      v.(hands := v.hands + [hand],
         totalRemaining := match policy
           case Unclamped => v.totalRemaining - |hand|
           case Clamped => Max0(v.totalRemaining - |hand|)
           case Untracked => v.totalRemaining)
  }

  /** The first call records the hand as the only one, at position 0, sizes the table from the
      hand size (two players for a size outside 7..10) and starts the deck count at 108. */
  lemma ObserveFirstHand(v: LedgerView, hand: seq<Card>, policy: Bookkeeping)
    requires !v.started
    ensures var w := Observe(v, hand, policy);
      && w.started && w.hands == [hand] && w.handNum == 0 && w.startCardNum == |hand|
      && 2 <= w.playerCount <= 5
      && (7 <= |hand| <= 10 ==> w.playerCount + |hand| == 12)
      && (policy != Untracked ==> w.totalRemaining == TotalCards)
      && w.enemyCardsPlayed == v.enemyCardsPlayed
  {
  }

  /** At a position already recorded, the cards that vanished from that hand are appended to
      the opponents' pile, the new hand replaces the old one, and nothing else changes. */
  lemma ObserveKnownPosition(v: LedgerView, hand: seq<Card>, policy: Bookkeeping)
    requires v.started && v.handNum < |v.hands|
    ensures var w := Observe(v, hand, policy);
      && |w.hands| == |v.hands| && w.hands[v.handNum] == hand
      && (forall i :: 0 <= i < |v.hands| && i != v.handNum ==> w.hands[i] == v.hands[i])
      && multiset(w.enemyCardsPlayed)
         == multiset(v.enemyCardsPlayed) + (multiset(v.hands[v.handNum]) - multiset(hand))
      && w.enemyCardsPlayed[..|v.enemyCardsPlayed|] == v.enemyCardsPlayed
      && w.handNum == v.handNum && w.playerCount == v.playerCount
      && w.startCardNum == v.startCardNum && w.totalRemaining == v.totalRemaining
  {
    MissingIsMultisetDifference(v.hands[v.handNum], hand);
  }

  /** When the hand seen again is what is left of the recorded one, the cards accounted for
      (known hands plus opponents' plays) do not change: every vanished card moves from the
      known hands to the opponents' pile. */
  lemma ObserveKnownPositionConserves(v: LedgerView, hand: seq<Card>, policy: Bookkeeping)
    requires v.started && v.handNum < |v.hands|
    requires multiset(hand) <= multiset(v.hands[v.handNum])
    ensures var w := Observe(v, hand, policy);
      Accounted(w.hands, w.enemyCardsPlayed) == Accounted(v.hands, v.enemyCardsPlayed)
  {
    var slot := v.hands[v.handNum];
    var w := Observe(v, hand, policy);
    var known := multiset(Flatten(v.hands));
    MissingIsMultisetDifference(slot, hand);
    FlattenUpdate(v.hands, v.handNum, hand);
    assert multiset(slot) <= known by {
      FlattenUpdate(v.hands, v.handNum, slot);
      assert v.hands[v.handNum := slot] == v.hands;
    }
    assert w.enemyCardsPlayed == v.enemyCardsPlayed + Missing(slot, hand);
    assert multiset(w.enemyCardsPlayed)
           == multiset(v.enemyCardsPlayed) + (multiset(slot) - multiset(hand));
    MoveConserves(known, multiset(slot), multiset(hand), multiset(v.enemyCardsPlayed));
  }

  /** Taking `slot` out of `known`, putting `hand` back and adding what `hand` lacks of `slot`
      to `enemy` leaves the union unchanged. */
  lemma MoveConserves(known: multiset<Card>, slot: multiset<Card>, hand: multiset<Card>, enemy: multiset<Card>)
    requires hand <= slot <= known
    ensures (known - slot + hand) + (enemy + (slot - hand)) == known + enemy
  {
    forall c
      ensures ((known - slot + hand) + (enemy + (slot - hand)))[c] == (known + enemy)[c]
    {
      assert hand[c] <= slot[c] <= known[c];
    }
  }

  /** At a new position the hand is appended, the opponents' pile is untouched, and the deck
      count drops by the hand size (clamped at zero for ClaudeV2; untouched for ClaudeV3). */
  lemma ObserveNewPosition(v: LedgerView, hand: seq<Card>, policy: Bookkeeping)
    requires v.started && v.handNum >= |v.hands|
    ensures var w := Observe(v, hand, policy);
      && w.hands == v.hands + [hand] && w.enemyCardsPlayed == v.enemyCardsPlayed
      && w.handNum == v.handNum && w.playerCount == v.playerCount
      && (policy == Unclamped ==> w.totalRemaining == v.totalRemaining - |hand|)
      && (policy == Clamped ==> w.totalRemaining == Max0(v.totalRemaining - |hand|))
      && (policy == Clamped ==>
            w.totalRemaining >= 0
            && (v.totalRemaining >= |hand| ==> w.totalRemaining == v.totalRemaining - |hand|))
      && (policy == Untracked ==> w.totalRemaining == v.totalRemaining)
  {
  }

  /** ClaudeV2's clamp keeps the deck count non-negative on every call. */
  lemma ClampedStaysNonNegative(v: LedgerView, hand: seq<Card>)
    requires v.totalRemaining >= 0
    ensures Observe(v, hand, Clamped).totalRemaining >= 0
  {
  }

  /** Without the clamp the count can go below zero: a position seen for the first time with
      a hand larger than the count. */
  lemma UnclampedCanGoNegative()
    ensures var v := LedgerView(true, [[Tempura]], 1, 2, 1, 0, []);
      Observe(v, [Tempura], Unclamped).totalRemaining == -1
  {
  }

  /** One turn of the ledger: observe the hand, then move the cursor on. */
  function Turn(v: LedgerView, hand: seq<Card>, policy: Bookkeeping): LedgerView
  {
    var w := Observe(v, hand, policy);
    if w.playerCount > 0 then Advance(w) else w
  }

  /** The ledger invariant holds after every turn, and the observed hand sits at the cursor
      before it moves on. */
  lemma TurnKeepsValid(v: LedgerView, hand: seq<Card>, policy: Bookkeeping)
    requires ValidLedger(v)
    ensures var w := Observe(v, hand, policy);
      && w.handNum < |w.hands| <= w.playerCount && w.hands[w.handNum] == hand
      && ValidLedger(Turn(v, hand, policy))
  {
    var w := Observe(v, hand, policy);
    ObserveKeepsShape(v, hand, policy);
    AdvanceKeepsValid(w);
  }

  lemma ObserveKeepsShape(v: LedgerView, hand: seq<Card>, policy: Bookkeeping)
    requires ValidLedger(v)
    ensures var w := Observe(v, hand, policy);
      && w.started && 2 <= w.playerCount
      && w.handNum < |w.hands| <= w.playerCount && w.hands[w.handNum] == hand
  {
  }

  /** Moving the cursor on keeps the ledger invariant once the cursor sits on a recorded hand. */
  lemma AdvanceKeepsValid(w: LedgerView)
    requires w.started && 2 <= w.playerCount && w.handNum < |w.hands| <= w.playerCount
    ensures ValidLedger(Advance(w))
  {
    if w.handNum + 1 < w.playerCount {
      assert Advance(w).handNum == w.handNum + 1;
    } else {
      assert Advance(w).handNum == 0;
    }
  }

  /** The ledger after a whole sequence of turns from `v`. */
  function Turns(v: LedgerView, hands: seq<seq<Card>>, policy: Bookkeeping): LedgerView
    decreases |hands|
  {
    if hands == [] then v else Turns(Turn(v, hands[0], policy), hands[1..], policy)
  }

  /** From a fresh ledger, after `n` turns every position up to the table size has been
      recorded once and the cursor has gone round `n` times: `min(n, players)` hands are
      recorded and the cursor sits at `n mod players`. */
  lemma {:induction false} TurnsRotate(hands: seq<seq<Card>>, policy: Bookkeeping)
    requires |hands| >= 1
    ensures var start := LedgerView(false, [], 0, 0, 0, 0, []);
      var w := Turns(start, hands, policy);
      var p := PlayerCountOrDefault(|hands[0]|);
      && w.started && w.playerCount == p
      && |w.hands| == (if |hands| < p then |hands| else p)
      && w.handNum == |hands| % p
      && ValidLedger(w)
  {
    var start := LedgerView(false, [], 0, 0, 0, 0, []);
    var p := PlayerCountOrDefault(|hands[0]|);
    var first := Turn(start, hands[0], policy);
    assert RotatedBy(first, 1, p);
    TurnsFrom(first, hands[1..], policy, 1, p);
  }

  /** The rotation state after `k` turns at a table of `p`. */
  predicate RotatedBy(v: LedgerView, k: nat, p: nat)
  {
    v.started && v.playerCount == p && p >= 2 && k >= 1
    && |v.hands| == (if k < p then k else p) && v.handNum == k % p
  }

  lemma TurnStep(v: LedgerView, hand: seq<Card>, policy: Bookkeeping, k: nat, p: nat)
    requires RotatedBy(v, k, p)
    ensures RotatedBy(Turn(v, hand, policy), k + 1, p)
  {
    var w := Observe(v, hand, policy);
    assert w.playerCount == p && |w.hands| == (if k + 1 < p then k + 1 else p);
    ModSuccessor(k, p);
  }

  lemma {:induction false} TurnsFrom(v: LedgerView, rest: seq<seq<Card>>, policy: Bookkeeping, k: nat, p: nat)
    requires RotatedBy(v, k, p)
    ensures RotatedBy(Turns(v, rest, policy), k + |rest|, p)
    decreases |rest|
  {
    if rest != [] {
      TurnStep(v, rest[0], policy, k, p);
      TurnsFrom(Turn(v, rest[0], policy), rest[1..], policy, k + 1, p);
    }
  }

  lemma ModSuccessor(k: nat, p: nat)
    requires p > 0
    ensures (k % p + 1) % p == (k + 1) % p
  {
    var q, r := k / p, k % p;
    assert k == q * p + r;
    if r + 1 < p {
      assert k + 1 == q * p + (r + 1);
      ModUnique(k + 1, p, q, r + 1);
      ModUnique(r + 1, p, 0, r + 1);
    } else {
      assert k + 1 == (q + 1) * p;
      ModUnique(k + 1, p, q + 1, 0);
      ModUnique(p, p, 1, 0);
    }
  }

  /** Euclidean division has a unique remainder. */
  lemma ModUnique(x: nat, p: nat, q: int, r: int)
    requires p > 0 && 0 <= r < p && x == q * p + r
    ensures x % p == r
  {
    var q', r' := x / p, x % p;
    assert x == q' * p + r';
    assert (q - q') * p == r' - r;
    if q > q' {
      MulAtLeast(q - q', p);
    } else if q < q' {
      MulAtLeast(q' - q, p);
    }
  }

  lemma MulAtLeast(a: int, p: nat)
    requires a >= 1
    ensures a * p >= p
  {
    assert a * p == (a - 1) * p + p;
    assert (a - 1) * p >= 0;
  }

  /** `update_state` on the mutable state: the ledger moves as `Observe` says and the
      distribution is rebuilt from the new ledger. */
  method UpdateState(hand: seq<Card>, st: GameState, policy: Bookkeeping)
    modifies st`started, st`hands, st`handNum, st`playerCount, st`startCardNum,
             st`totalRemaining, st`enemyCardsPlayed, st`cardDistribution
    ensures st.View() == Observe(old(st.View()), hand, policy)
    ensures st.cardDistribution
            == Distribution(st.hands, st.enemyCardsPlayed, st.playerCount, st.startCardNum)
  {
    if !st.started {
      st.playerCount := PlayerCountOrDefault(|hand|);
      st.hands := [hand];
      st.started := true;
      st.handNum := 0;
      st.startCardNum := |hand|;
      if policy != Untracked {
        st.totalRemaining := TotalCards;
      }
      RecomputeDistribution(st);
      return;
    }
    if st.handNum < |st.hands| {
      var played := FindMissing(st.hands[st.handNum], hand);
      st.enemyCardsPlayed := st.enemyCardsPlayed + played;
      st.hands := st.hands[st.handNum := hand];
    } else {
      st.hands := st.hands + [hand];
      match policy
      case Unclamped =>
        st.totalRemaining := st.totalRemaining - |hand|;
      case Clamped =>
        st.totalRemaining := Max0(st.totalRemaining - |hand|);
      case Untracked =>
    }
    RecomputeDistribution(st);
  }

  /** The cursor step every Claude-family `decide` takes after updating the ledger. */
  method AdvanceCursor(st: GameState)
    requires st.playerCount > 0
    modifies st`handNum
    ensures st.View() == Advance(old(st.View()))
  {
    st.handNum := (st.handNum + 1) % st.playerCount;
  }
}
