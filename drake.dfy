/** The Drake bot: the ledger alone. Each call records or diffs the hand at the rotation
    cursor, moves the cursor on, and plays the first card. */
module Drake {
  import opened Cards
  import opened HandDiff
  import opened Game
  import opened Ledger
  import opened Prologue

  /** The ledger step as written: a first call needs a hand size the player table lists
      (KeyError otherwise); a later hand is appended only when the cursor is strictly past the
      last recorded hand, and otherwise the hand at the cursor is diffed, which fails
      (IndexError) when the cursor sits just past the last recorded hand. `None` is the
      exception. */
  function ObserveAsWritten(v: LedgerView, hand: seq<Card>): Option<LedgerView>
  {
    if !v.started && !(7 <= |hand| <= 10) then None
    else
      var w := if v.started then v
               else v.(started := true, hands := [hand], playerCount := PlayersByHand(|hand|).value);
      if |w.hands| < w.handNum then Some(w.(hands := w.hands + [hand]))
      else if w.handNum < |w.hands| then
        Some(w.(enemyCardsPlayed := w.enemyCardsPlayed + Missing(w.hands[w.handNum], hand),
                hands := w.hands[w.handNum := hand]))
      else None
  }

  /** The call as written: the ledger step, then the cursor moved on. */
  function TurnAsWritten(v: LedgerView, hand: seq<Card>): Option<LedgerView>
  {
    match ObserveAsWritten(v, hand)
    case None => None
    case Some(w) => if w.playerCount > 0 then Some(Advance(w)) else None
  }

  /** The second call of a round always fails as written: after the first call one hand is
      recorded and the cursor is at 1, which the guard sends to the diff branch. */
  lemma SecondCallFails(first: seq<Card>, second: seq<Card>)
    requires 7 <= |first| <= 10
    ensures var start := LedgerView(false, [], 0, 0, 0, 0, []);
      var after := TurnAsWritten(start, first);
      && after.Some?
      && after.value.hands == [first] && after.value.handNum == 1
      && ObserveAsWritten(after.value, second).None?
  {
  }

  /** What a call needs: the ledger invariant, and on the first call a hand size the player
      table lists and the cursor at 0 (the first call does not reset it). */
  predicate Ready(v: LedgerView, hand: seq<Card>)
  {
    ValidLedger(v) && (!v.started ==> 7 <= |hand| <= 10 && v.handNum == 0)
  }

  /** The ledger step with the guard corrected to `<=`: when the cursor is on the next new
      position the hand is recorded there; otherwise it is diffed against the hand recorded at
      the cursor. */
  function Observe(v: LedgerView, hand: seq<Card>): LedgerView
    requires Ready(v, hand)
  {
    var w := if v.started then v
             else v.(started := true, hands := [hand], playerCount := PlayersByHand(|hand|).value);
    if |w.hands| <= w.handNum then w.(hands := w.hands + [hand])
    else
      w.(enemyCardsPlayed := w.enemyCardsPlayed + Missing(w.hands[w.handNum], hand),
         hands := w.hands[w.handNum := hand])
  }

  /** The corrected step is the Claude-family ledger step without a deck count or a recorded
      hand size, and agrees with the step as written wherever that one does not fail. */
  lemma CorrectedMatchesLedger(v: LedgerView, hand: seq<Card>)
    requires Ready(v, hand)
    ensures Observe(v, hand) == Ledger.Observe(v, hand, Untracked).(startCardNum := v.startCardNum)
    ensures ObserveAsWritten(v, hand).Some? ==> ObserveAsWritten(v, hand).value == Observe(v, hand)
  {
    if !v.started {
      assert Missing(hand, hand) == [] by {
        MissingIsMultisetDifference(hand, hand);
        assert multiset(Missing(hand, hand)) == multiset{};
      }
      assert v.enemyCardsPlayed + [] == v.enemyCardsPlayed;
      assert [hand][0 := hand] == [hand];
    }
  }

  /** With the corrected guard every call keeps the ledger invariant and the hand sits at the
      cursor before it moves on. */
  lemma CorrectedKeepsValid(v: LedgerView, hand: seq<Card>)
    requires Ready(v, hand)
    ensures var w := Observe(v, hand);
      && w.handNum < |w.hands| <= w.playerCount && w.hands[w.handNum] == hand
      && ValidLedger(Advance(w))
  {
    CorrectedMatchesLedger(v, hand);
    TurnKeepsValid(v, hand, Untracked);
  }

  /** `decide` with the corrected guard: record or diff the hand, move the cursor on, and play
      the first card. */
  method Decide(hand: seq<Card>, st: GameState) returns (index: nat)
    requires Ready(st.View(), hand)
    modifies st`started, st`hands, st`handNum, st`playerCount, st`enemyCardsPlayed
    ensures st.View() == Advance(Observe(old(st.View()), hand))
    ensures ValidLedger(st.View())
    ensures index == 0
    ensures |hand| > 0 ==> index < |hand|
  {
    CorrectedKeepsValid(st.View(), hand);
    Initialise(hand, st);
    if |st.hands| <= st.handNum {
      st.hands := st.hands + [hand];
    } else {
      DiffAndReplace(hand, st);
    }
    st.handNum := (st.handNum + 1) % st.playerCount;
    return 0;
  }
}
