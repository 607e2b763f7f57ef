/** The ledger prologue LakerDawg and Drake write inline in `decide`: a first call sizes the
    table with no default, and a hand at a recorded position is diffed and replaced, the
    vanished cards appended to the opponents' pile one at a time. */
module Prologue {
  import opened Cards
  import opened HandDiff
  import opened Game

  /** The first-call initialisation: size the table from the hand (a size the table does not
      list raises KeyError) and record the hand. */
  method Initialise(hand: seq<Card>, st: GameState)
    requires !st.started ==> 7 <= |hand| <= 10
    modifies st`started, st`hands, st`playerCount
    ensures st.View() == if old(st.started) then old(st.View())
                         else old(st.View()).(started := true, hands := [hand],
                                              playerCount := PlayersByHand(|hand|).value)
    ensures st.started
  {
    if !st.started {
      st.playerCount := PlayersByHand(|hand|).value;
      st.hands := [hand];
      st.started := true;
    }
  }

  /** Diff the hand at the cursor against the new one, append what vanished to the opponents'
      pile one card at a time, and replace the hand. */
  method DiffAndReplace(hand: seq<Card>, st: GameState)
    requires st.started && st.handNum < |st.hands|
    modifies st`hands, st`enemyCardsPlayed
    ensures st.View() == old(st.View()).(
      enemyCardsPlayed := old(st.enemyCardsPlayed) + Missing(old(st.hands[st.handNum]), hand),
      hands := old(st.hands)[st.handNum := hand])
  {
    var missing := FindMissing(st.hands[st.handNum], hand);
    var j := 0;
    while j < |missing|
      invariant 0 <= j <= |missing|
      invariant st.enemyCardsPlayed == old(st.enemyCardsPlayed) + missing[..j]
      invariant st.hands == old(st.hands)
    {
      st.enemyCardsPlayed := st.enemyCardsPlayed + [missing[j]];
      assert missing[..j + 1] == missing[..j] + [missing[j]];
      j := j + 1;
    }
    assert missing[..|missing|] == missing;
    st.hands := st.hands[st.handNum := hand];
  }
}
