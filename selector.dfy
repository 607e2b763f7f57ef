/** Choosing the card to play: the position of the highest score, the earliest one on ties. */
module Selector {

  /** `k` holds a maximum of `s` and no earlier position does. */
  predicate IsFirstMax(s: seq<real>, k: int)
  {
    0 <= k < |s|
    && (forall j :: 0 <= j < |s| ==> s[j] <= s[k])
    && (forall j :: 0 <= j < k ==> s[j] < s[k])
  }

  /** At most one position is the first maximum. */
  lemma FirstMaxUnique(s: seq<real>, k: int, m: int)
    requires IsFirstMax(s, k) && IsFirstMax(s, m)
    ensures k == m
  {
    assert s[k] == s[m];
  }

  /** A score strictly above every other one is chosen, whatever its position. */
  lemma StrictMaxChosen(s: seq<real>, k: int)
    requires 0 <= k < |s|
    requires forall j :: 0 <= j < |s| && j != k ==> s[j] < s[k]
    ensures IsFirstMax(s, k)
  {
  }

  /** Scores shifted by amounts that are equal at every position select the same card. */
  lemma FirstMaxShift(s: seq<real>, t: seq<real>, d: real, k: int)
    requires |s| == |t|
    requires forall j :: 0 <= j < |s| ==> t[j] == s[j] + d
    ensures IsFirstMax(s, k) <==> IsFirstMax(t, k)
  {
  }

  /** One step of the scan: a new score takes over only when it beats the best so far. */
  lemma FirstMaxExtend(s: seq<real>, k: int, x: real)
    requires IsFirstMax(s, k)
    ensures IsFirstMax(s + [x], if x > s[k] then |s| else k)
  {
  }

  /** The scan every variant writes: keep the first position whose score beats all before it
      (the `score > best_score` loop, and Python's `max`, which keeps the first of equal keys). */
  method FirstMax(s: seq<real>) returns (k: nat)
    requires |s| > 0
    ensures IsFirstMax(s, k)
  {
    k := 0;
    var i := 1;
    while i < |s|
      invariant 1 <= i <= |s|
      invariant IsFirstMax(s[..i], k)
    {
      if s[i] > s[k] {
        k := i;
      }
      i := i + 1;
    }
    assert s[..|s|] == s;
  }
}
