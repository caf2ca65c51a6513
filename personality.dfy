/** The personality ring the "Mode" button steps through
    (app/page.tsx, `cyclePersonality`). */
module Personality {

  /** The backend's personality modes, in button order. */
  const Personalities: seq<string> := ["auto", "professional", "helpful", "funny"]

  /** `(index + 1) % personalities.length`: the next position on the ring,
      wrapping from the last mode back to the first. */
  function NextIndex(index: nat): (r: nat)
    ensures r < |Personalities|
    ensures index + 1 < |Personalities| ==> r == index + 1
    ensures index + 1 == |Personalities| ==> r == 0
  {
    (index + 1) % |Personalities|
  }

  /** The position after `presses` presses of the button. */
  function Advance(index: nat, presses: nat): (r: nat)
    requires index < |Personalities|
    ensures r < |Personalities|
  {
    if presses == 0 then index else NextIndex(Advance(index, presses - 1))
  }

  /** From a position on the ring, `presses` presses land `presses` steps
      further round it. */
  lemma {:induction false} AdvanceIsRotation(index: nat, presses: nat)
    requires index < |Personalities|
    ensures Advance(index, presses) == (index + presses) % |Personalities|
  {
    if presses > 0 {
      AdvanceIsRotation(index, presses - 1);
    }
  }

  /** Mode `m` is shown within one round of presses from `index`. */
  ghost predicate ReachedWithinRound(index: nat, m: string)
    requires index < |Personalities|
  {
    exists p :: 0 <= p < |Personalities| && Personalities[Advance(index, p)] == m
  }

  /** Four presses bring the ring back to where it was, and the presses in
      between show every mode. */
  lemma FullCycle(index: nat)
    requires index < |Personalities|
    ensures Advance(index, |Personalities|) == index
    ensures forall m :: m in Personalities ==> ReachedWithinRound(index, m)
  {
    AdvanceIsRotation(index, |Personalities|);
    forall m | m in Personalities ensures ReachedWithinRound(index, m) {
      var k :| 0 <= k < |Personalities| && Personalities[k] == m;
      var p := if index <= k then k - index else k - index + |Personalities|;
      AdvanceIsRotation(index, p);
      assert index + p == k || index + p == k + |Personalities|;
      assert Personalities[Advance(index, p)] == m;
    }
  }
}
