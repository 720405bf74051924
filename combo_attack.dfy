/**
 * The sword-attack combo: the chain counter, the attacking and lunge flags,
 * and the delayed chain reset that AttackResetRoutine performs. The coroutine
 * becomes an explicit timer: resetStarted records that the routine field has
 * ever been assigned (it is never set back to null), resetPending that the
 * routine is still waiting, resetRemaining how long it still waits.
 */
module ComboAttack {
  import opened Timing

  /** Seconds AttackResetRoutine waits before clearing the chain. */
  const ResetDelay: real := 0.5
  /** The length of a full chain; reaching it at the end of an attack restarts the chain. */
  const MaxAttackCount: int := 3

  datatype ComboState = ComboState(
    attackCount: int,
    isAttacking: bool,
    canGoForwardOnAttack: bool,
    resetStarted: bool,
    resetPending: bool,
    resetRemaining: real,
    shownAttackCount: int)   // the animator's AttackCount parameter

  /** The state after construction: no chain, no attack, no reset routine. */
  const Initial := ComboState(0, false, false, false, false, 0.0, 0)

  /**
   * The combo invariant: the counter stays in 0..3 and is below 3 whenever no
   * attack is running; a waiting reset belongs to a finished attack and still
   * has time left.
   */
  predicate Inv(s: ComboState)
  {
    0 <= s.attackCount <= MaxAttackCount
    && (!s.isAttacking ==> s.attackCount < MaxAttackCount)
    && (s.resetPending ==> s.resetStarted && !s.isAttacking && s.resetRemaining > 0.0)
    && 0 <= s.shownAttackCount <= MaxAttackCount
  }

  lemma InitialIsValid()
    ensures Inv(Initial)
  {
  }

  /** Attack fires only on the ground and when no attack is running. */
  predicate AttackFires(s: ComboState, grounded: bool)
  {
    grounded && !s.isAttacking
  }

  /** A firing attack continues the chain when the count is below 3 and a reset routine exists. */
  predicate ContinuesChain(s: ComboState)
  {
    s.attackCount < MaxAttackCount && s.resetStarted
  }

  /**
   * Attack. A no-op unless it fires; when it fires the attacking and lunge
   * flags are set, and, when the chain continues, the waiting reset is
   * cancelled and the count goes up by exactly one (and the animator is told).
   */
  function Attack(s: ComboState, grounded: bool): (r: ComboState)
    ensures !AttackFires(s, grounded) ==> r == s
    ensures AttackFires(s, grounded) ==> r.isAttacking && r.canGoForwardOnAttack
    ensures AttackFires(s, grounded) && ContinuesChain(s) ==>
              r.attackCount == s.attackCount + 1 && !r.resetPending && r.shownAttackCount == r.attackCount
    ensures !(AttackFires(s, grounded) && ContinuesChain(s)) ==>
              r.attackCount == s.attackCount && r.resetPending == s.resetPending
              && r.shownAttackCount == s.shownAttackCount
    ensures r.resetStarted == s.resetStarted && r.resetRemaining == s.resetRemaining
    ensures Inv(s) ==> Inv(r)
    ensures Inv(s) && AttackFires(s, grounded) ==> !r.resetPending
    ensures Inv(s) ==> (r.attackCount == s.attackCount + 1 <==> AttackFires(s, grounded) && s.resetStarted)
  {
    if grounded && !s.isAttacking then
      var t := s.(isAttacking := true, canGoForwardOnAttack := true);
      if t.attackCount < 3 && t.resetStarted then
        t.(resetPending := false, attackCount := t.attackCount + 1, shownAttackCount := t.attackCount + 1)
      else
        t
    else
      s
  }

  /** HalfAttack: the lunge window closes; nothing else changes. */
  function HalfAttack(s: ComboState): (r: ComboState)
    ensures !r.canGoForwardOnAttack
    ensures r.(canGoForwardOnAttack := s.canGoForwardOnAttack) == s
    ensures Inv(s) ==> Inv(r)
  {
    s.(canGoForwardOnAttack := false)
  }

  /**
   * EndAttack. A no-op when no attack is running. Otherwise the attack ends,
   * the reset routine is (re)armed for ResetDelay seconds, a full chain of 3
   * restarts at once, and the animator is told the resulting count.
   */
  function EndAttack(s: ComboState): (r: ComboState)
    ensures !s.isAttacking ==> r == s
    ensures s.isAttacking ==>
              !r.isAttacking && r.resetStarted && r.resetPending && r.resetRemaining == ResetDelay
    ensures s.isAttacking ==>
              r.attackCount == (if s.attackCount == MaxAttackCount then 0 else s.attackCount)
              && r.shownAttackCount == r.attackCount
    ensures r.canGoForwardOnAttack == s.canGoForwardOnAttack
    ensures Inv(s) ==> Inv(r)
  {
    if s.isAttacking then
      var t := s.(isAttacking := false, shownAttackCount := s.attackCount,
                  resetStarted := true, resetPending := true, resetRemaining := ResetDelay);
      if t.attackCount == 3 then t.(attackCount := 0, shownAttackCount := 0) else t
    else
      s
  }

  /**
   * One frame of AttackResetRoutine: the wait runs down by dt, and when it
   * is over the chain count becomes 0. The animator's AttackCount is not
   * rewritten, so it keeps its last value.
   */
  function ResetTick(s: ComboState, dt: real): (r: ComboState)
    ensures !s.resetPending ==> r == s
    ensures s.resetPending && s.resetRemaining - dt <= 0.0 ==> r.attackCount == 0 && !r.resetPending
    ensures s.resetPending && s.resetRemaining - dt > 0.0 ==>
              r.resetPending && r.resetRemaining == s.resetRemaining - dt && r.attackCount == s.attackCount
    ensures r.isAttacking == s.isAttacking && r.canGoForwardOnAttack == s.canGoForwardOnAttack
    ensures r.resetStarted == s.resetStarted && r.shownAttackCount == s.shownAttackCount
    ensures Inv(s) ==> Inv(r)
  {
    if s.resetPending then
      var left := s.resetRemaining - dt;
      if left <= 0.0 then s.(resetPending := false, resetRemaining := left, attackCount := 0)
      else s.(resetRemaining := left)
    else
      s
  }

  /** The inputs that reach the combo: the attack button, the two animation events, and elapsed frames. */
  datatype ComboEvent =
    | AttackPressed(grounded: bool)
    | HalfAttackReached
    | AttackEnded
    | Elapsed(dt: real)

  function Step(s: ComboState, e: ComboEvent): ComboState
  {
    match e
    case AttackPressed(grounded) => Attack(s, grounded)
    case HalfAttackReached => HalfAttack(s)
    case AttackEnded => EndAttack(s)
    case Elapsed(dt) => ResetTick(s, dt)
  }

  function Run(s: ComboState, events: seq<ComboEvent>): ComboState
    decreases |events|
  {
    if events == [] then s else Run(Step(s, events[0]), events[1..])
  }

  /** Every sequence of combo events keeps the invariant. */
  lemma {:induction false} RunPreservesInv(s: ComboState, events: seq<ComboEvent>)
    requires Inv(s)
    ensures Inv(Run(s, events))
    decreases |events|
  {
    if events != [] {
      RunPreservesInv(Step(s, events[0]), events[1..]);
    }
  }

  /** A chain cannot grow before some attack has ended: until then the count stays 0. */
  lemma {:induction false} NoChainBeforeFirstEnd(s: ComboState, events: seq<ComboEvent>)
    requires !s.resetStarted && !s.resetPending && s.attackCount == 0
    requires forall i :: 0 <= i < |events| ==> !events[i].AttackEnded?
    ensures Run(s, events).attackCount == 0
    decreases |events|
  {
    if events != [] {
      var t := Step(s, events[0]);
      assert !t.resetStarted && !t.resetPending && t.attackCount == 0;
      assert forall i :: 0 <= i < |events[1..]| ==> !events[1..][i].AttackEnded? by {
        forall i | 0 <= i < |events[1..]| ensures !events[1..][i].AttackEnded? {
          assert events[1..][i] == events[i + 1];
        }
      }
      NoChainBeforeFirstEnd(t, events[1..]);
    }
  }

  /** The reset routine's wait over a run of frames. */
  function Wait(s: ComboState, dts: seq<real>): ComboState
    decreases |dts|
  {
    if dts == [] then s else Wait(ResetTick(s, dts[0]), dts[1..])
  }

  /** A pause shorter than the remaining wait keeps the chain and the pending reset. */
  lemma {:induction false} ChainSurvivesShortPause(s: ComboState, dts: seq<real>)
    requires s.resetPending && NonNegative(dts) && Sum(dts) < s.resetRemaining
    ensures Wait(s, dts).resetPending
    ensures Wait(s, dts).attackCount == s.attackCount
    ensures Wait(s, dts).resetRemaining == s.resetRemaining - Sum(dts)
    decreases |dts|
  {
    if dts != [] {
      NonNegativeTail(dts);
      SumNonNegative(dts[1..]);
      ChainSurvivesShortPause(ResetTick(s, dts[0]), dts[1..]);
    }
  }

  /** A pause at least as long as the remaining wait clears the chain, and no wait is left. */
  lemma {:induction false} ChainEndsAfterLongPause(s: ComboState, dts: seq<real>)
    requires Inv(s) && s.resetPending && NonNegative(dts) && Sum(dts) >= s.resetRemaining
    ensures Wait(s, dts).attackCount == 0 && !Wait(s, dts).resetPending
    decreases |dts|
  {
    assert dts != [];
    NonNegativeTail(dts);
    var t := ResetTick(s, dts[0]);
    if t.resetPending {
      ChainEndsAfterLongPause(t, dts[1..]);
    } else {
      StaysClearedWithoutReset(t, dts[1..]);
    }
  }

  lemma {:induction false} StaysClearedWithoutReset(s: ComboState, dts: seq<real>)
    requires !s.resetPending
    ensures Wait(s, dts) == s
    decreases |dts|
  {
    if dts != [] {
      StaysClearedWithoutReset(ResetTick(s, dts[0]), dts[1..]);
    }
  }

  /**
   * Three follow-up attacks, each started less than ResetDelay after the
   * previous one ended, drive the count through 1, 2 and 3 after the first
   * attack has armed the reset routine; the end of the third resets it to 0.
   * The very first attack leaves the count at 0.
   */
  lemma QuickFollowUpsCompleteChain(d1: real, d2: real, d3: real)
    requires 0.0 <= d1 < ResetDelay && 0.0 <= d2 < ResetDelay && 0.0 <= d3 < ResetDelay
    ensures var s0 := EndAttack(Attack(Initial, true));
            var s1 := Attack(ResetTick(s0, d1), true);
            var s2 := Attack(ResetTick(EndAttack(s1), d2), true);
            var s3 := Attack(ResetTick(EndAttack(s2), d3), true);
            s0.attackCount == 0 && s1.attackCount == 1 && s2.attackCount == 2 && s3.attackCount == 3
            && EndAttack(s3).attackCount == 0
  {
  }

  /** Letting the reset routine finish clears the chain, and the next attack starts it again at 1. */
  lemma SlowFollowUpRestartsChain(s: ComboState, dt: real)
    requires Inv(s) && s.resetPending && dt >= s.resetRemaining
    ensures ResetTick(s, dt).attackCount == 0
    ensures Attack(ResetTick(s, dt), true).attackCount == 1
  {
  }
}
