/**
 * The dash: when a dash may start (OnRollInput, CharacterDash), and the two
 * coroutines it starts. DashRoutine keeps isDashing set for dashTime seconds
 * (a WaitForSeconds wait: the time left runs down by each frame and the wait
 * is over once it reaches zero). StartDashCooldown keeps isDashOnCooldown set
 * while its countdown loop runs: each frame it checks the counter, subtracts
 * the frame time while the counter is positive, and clears the flag at the
 * first check that finds it used up. The first check and subtraction happen
 * in the frame of the dash itself.
 */
module Dashing {
  import opened Timing

  datatype DashState = DashState(
    isDashing: bool,
    dashRemaining: real,       // time left in DashRoutine's wait
    isDashOnCooldown: bool,
    cooldownTimer: real)       // StartDashCooldown's local counter

  const Idle := DashState(false, 0.0, false, 0.0)

  /** CharacterDash's condition: movement pressed, not dashing, not on cooldown. */
  predicate CanDash(s: DashState, isMovementPressed: bool)
  {
    isMovementPressed && !s.isDashing && !s.isDashOnCooldown
  }

  /** StartDashCooldown up to its first yield: set the flag, load the counter, and make the first check. */
  function StartDashCooldown(s: DashState, dashCooldownTime: real, dt: real): (r: DashState)
    ensures dashCooldownTime > 0.0 ==> r.isDashOnCooldown && r.cooldownTimer == dashCooldownTime - dt
    ensures dashCooldownTime <= 0.0 ==> !r.isDashOnCooldown
    ensures r.isDashing == s.isDashing && r.dashRemaining == s.dashRemaining
  {
    var t := s.(isDashOnCooldown := true, cooldownTimer := dashCooldownTime);
    if t.cooldownTimer > 0.0 then t.(cooldownTimer := t.cooldownTimer - dt)
    else t.(isDashOnCooldown := false)
  }

  /** DashRoutine up to its wait: the dash is on for dashTime seconds. */
  function DashRoutine(s: DashState, dashTime: real): (r: DashState)
    ensures r.isDashing && r.dashRemaining == dashTime
    ensures r.isDashOnCooldown == s.isDashOnCooldown && r.cooldownTimer == s.cooldownTimer
  {
    s.(isDashing := true, dashRemaining := dashTime)
  }

  /**
   * CharacterDash. When a dash may start, both routines start and both flags
   * are set (the cooldown flag only for a positive cooldown time, as the
   * cooldown loop does not run at all otherwise); when it may not, nothing
   * changes.
   */
  function CharacterDash(s: DashState, isMovementPressed: bool, dashTime: real, dashCooldownTime: real, dt: real): (r: DashState)
    ensures !CanDash(s, isMovementPressed) ==> r == s
    ensures CanDash(s, isMovementPressed) ==> r.isDashing && r.dashRemaining == dashTime
    ensures CanDash(s, isMovementPressed) && dashCooldownTime > 0.0 ==>
              r.isDashOnCooldown && r.cooldownTimer == dashCooldownTime - dt
    ensures CanDash(s, isMovementPressed) && dashCooldownTime <= 0.0 ==> !r.isDashOnCooldown
  {
    if isMovementPressed && !s.isDashing && !s.isDashOnCooldown then
      DashRoutine(StartDashCooldown(s, dashCooldownTime, dt), dashTime)
    else
      s
  }

  /** OnRollInput: the state changes exactly when the character is grounded and a dash may start. */
  function OnRollInput(s: DashState, grounded: bool, isMovementPressed: bool, dashTime: real, dashCooldownTime: real, dt: real): (r: DashState)
    ensures r != s <==> grounded && CanDash(s, isMovementPressed)
    ensures r != s ==> r.isDashing && r.dashRemaining == dashTime
    ensures r != s && dashCooldownTime > 0.0 ==> r.isDashOnCooldown && r.cooldownTimer == dashCooldownTime - dt
  {
    if grounded then CharacterDash(s, isMovementPressed, dashTime, dashCooldownTime, dt) else s
  }

  /** One frame of StartDashCooldown's loop: subtract while positive, otherwise end the cooldown. */
  function ResumeCooldown(s: DashState, dt: real): (r: DashState)
    ensures !s.isDashOnCooldown ==> r == s
    ensures s.isDashOnCooldown && s.cooldownTimer > 0.0 ==>
              r.isDashOnCooldown && r.cooldownTimer == s.cooldownTimer - dt
    ensures s.isDashOnCooldown && s.cooldownTimer <= 0.0 ==> !r.isDashOnCooldown
    ensures r.isDashing == s.isDashing && r.dashRemaining == s.dashRemaining
  {
    if !s.isDashOnCooldown then s
    else if s.cooldownTimer > 0.0 then s.(cooldownTimer := s.cooldownTimer - dt)
    else s.(isDashOnCooldown := false)
  }

  /** One frame of DashRoutine's wait: the time left runs down, and the dash ends when none is left. */
  function ResumeDash(s: DashState, dt: real): (r: DashState)
    ensures !s.isDashing ==> r == s
    ensures s.isDashing ==> r.dashRemaining == s.dashRemaining - dt
    ensures s.isDashing ==> (r.isDashing <==> s.dashRemaining - dt > 0.0)
    ensures r.isDashOnCooldown == s.isDashOnCooldown && r.cooldownTimer == s.cooldownTimer
  {
    if !s.isDashing then s
    else
      var left := s.dashRemaining - dt;
      if left <= 0.0 then s.(isDashing := false, dashRemaining := left)
      else s.(dashRemaining := left)
  }

  /** One frame of both routines; they run independently and each flag can only be cleared. */
  function Tick(s: DashState, dt: real): (r: DashState)
    ensures r.isDashing ==> s.isDashing
    ensures r.isDashOnCooldown ==> s.isDashOnCooldown
    ensures r.isDashing == ResumeDash(s, dt).isDashing
    ensures r.isDashOnCooldown == ResumeCooldown(s, dt).isDashOnCooldown
  {
    ResumeDash(ResumeCooldown(s, dt), dt)
  }

  function TickAll(s: DashState, dts: seq<real>): DashState
    decreases |dts|
  {
    if dts == [] then s else TickAll(Tick(s, dts[0]), dts[1..])
  }

  /** The cooldown stays on while fewer seconds than its counter holds have passed. */
  lemma {:induction false} CooldownHolds(s: DashState, dts: seq<real>)
    requires s.isDashOnCooldown && NonNegative(dts) && Sum(dts) < s.cooldownTimer
    ensures TickAll(s, dts).isDashOnCooldown
    ensures TickAll(s, dts).cooldownTimer == s.cooldownTimer - Sum(dts)
    decreases |dts|
  {
    if dts != [] {
      NonNegativeTail(dts);
      SumNonNegative(dts[1..]);
      CooldownHolds(Tick(s, dts[0]), dts[1..]);
    }
  }

  /** A flag that is off stays off: nothing but a new dash sets it. */
  lemma {:induction false} ClearedFlagsStayCleared(s: DashState, dts: seq<real>)
    ensures !s.isDashOnCooldown ==> !TickAll(s, dts).isDashOnCooldown
    ensures !s.isDashing ==> !TickAll(s, dts).isDashing
    decreases |dts|
  {
    if dts != [] {
      ClearedFlagsStayCleared(Tick(s, dts[0]), dts[1..]);
    }
  }

  /**
   * Once the frames have used up the counter, the cooldown ends at the next
   * frame's check.
   */
  lemma {:induction false} CooldownLifts(s: DashState, dts: seq<real>, next: real)
    requires s.isDashOnCooldown && NonNegative(dts) && Sum(dts) >= s.cooldownTimer
    ensures !TickAll(s, dts + [next]).isDashOnCooldown
    decreases |dts|
  {
    var t := Tick(s, (dts + [next])[0]);
    assert (dts + [next])[1..] == if dts == [] then [] else dts[1..] + [next];
    if s.cooldownTimer <= 0.0 {
      ClearedFlagsStayCleared(t, (dts + [next])[1..]);
    } else {
      assert dts != [];
      NonNegativeTail(dts);
      CooldownLifts(t, dts[1..], next);
    }
  }

  /** The dash lasts while fewer seconds than its remaining time have passed. */
  lemma {:induction false} DashHolds(s: DashState, dts: seq<real>)
    requires s.isDashing && NonNegative(dts) && Sum(dts) < s.dashRemaining
    ensures TickAll(s, dts).isDashing
    ensures TickAll(s, dts).dashRemaining == s.dashRemaining - Sum(dts)
    decreases |dts|
  {
    if dts != [] {
      NonNegativeTail(dts);
      SumNonNegative(dts[1..]);
      DashHolds(Tick(s, dts[0]), dts[1..]);
    }
  }

  /** The dash is over after at least one frame once frames totalling its remaining time have passed. */
  lemma {:induction false} DashEnds(s: DashState, dts: seq<real>)
    requires s.isDashing && dts != [] && NonNegative(dts) && Sum(dts) >= s.dashRemaining
    ensures !TickAll(s, dts).isDashing
    decreases |dts|
  {
    NonNegativeTail(dts);
    var t := Tick(s, dts[0]);
    if !t.isDashing {
      ClearedFlagsStayCleared(t, dts[1..]);
    } else {
      assert dts[1..] != [];
      DashEnds(t, dts[1..]);
    }
  }

  /**
   * Within the cooldown a second roll is ignored: if the frame of the dash
   * and the frames after it add up to less than dashCooldownTime, the state
   * is still on cooldown and another grounded, moving roll request leaves it
   * unchanged.
   */
  lemma RollIgnoredDuringCooldown(s: DashState, dashTime: real, dashCooldownTime: real, dt0: real, dts: seq<real>, dt1: real)
    requires CanDash(s, true) && dashCooldownTime > 0.0
    requires NonNegative(dts) && dt0 + Sum(dts) < dashCooldownTime
    ensures var t := TickAll(CharacterDash(s, true, dashTime, dashCooldownTime, dt0), dts);
            t.isDashOnCooldown && OnRollInput(t, true, true, dashTime, dashCooldownTime, dt1) == t
  {
    CooldownHolds(CharacterDash(s, true, dashTime, dashCooldownTime, dt0), dts);
  }

  /**
   * After the cooldown: once the frame of the dash and the frames after it
   * add up to dashCooldownTime, one more frame lifts the cooldown, and after
   * that a grounded, moving roll starts a new dash provided the dash itself
   * is over.
   */
  lemma RollAcceptedAfterCooldown(s: DashState, dashTime: real, dashCooldownTime: real, dt0: real, dts: seq<real>, next: real, dt1: real)
    requires CanDash(s, true) && dashCooldownTime > 0.0
    requires NonNegative(dts) && dt0 + Sum(dts) >= dashCooldownTime
    ensures var t := TickAll(CharacterDash(s, true, dashTime, dashCooldownTime, dt0), dts + [next]);
            !t.isDashOnCooldown && (!t.isDashing ==> OnRollInput(t, true, true, dashTime, dashCooldownTime, dt1).isDashing)
  {
    CooldownLifts(CharacterDash(s, true, dashTime, dashCooldownTime, dt0), dts, next);
  }
}
