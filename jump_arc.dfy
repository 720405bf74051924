/**
 * The jump arc: gravity and launch velocity derived from the apex height and
 * time, the per-frame vertical velocity update (HandleGravity) and the launch
 * (HandleJump).
 */
module JumpArc {
  import opened Timing

  /** Vertical velocity held while grounded, keeping the controller pressed onto the floor. */
  const GroundedGravity: real := -0.05
  /** Factor applied to gravity while falling. */
  const FallMultiplier: real := 2.0
  /** The controller's fixed jump constants. */
  const MaxJumpHeight: real := 1.0
  const MaxJumpTime: real := 0.7

  datatype JumpVariables = JumpVariables(gravity: real, initialJumpVelocity: real)

  /** The apex is reached halfway through the jump. */
  function TimeToApex(maxJumpTime: real): real
  {
    maxJumpTime / 2.0
  }

  /**
   * SetUpJumpVariables. The two results describe a ballistic arc that stops
   * rising exactly at the apex time and peaks exactly at the apex height.
   */
  function SetUpJumpVariables(maxJumpHeight: real, maxJumpTime: real): (j: JumpVariables)
    requires maxJumpTime != 0.0
    ensures j.gravity == -j.initialJumpVelocity / TimeToApex(maxJumpTime)
    ensures j.initialJumpVelocity * TimeToApex(maxJumpTime)
            + j.gravity * TimeToApex(maxJumpTime) * TimeToApex(maxJumpTime) / 2.0 == maxJumpHeight
    ensures maxJumpHeight > 0.0 && maxJumpTime > 0.0 ==> j.gravity < 0.0 && j.initialJumpVelocity > 0.0
  {
    var timeToApex := maxJumpTime / 2.0;
    SquarePositive(timeToApex);
    var g := (-2.0 * maxJumpHeight) / (timeToApex * timeToApex);
    var v := (2.0 * maxJumpHeight) / timeToApex;
    ApexRelations(maxJumpHeight, timeToApex, g, v);
    JumpVariables(g, v)
  }

  /** The algebra behind the contract of SetUpJumpVariables. */
  lemma ApexRelations(h: real, a: real, g: real, v: real)
    requires a != 0.0 && a * a > 0.0
    requires g == (-2.0 * h) / (a * a) && v == (2.0 * h) / a
    ensures g == -v / a
    ensures v * a + g * a * a / 2.0 == h
    ensures h > 0.0 && a > 0.0 ==> g < 0.0 && v > 0.0
  {
    assert g * (a * a) == -2.0 * h;
    assert v * a == 2.0 * h;
    assert (g * a + v) * a == 0.0;
    assert g * a == -v;
  }

  lemma SquarePositive(a: real)
    requires a != 0.0
    ensures a * a > 0.0
  {
  }

  /** The velocity HandleJump gives on a launch: half the derived initial velocity. */
  function LaunchVelocity(j: JumpVariables): real
  {
    j.initialJumpVelocity * 0.5
  }

  /** With the controller's constants (apex height 1, jump time 0.7 s) the arc is g = -800/49 and v = 40/7. */
  lemma DefaultJumpVariables()
    ensures SetUpJumpVariables(MaxJumpHeight, MaxJumpTime) == JumpVariables(-800.0 / 49.0, 40.0 / 7.0)
    ensures -16.33 < -800.0 / 49.0 < -16.32 && 5.71 < 40.0 / 7.0 < 5.72
    ensures LaunchVelocity(SetUpJumpVariables(MaxJumpHeight, MaxJumpTime)) == 20.0 / 7.0
    ensures 2.857 < 20.0 / 7.0 < 2.858
  {
  }

  /**
   * The airborne branch of HandleGravity: the average of the old velocity and
   * the velocity after one gravity step, with doubled gravity while falling
   * (velocity at or below zero). The net change is a full gravity step when
   * falling and half of one when rising.
   */
  function AirborneStep(velocityY: real, gravity: real, dt: real): (next: real)
    ensures velocityY <= 0.0 ==> next == velocityY + gravity * dt
    ensures velocityY > 0.0 ==> next == velocityY + gravity * dt / 2.0
    ensures gravity < 0.0 && dt > 0.0 ==> next < velocityY
  {
    var previousYVelocity := velocityY;
    if velocityY <= 0.0 then
      var newYVelocity := velocityY + gravity * FallMultiplier * dt;
      (previousYVelocity + newYVelocity) * 0.5
    else
      var newYVelocity := velocityY + gravity * dt;
      (previousYVelocity + newYVelocity) * 0.5
  }

  /** The falling decrement is twice the rising one, for the same gravity and frame time. */
  lemma FallingDecrementIsDouble(falling: real, rising: real, gravity: real, dt: real)
    requires falling <= 0.0 < rising
    ensures falling - AirborneStep(falling, gravity, dt) == 2.0 * (rising - AirborneStep(rising, gravity, dt))
  {
  }

  /** The vertical part of the controller's state. */
  datatype VerticalState = VerticalState(
    velocityY: real,        // currentMovement.y
    isJumping: bool,
    isJumpAnimating: bool,
    isJumpPressed: bool)

  /**
   * HandleGravity. Grounded: the velocity becomes GroundedGravity whatever it
   * was, and the jump animation flag is cleared. Airborne: one AirborneStep.
   * The jump flags are not touched.
   */
  function HandleGravity(v: VerticalState, grounded: bool, gravity: real, dt: real): (r: VerticalState)
    ensures grounded ==> r.velocityY == GroundedGravity && !r.isJumpAnimating
    ensures !grounded ==> r.velocityY == AirborneStep(v.velocityY, gravity, dt) && r.isJumpAnimating == v.isJumpAnimating
    ensures r.isJumping == v.isJumping && r.isJumpPressed == v.isJumpPressed
  {
    if grounded then
      v.(isJumpAnimating := false, velocityY := GroundedGravity)
    else
      v.(velocityY := AirborneStep(v.velocityY, gravity, dt))
  }

  /** The launch condition of HandleJump. */
  predicate Launches(v: VerticalState, grounded: bool)
  {
    !v.isJumping && grounded && v.isJumpPressed
  }

  /**
   * HandleJump. A launch sets the velocity to half the initial jump velocity
   * and starts the jump animation; in every other case, including the
   * else-if branch of the source, the state is left as it was. isJumping is
   * never changed.
   */
  function HandleJump(v: VerticalState, grounded: bool, initialJumpVelocity: real): (r: VerticalState)
    ensures Launches(v, grounded) ==> r == v.(velocityY := initialJumpVelocity * 0.5, isJumpAnimating := true)
    ensures !Launches(v, grounded) ==> r == v
    ensures r.isJumping == v.isJumping
  {
    if !v.isJumping && grounded && v.isJumpPressed then
      v.(isJumpAnimating := true, isJumpPressed := true, velocityY := initialJumpVelocity * 0.5)
    else if !v.isJumpPressed && v.isJumping && grounded then
      v.(isJumpPressed := false)
    else
      v
  }

  /**
   * The vertical part of one Update: gravity first, then the jump. A grounded
   * frame ends at the launch velocity when the jump is pressed and at
   * GroundedGravity otherwise, whatever the velocity was before.
   */
  lemma GroundedFrame(v: VerticalState, gravity: real, dt: real, initialJumpVelocity: real)
    requires !v.isJumping
    ensures var r := HandleJump(HandleGravity(v, true, gravity, dt), true, initialJumpVelocity);
            r.velocityY == (if v.isJumpPressed then initialJumpVelocity * 0.5 else GroundedGravity)
            && r.isJumpAnimating == v.isJumpPressed
  {
  }

  /** n airborne frames of equal duration. */
  function AirborneFrames(velocityY: real, gravity: real, dt: real, n: nat): real
    decreases n
  {
    if n == 0 then velocityY else AirborneFrames(AirborneStep(velocityY, gravity, dt), gravity, dt, n - 1)
  }

  /** Once falling, the velocity drops by exactly gravity * dt per airborne frame. */
  lemma {:induction false} FallingFramesAreLinear(velocityY: real, gravity: real, dt: real, n: nat)
    requires velocityY <= 0.0 && gravity <= 0.0 && dt >= 0.0
    ensures AirborneFrames(velocityY, gravity, dt, n) == velocityY + (n as real) * gravity * dt
    decreases n
  {
    if n > 0 {
      var next := AirborneStep(velocityY, gravity, dt);
      assert gravity * dt <= 0.0;
      FallingFramesAreLinear(next, gravity, dt, n - 1);
      assert next + ((n - 1) as real) * gravity * dt == velocityY + (n as real) * gravity * dt;
    }
  }

  /**
   * While rising, the velocity drops by exactly gravity * dt / 2 per airborne
   * frame; the condition says the velocity was still positive before the last
   * of the n frames.
   */
  lemma {:induction false} RisingFramesAreLinear(velocityY: real, gravity: real, dt: real, n: nat)
    requires gravity <= 0.0 && dt >= 0.0
    requires n > 0 ==> velocityY + ((n - 1) as real) * gravity * dt / 2.0 > 0.0
    ensures AirborneFrames(velocityY, gravity, dt, n) == velocityY + (n as real) * gravity * dt / 2.0
    decreases n
  {
    if n > 0 {
      assert gravity * dt <= 0.0;
      assert ((n - 1) as real) * gravity * dt <= 0.0 by {
        assert ((n - 1) as real) * (gravity * dt) <= 0.0;
      }
      assert velocityY > 0.0;
      var next := AirborneStep(velocityY, gravity, dt);
      assert next == velocityY + gravity * dt / 2.0;
      RisingFramesAreLinear(next, gravity, dt, n - 1);
      assert next + ((n - 1) as real) * gravity * dt / 2.0 == velocityY + (n as real) * gravity * dt / 2.0;
    }
  }

  /**
   * The half-impulse launch and the halved rising step fit together: after
   * airborne frames totalling the apex time, the vertical velocity of a jump
   * is exactly zero.
   */
  lemma {:induction false} LaunchStopsRisingAtApexTime(maxJumpHeight: real, maxJumpTime: real, dt: real, n: nat)
    requires maxJumpHeight > 0.0 && maxJumpTime > 0.0 && dt > 0.0
    requires (n as real) * dt == TimeToApex(maxJumpTime)
    ensures var j := SetUpJumpVariables(maxJumpHeight, maxJumpTime);
            AirborneFrames(LaunchVelocity(j), j.gravity, dt, n) == 0.0
  {
    var j := SetUpJumpVariables(maxJumpHeight, maxJumpTime);
    var t := TimeToApex(maxJumpTime);
    var y0 := LaunchVelocity(j);
    assert j.gravity * t == -j.initialJumpVelocity;
    assert n > 0;
    assert y0 + (n as real) * j.gravity * dt / 2.0 == 0.0 by {
      assert (n as real) * j.gravity * dt == j.gravity * t;
    }
    assert j.gravity * dt < 0.0;
    var k := n as real;
    assert ((n - 1) as real) == k - 1.0;
    assert (k - 1.0) * j.gravity * dt == k * j.gravity * dt - j.gravity * dt;
    assert y0 + ((n - 1) as real) * j.gravity * dt / 2.0 == -(j.gravity * dt) / 2.0;
    assert y0 + ((n - 1) as real) * j.gravity * dt / 2.0 > 0.0;
    assert j.gravity <= 0.0;
    RisingFramesAreLinear(y0, j.gravity, dt, n);
  }
}
