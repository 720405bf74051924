/** The per-frame choice of what the character controller is asked to move by. */
module Locomotion {
  import opened Vectors

  /** The controller's serialized tuning; only dashCooldownTime has a default in the source. */
  datatype Tuning = Tuning(
    speed: real,
    dashingSpeed: real,
    attackingSpeed: real,
    dashTime: real,
    dashCooldownTime: real)

  const DefaultDashCooldownTime: real := 2.0

  /** The Move request of one Update, or none. */
  datatype Move =
    | Walk(displacement: Vec3)
    | DashMove(displacement: Vec3)
    | Lunge(displacement: Vec3)
    | NoMove

  /**
   * The arbitration in Update. Walking (which carries the vertical velocity)
   * happens exactly when neither the lunge flag nor the dash flag is set; a
   * dash exactly when only the dash flag is set; a lunge along the facing
   * exactly when only the lunge flag is set; and no move at all when both
   * are set. The dash moves along the dash direction, the lunge along
   * `forward`, the facing the rotation step produced.
   */
  function ChooseMove(canGoForwardOnAttack: bool, isDashing: bool, currentMovement: Vec3,
                      dashMovement: Vec3, forward: Vec3, t: Tuning, dt: real): (m: Move)
    ensures m.Walk? <==> !canGoForwardOnAttack && !isDashing
    ensures m.DashMove? <==> isDashing && !canGoForwardOnAttack
    ensures m.Lunge? <==> canGoForwardOnAttack && !isDashing
    ensures m.NoMove? <==> canGoForwardOnAttack && isDashing
    ensures m.Walk? ==> m.displacement == Scale(currentMovement, t.speed * dt)
    ensures m.DashMove? ==> m.displacement == Scale(dashMovement, t.dashingSpeed * dt)
    ensures m.Lunge? ==> m.displacement == Scale(forward, t.attackingSpeed * dt)
  {
    if !canGoForwardOnAttack && !isDashing then
      Walk(Scale(Scale(currentMovement, t.speed), dt))
    else if isDashing && !canGoForwardOnAttack then
      DashMove(Scale(Scale(dashMovement, t.dashingSpeed), dt))
    else if canGoForwardOnAttack && !isDashing then
      Lunge(Scale(Scale(forward, t.attackingSpeed), dt))
    else
      NoMove
  }

  /**
   * Only a walk carries the vertical velocity: two states that differ only in
   * currentMovement.y get the same dash, lunge or absent move, and a dash
   * along a horizontal dash direction has no vertical part.
   */
  lemma OnlyWalkCarriesVerticalVelocity(canGoForwardOnAttack: bool, isDashing: bool, currentMovement: Vec3,
                                        otherY: real, dashMovement: Vec3, forward: Vec3, t: Tuning, dt: real)
    ensures var m := ChooseMove(canGoForwardOnAttack, isDashing, currentMovement, dashMovement, forward, t, dt);
            var m' := ChooseMove(canGoForwardOnAttack, isDashing, currentMovement.(y := otherY), dashMovement, forward, t, dt);
            !m.Walk? ==> m == m'
    ensures var m := ChooseMove(canGoForwardOnAttack, isDashing, currentMovement, dashMovement, forward, t, dt);
            m.DashMove? && dashMovement.y == 0.0 ==> m.displacement.y == 0.0
  {
  }
}
