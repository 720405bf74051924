/**
 * PlayerMovemntController: the character's state held in fields and updated
 * in place by the input handlers, the two attack-animation events, Update and
 * the coroutine frames. Engine queries become parameters: `grounded` is what
 * CharacterController.isGrounded reports at the moment of the call, `dt` is
 * Time.deltaTime, and `forward` is the facing (transform.forward) after the
 * rotation step of Update.
 */
module Controller {
  import opened Vectors
  import JumpArc
  import ComboAttack
  import Dashing
  import Locomotion

  class PlayerMovemntController {
    const tuning: Locomotion.Tuning

    // player input
    var currentMovementInput: Vec2
    var currentMovement: Vec3        // x, z: input axis; y: vertical velocity
    var isMovementPressed: bool
    var dashMovement: Vec3           // y is never assigned and stays 0

    // jump
    const gravity: real
    const initialJumpVelocity: real
    var isJumpPressed: bool
    var isJumping: bool
    var isJumpAnimating: bool

    // dash, with the state of its two coroutines
    var isDashing: bool
    var dashRemaining: real
    var isDashOnCooldown: bool
    var cooldownTimer: real

    // sword attack, with the state of the reset coroutine
    var attackCount: int
    var isAttacking: bool
    var canGoForwardOnAttack: bool
    var resetStarted: bool           // attackResetRoutine != null
    var resetPending: bool
    var resetRemaining: real

    // animator parameters that are not copies of a field
    var walking: bool
    var shownAttackCount: int

    // the Move request issued by the last Update
    var lastMove: Locomotion.Move

    function ComboView(): ComboAttack.ComboState
      reads this
    {
      ComboAttack.ComboState(attackCount, isAttacking, canGoForwardOnAttack,
                             resetStarted, resetPending, resetRemaining, shownAttackCount)
    }

    function DashView(): Dashing.DashState
      reads this
    {
      Dashing.DashState(isDashing, dashRemaining, isDashOnCooldown, cooldownTimer)
    }

    function VerticalView(): JumpArc.VerticalState
      reads this
    {
      JumpArc.VerticalState(currentMovement.y, isJumping, isJumpAnimating, isJumpPressed)
    }

    /**
     * The object invariant: the combo invariant holds, isJumping is never set,
     * and the walk direction, the dash direction and isMovementPressed all
     * follow the last movement input.
     */
    ghost predicate Valid()
      reads this
    {
      ComboAttack.Inv(ComboView())
      && !isJumping
      && currentMovement.x == currentMovementInput.x && currentMovement.z == currentMovementInput.y
      && dashMovement == Vec3(currentMovementInput.x, 0.0, currentMovementInput.y)
      && isMovementPressed == (currentMovementInput.x != 0.0 || currentMovementInput.y != 0.0)
    }

    /** Awake: everything at rest, and the jump arc derived from the fixed apex height and time. */
    constructor (tuning: Locomotion.Tuning)
      ensures Valid()
      ensures this.tuning == tuning
      ensures JumpArc.JumpVariables(gravity, initialJumpVelocity)
              == JumpArc.SetUpJumpVariables(JumpArc.MaxJumpHeight, JumpArc.MaxJumpTime)
      ensures ComboView() == ComboAttack.Initial && DashView() == Dashing.Idle
      ensures VerticalView() == JumpArc.VerticalState(0.0, false, false, false)
      ensures currentMovementInput == Vec2(0.0, 0.0) && !walking && lastMove == Locomotion.NoMove
    {
      this.tuning := tuning;
      currentMovementInput := Vec2(0.0, 0.0);
      currentMovement := Vec3(0.0, 0.0, 0.0);
      isMovementPressed := false;
      dashMovement := Vec3(0.0, 0.0, 0.0);
      var j := JumpArc.SetUpJumpVariables(JumpArc.MaxJumpHeight, JumpArc.MaxJumpTime);
      gravity := j.gravity;
      initialJumpVelocity := j.initialJumpVelocity;
      isJumpPressed := false;
      isJumping := false;
      isJumpAnimating := false;
      isDashing := false;
      dashRemaining := 0.0;
      isDashOnCooldown := false;
      cooldownTimer := 0.0;
      attackCount := 0;
      isAttacking := false;
      canGoForwardOnAttack := false;
      resetStarted := false;
      resetPending := false;
      resetRemaining := 0.0;
      walking := false;
      shownAttackCount := 0;
      lastMove := Locomotion.NoMove;
    }

    /**
     * OnMovementInput: the walk direction and the dash direction both take the
     * new axis value, during a dash too, and isMovementPressed says whether it
     * is non-zero. The vertical velocity is kept.
     */
    method OnMovementInput(input: Vec2)
      requires Valid()
      modifies this`currentMovementInput, this`currentMovement, this`isMovementPressed, this`dashMovement
      ensures Valid()
      ensures currentMovementInput == input
      ensures isMovementPressed <==> input.x != 0.0 || input.y != 0.0
      ensures currentMovement == Vec3(input.x, old(currentMovement.y), input.y)
      ensures dashMovement == Vec3(input.x, 0.0, input.y)
    {
      currentMovementInput := input;
      currentMovement := currentMovement.(x := input.x, z := input.y);
      isMovementPressed := input.x != 0.0 || input.y != 0.0;
      dashMovement := dashMovement.(x := input.x, z := input.y);
    }

    /** OnJumpPressed: the jump button's state is latched. */
    method OnJumpPressed(pressed: bool)
      requires Valid()
      modifies this`isJumpPressed
      ensures Valid()
      ensures isJumpPressed == pressed
    {
      isJumpPressed := pressed;
    }

    /** OnRollInput: a dash is attempted only on the ground. */
    method OnRollInput(grounded: bool, dt: real)
      requires Valid()
      modifies this`isDashing, this`dashRemaining, this`isDashOnCooldown, this`cooldownTimer
      ensures Valid()
      ensures DashView() == Dashing.OnRollInput(old(DashView()), grounded, isMovementPressed,
                                                tuning.dashTime, tuning.dashCooldownTime, dt)
    {
      if grounded {
        CharacterDash(dt);
      }
    }

    /** CharacterDash: both dash coroutines start when a dash may start. */
    method CharacterDash(dt: real)
      requires Valid()
      modifies this`isDashing, this`dashRemaining, this`isDashOnCooldown, this`cooldownTimer
      ensures Valid()
      ensures DashView() == Dashing.CharacterDash(old(DashView()), isMovementPressed,
                                                  tuning.dashTime, tuning.dashCooldownTime, dt)
    {
      if isMovementPressed && !isDashing && !isDashOnCooldown {
        StartDashCooldown(dt);
        DashRoutine();
      }
    }

    /** StartDashCooldown, from its start to its first yield. */
    method StartDashCooldown(dt: real)
      requires Valid()
      modifies this`isDashOnCooldown, this`cooldownTimer
      ensures Valid()
      ensures DashView() == Dashing.StartDashCooldown(old(DashView()), tuning.dashCooldownTime, dt)
    {
      isDashOnCooldown := true;
      cooldownTimer := tuning.dashCooldownTime;
      if cooldownTimer > 0.0 {
        cooldownTimer := cooldownTimer - dt;
      } else {
        isDashOnCooldown := false;
      }
    }

    /** DashRoutine, from its start to its wait. */
    method DashRoutine()
      requires Valid()
      modifies this`isDashing, this`dashRemaining
      ensures Valid()
      ensures DashView() == Dashing.DashRoutine(old(DashView()), tuning.dashTime)
    {
      isDashing := true;
      dashRemaining := tuning.dashTime;
    }

    /** Attack (the SwordAttack handler). */
    method Attack(grounded: bool)
      requires Valid()
      modifies this`isAttacking, this`canGoForwardOnAttack, this`attackCount, this`resetPending,
               this`shownAttackCount
      ensures Valid()
      ensures ComboView() == ComboAttack.Attack(old(ComboView()), grounded)
    {
      if grounded && !isAttacking {
        isAttacking := true;
        canGoForwardOnAttack := true;
        if attackCount < 3 && resetStarted {
          resetPending := false;
          attackCount := attackCount + 1;
          shownAttackCount := attackCount;
        }
      }
    }

    /** HalfAttack, the animation event that closes the lunge window. */
    method HalfAttack()
      requires Valid()
      modifies this`canGoForwardOnAttack
      ensures Valid()
      ensures ComboView() == ComboAttack.HalfAttack(old(ComboView()))
    {
      canGoForwardOnAttack := false;
    }

    /** EndAttack, the animation event at the end of an attack. */
    method EndAttack()
      requires Valid()
      modifies this`isAttacking, this`attackCount, this`resetStarted, this`resetPending,
               this`resetRemaining, this`shownAttackCount
      ensures Valid()
      ensures ComboView() == ComboAttack.EndAttack(old(ComboView()))
    {
      if isAttacking {
        isAttacking := false;
        shownAttackCount := attackCount;
        resetStarted := true;
        resetPending := true;
        resetRemaining := ComboAttack.ResetDelay;
        if attackCount == 3 {
          attackCount := 0;
          shownAttackCount := attackCount;
        }
      }
    }

    /** HandleAnimation: the Walking parameter is brought in line with isMovementPressed. */
    method HandleAnimation()
      requires Valid()
      modifies this`walking
      ensures Valid()
      ensures walking == isMovementPressed
    {
      var isWalking := walking;
      if isMovementPressed && !isWalking {
        walking := true;
      } else if !isMovementPressed && isWalking {
        walking := false;
      }
    }

    /** HandleGravity. */
    method HandleGravity(grounded: bool, dt: real)
      requires Valid()
      modifies this`currentMovement, this`isJumpAnimating
      ensures Valid()
      ensures VerticalView() == JumpArc.HandleGravity(old(VerticalView()), grounded, gravity, dt)
      ensures currentMovement.x == old(currentMovement.x) && currentMovement.z == old(currentMovement.z)
    {
      if grounded {
        if isJumpAnimating {
          isJumpAnimating := false;
        }
        currentMovement := currentMovement.(y := JumpArc.GroundedGravity);
      } else {
        currentMovement := currentMovement.(y := JumpArc.AirborneStep(currentMovement.y, gravity, dt));
      }
    }

    /** HandleJump. */
    method HandleJump(grounded: bool)
      requires Valid()
      modifies this`currentMovement, this`isJumpAnimating, this`isJumpPressed
      ensures Valid()
      ensures VerticalView() == JumpArc.HandleJump(old(VerticalView()), grounded, initialJumpVelocity)
      ensures currentMovement.x == old(currentMovement.x) && currentMovement.z == old(currentMovement.z)
    {
      if !isJumping && grounded && isJumpPressed {
        isJumpAnimating := true;
        isJumpPressed := true;
        currentMovement := currentMovement.(y := initialJumpVelocity * 0.5);
      } else if !isJumpPressed && isJumping && grounded {
        // isJumping is never set (Valid), so this branch of the source is dead
        assert false;
      }
    }

    /**
     * Update: animation, rotation (external; its result is `forward`), one
     * move chosen by Locomotion.ChooseMove from the velocity as it was before
     * this frame's gravity, then gravity, then the jump.
     */
    method Update(grounded: bool, dt: real, forward: Vec3)
      requires Valid()
      modifies this`walking, this`lastMove, this`currentMovement, this`isJumpAnimating, this`isJumpPressed
      ensures Valid()
      ensures walking == isMovementPressed
      ensures lastMove == Locomotion.ChooseMove(canGoForwardOnAttack, isDashing, old(currentMovement),
                                                dashMovement, forward, tuning, dt)
      ensures VerticalView() == JumpArc.HandleJump(JumpArc.HandleGravity(old(VerticalView()), grounded, gravity, dt),
                                                   grounded, initialJumpVelocity)
      ensures currentMovement.x == old(currentMovement.x) && currentMovement.z == old(currentMovement.z)
    {
      HandleAnimation();
      if !canGoForwardOnAttack && !isDashing {
        lastMove := Locomotion.Walk(Scale(Scale(currentMovement, tuning.speed), dt));
      } else if isDashing && !canGoForwardOnAttack {
        lastMove := Locomotion.DashMove(Scale(Scale(dashMovement, tuning.dashingSpeed), dt));
      } else if canGoForwardOnAttack && !isDashing {
        lastMove := Locomotion.Lunge(Scale(Scale(forward, tuning.attackingSpeed), dt));
      } else {
        lastMove := Locomotion.NoMove;
      }
      HandleGravity(grounded, dt);
      HandleJump(grounded);
    }

    /** One frame of AttackResetRoutine. */
    method ResumeAttackReset(dt: real)
      requires Valid()
      modifies this`attackCount, this`resetPending, this`resetRemaining
      ensures Valid()
      ensures ComboView() == ComboAttack.ResetTick(old(ComboView()), dt)
    {
      if resetPending {
        resetRemaining := resetRemaining - dt;
        if resetRemaining <= 0.0 {
          resetPending := false;
          attackCount := 0;
        }
      }
    }

    /** One frame of StartDashCooldown's loop. */
    method ResumeDashCooldown(dt: real)
      requires Valid()
      modifies this`isDashOnCooldown, this`cooldownTimer
      ensures Valid()
      ensures DashView() == Dashing.ResumeCooldown(old(DashView()), dt)
    {
      if isDashOnCooldown {
        if cooldownTimer > 0.0 {
          cooldownTimer := cooldownTimer - dt;
        } else {
          isDashOnCooldown := false;
        }
      }
    }

    /** One frame of DashRoutine's wait. */
    method ResumeDash(dt: real)
      requires Valid()
      modifies this`isDashing, this`dashRemaining
      ensures Valid()
      ensures DashView() == Dashing.ResumeDash(old(DashView()), dt)
    {
      if isDashing {
        dashRemaining := dashRemaining - dt;
        if dashRemaining <= 0.0 {
          isDashing := false;
        }
      }
    }

    /** Tick: one frame of every suspended coroutine, after Update. */
    method Tick(dt: real)
      requires Valid()
      modifies this`attackCount, this`resetPending, this`resetRemaining,
               this`isDashOnCooldown, this`cooldownTimer, this`isDashing, this`dashRemaining
      ensures Valid()
      ensures ComboView() == ComboAttack.ResetTick(old(ComboView()), dt)
      ensures DashView() == Dashing.Tick(old(DashView()), dt)
    {
      ResumeAttackReset(dt);
      ResumeDashCooldown(dt);
      ResumeDash(dt);
    }
  }

  /**
   * Attacking during a dash sets the lunge flag while the dash flag is still
   * on, and the next Update issues no move at all.
   */
  method AttackDuringDashIssuesNoMove(tuning: Locomotion.Tuning, dt: real) returns (m: Locomotion.Move)
    ensures m == Locomotion.NoMove
  {
    var c := new PlayerMovemntController(tuning);
    c.OnMovementInput(Vec2(1.0, 0.0));
    c.OnRollInput(true, dt);
    c.Attack(true);
    c.Update(true, dt, Vec3(0.0, 0.0, 1.0));
    m := c.lastMove;
  }

  /** A jump pressed on the ground launches at 20/7, half the derived initial velocity 40/7. */
  method JumpFromRest(tuning: Locomotion.Tuning, dt: real) returns (velocityY: real)
    ensures velocityY == 20.0 / 7.0
  {
    var c := new PlayerMovemntController(tuning);
    c.OnJumpPressed(true);
    c.Update(true, dt, Vec3(0.0, 0.0, 1.0));
    JumpArc.DefaultJumpVariables();
    velocityY := c.currentMovement.y;
  }
}
