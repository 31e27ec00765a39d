/**
 * The controller's systems: the attachment state machine, gravity, the input
 * integrator, the collide-and-slide resolver, the player move and the ground
 * probe, and one full step running them in order.
 */
module ControllerSystems {
  import opened Wrappers
  import opened Vectors
  import opened ControllerMath
  import opened Controller
  import opened ControllerParams
  import opened Input

  /** At most this many hits are reported by the ground probe. */
  const GROUND_CAST_MAX_HITS: nat := 3
  /** `f32::EPSILON`. */
  const F32_EPSILON: real := 0.00000011920929

  /** What the resolver hands back; it never proposes an attachment or a velocity. */
  datatype MovementResult = MovementResult(newPosition: Vec3, newAttachment: Option<Attachment>, newVelocity: Option<Vec3>)

  datatype JumpMode = NoJump | Regular

  /** Horizontal input moves along x only; planar input works relative to the ground normal. */
  datatype ManoeuvreMode =
    | HorizontalInput(factors: Manoeuvrability)
    | PlanarInput(factors: Manoeuvrability, normal: Vec3)

  // ---------------------------------------------------------------- markers

  /** The ground hit is shallow enough to count as ground at all. */
  predicate Grounding(ground: Option<HitProperties>, p: CharacterControllerParams) {
    ground.Some? && ground.value.normalAngle <= p.maxSlidingSlopeAngle
  }

  /** The ground hit is shallow enough to walk on. */
  predicate SlopeIsWalkable(ground: Option<HitProperties>, p: CharacterControllerParams) {
    ground.Some? && ground.value.normalAngle <= p.maxWalkingSlopeAngle
  }

  /**
   * The attachment after the marker update. An airborne player lands on
   * ground that is walkable; a grounded player is detached when the ground is
   * gone or is not walkable, and otherwise keeps the attachment it has.
   */
  function NextAttachment(attachment: Option<Attachment>, ground: Option<HitProperties>, p: CharacterControllerParams): (r: Option<Attachment>)
    ensures r.Some? <==> Grounding(ground, p) && SlopeIsWalkable(ground, p)
    ensures attachment.Some? && r.Some? ==> r == attachment
    ensures attachment.None? && r.Some? ==> r == Some(Grounded(ground.value.normal))
  {
    var grounding := if Grounding(ground, p) then Some(ground.value.normal) else None;
    var slopeIsWalkable := SlopeIsWalkable(ground, p);
    match attachment
    case None =>
      if grounding.Some? && slopeIsWalkable then Some(Grounded(grounding.value)) else None
    case Some(Grounded(_)) =>
      if grounding.None? then None
      else if !slopeIsWalkable then None
      else attachment
  }

  /** The attachment, if any, carries a normal that is walkable when measured again. */
  predicate WalkableAttachment(attachment: Option<Attachment>, p: CharacterControllerParams, g: Geometry) {
    attachment.Some? ==> g.angleBetween(attachment.value.normal, Up) <= p.maxWalkingSlopeAngle
  }

  /**
   * Every attachment the marker update produces is walkable, provided the
   * stored angle of the ground hit is the angle of its stored normal.
   */
  lemma NextAttachmentWalkable(attachment: Option<Attachment>, ground: Option<HitProperties>, p: CharacterControllerParams, g: Geometry)
    requires WalkableAttachment(attachment, p, g)
    requires ground.Some? ==> ConsistentHit(ground.value, g)
    ensures WalkableAttachment(NextAttachment(attachment, ground, p), p, g)
  {
  }

  // ---------------------------------------------------------------- gravity

  /** Grounded on a slope whose normal is walkable when measured again. */
  predicate OnWalkableGround(attachment: Option<Attachment>, p: CharacterControllerParams, g: Geometry) {
    attachment.Some? && g.angleBetween(attachment.value.normal, Up) <= p.maxWalkingSlopeAngle
  }

  /** The gravity and the cap on vertical speed applying to the player. */
  function GravityFor(attachment: Option<Attachment>, p: CharacterControllerParams, g: Geometry): (r: (Vec3, real))
    ensures r.1 == p.terminalVelocity
    ensures r.0 == Zero || r.0 == p.gravity
    ensures p.gravity != Zero ==> (r.0 == Zero <==> OnWalkableGround(attachment, p, g))
  {
    match attachment
    case None => (p.gravity, p.terminalVelocity)
    case Some(Grounded(normal)) =>
      var isWalkable := g.angleBetween(normal, Up) <= p.maxWalkingSlopeAngle;
      if isWalkable then (Zero, p.terminalVelocity) else (p.gravity, p.terminalVelocity)
  }

  /** The vertical velocity after gravity is applied for `deltaTime`. */
  function GravityVelocityY(vy: real, attachment: Option<Attachment>, p: CharacterControllerParams, g: Geometry, deltaTime: real): real {
    var (gravity, terminalVelocity) := GravityFor(attachment, p, g);
    ApproachVelocity(vy, gravity.y, deltaTime, terminalVelocity)
  }

  /**
   * With downward gravity and cap, a vertical speed between the cap and rest
   * stays there; on walkable ground it does not change at all.
   */
  lemma GravityKeepsVerticalSpeedInRange(vy: real, attachment: Option<Attachment>, p: CharacterControllerParams, g: Geometry, deltaTime: real)
    requires Sane(p) && deltaTime >= 0.0
    requires p.terminalVelocity <= vy <= 0.0
    ensures p.terminalVelocity <= GravityVelocityY(vy, attachment, p, g, deltaTime) <= 0.0
    ensures OnWalkableGround(attachment, p, g) ==> GravityVelocityY(vy, attachment, p, g, deltaTime) == vy
  {
    var (gravity, terminalVelocity) := GravityFor(attachment, p, g);
    assert p.gravity.y < 0.0;
    ApproachVelocityMovesTowardTerminal(vy, gravity.y, deltaTime, terminalVelocity);
    if OnWalkableGround(attachment, p, g) {
      ApproachVelocityWithoutAcceleration(vy, deltaTime, terminalVelocity);
    }
  }

  // ---------------------------------------------------------------- inputs

  /** Which jump is possible and how input steers, decided by the attachment. */
  function Modes(attachment: Option<Attachment>, p: CharacterControllerParams, g: Geometry): (r: (JumpMode, ManoeuvreMode))
    ensures r.0 == Regular <==> attachment.Some?
    ensures r.1.PlanarInput? <==> OnWalkableGround(attachment, p, g)
    ensures r.1.PlanarInput? ==> r.1.normal == attachment.value.normal
    ensures attachment.Some? ==> r.1.factors == p.groundMovement
    ensures attachment.None? ==> r.1.factors == p.aerialMovement
  {
    match attachment
    case Some(Grounded(normal)) =>
      var normalAngle := g.angleBetween(normal, Up);
      var inputMode :=
        if normalAngle <= p.maxWalkingSlopeAngle then PlanarInput(p.groundMovement, normal)
        else HorizontalInput(p.groundMovement);
      (Regular, inputMode)
    case None => (NoJump, HorizontalInput(p.aerialMovement))
  }

  /** The axis is released: `|x| < f32::EPSILON`. */
  predicate NoInput(inputX: real) {
    Abs(inputX) < F32_EPSILON
  }

  /**
   * The (base, profile) acceleration pair: the forward pair unless the velocity
   * points against the input by at least `f32::EPSILON`, the reverse pair then.
   */
  function InputFactors(velocityProjection: real, base: Manoeuvrability, factors: Manoeuvrability): (r: (real, real))
    ensures velocityProjection > -F32_EPSILON ==> r == (base.inputFactor, factors.inputFactor)
    ensures velocityProjection <= -F32_EPSILON ==> r == (base.reverseInputFactor, factors.reverseInputFactor)
  {
    if Abs(velocityProjection) < F32_EPSILON || velocityProjection > 0.0 then (base.inputFactor, factors.inputFactor)
    else (base.reverseInputFactor, factors.reverseInputFactor)
  }

  /**
   * The magnitude of the input acceleration for a velocity whose projection on
   * the input direction is `velocityProjection`: profile factor times base factor.
   */
  function PushAcceleration(velocityProjection: real, base: Manoeuvrability, factors: Manoeuvrability): real {
    var (baseFactor, inputFactor) := InputFactors(velocityProjection, base, factors);
    inputFactor * baseFactor
  }

  /** The top speed of a profile: its speed factor times the base speed factor. */
  function TopSpeed(base: Manoeuvrability, factors: Manoeuvrability): real {
    factors.speedFactor * base.speedFactor
  }

  /** The stop time of a profile: its stop factor times the base stop factor. */
  function StopTime(base: Manoeuvrability, factors: Manoeuvrability): real {
    factors.stopFactor * base.stopFactor
  }

  /** Both stop times the input integrator divides by are non-zero. */
  predicate StopTimesNonzero(p: CharacterControllerParams) {
    StopTime(p.baseMovement, p.groundMovement) != 0.0 && StopTime(p.baseMovement, p.aerialMovement) != 0.0
  }

  lemma SaneStopTimesNonzero(p: CharacterControllerParams)
    requires Sane(p)
    ensures StopTimesNonzero(p)
  {
    MulStrict(p.groundMovement.stopFactor, p.baseMovement.stopFactor);
    MulStrict(p.aerialMovement.stopFactor, p.baseMovement.stopFactor);
  }

  /** The x velocity under horizontal input: coast to rest when released, otherwise accelerate towards the signed top speed. */
  function HorizontalX(vx: real, inputX: real, deltaTime: real, base: Manoeuvrability, factors: Manoeuvrability): real
    requires StopTime(base, factors) != 0.0
  {
    if NoInput(inputX) then
      ApproachZero(vx, deltaTime, TopSpeed(base, factors), StopTime(base, factors))
    else
      ApproachVelocity(vx, PushAcceleration(vx * inputX, base, factors) * inputX, deltaTime, TopSpeed(base, factors) * inputX)
  }

  /** Profiles whose accelerations are non-negative and whose top speed and stop time are positive. */
  predicate PositiveProfiles(base: Manoeuvrability, factors: Manoeuvrability) {
    base.inputFactor >= 0.0 && base.reverseInputFactor >= 0.0 && base.speedFactor > 0.0 && base.stopFactor > 0.0
    && factors.inputFactor >= 0.0 && factors.reverseInputFactor >= 0.0 && factors.speedFactor > 0.0 && factors.stopFactor > 0.0
  }

  lemma PositiveProfilesRates(base: Manoeuvrability, factors: Manoeuvrability)
    requires PositiveProfiles(base, factors)
    ensures TopSpeed(base, factors) > 0.0 && StopTime(base, factors) > 0.0
    ensures TopSpeed(base, factors) / StopTime(base, factors) > 0.0
  {
    MulStrict(factors.stopFactor, base.stopFactor);
    MulStrict(factors.speedFactor, base.speedFactor);
  }

  /** Released, the x velocity decays towards zero without changing sign. */
  lemma HorizontalXReleasedDecays(vx: real, deltaTime: real, base: Manoeuvrability, factors: Manoeuvrability)
    requires PositiveProfiles(base, factors) && deltaTime >= 0.0
    ensures StopTime(base, factors) != 0.0
    ensures vx >= 0.0 ==> 0.0 <= HorizontalX(vx, 0.0, deltaTime, base, factors) <= vx
    ensures vx < 0.0 ==> vx <= HorizontalX(vx, 0.0, deltaTime, base, factors) <= 0.0
  {
    PositiveProfilesRates(base, factors);
    assert NoInput(0.0);
    ApproachZeroNeverOvershoots(vx, deltaTime, TopSpeed(base, factors), StopTime(base, factors));
  }

  lemma PushAccelerationNonnegative(velocityProjection: real, base: Manoeuvrability, factors: Manoeuvrability)
    requires PositiveProfiles(base, factors)
    ensures PushAcceleration(velocityProjection, base, factors) >= 0.0
  {
    var (baseFactor, inputFactor) := InputFactors(velocityProjection, base, factors);
    MulNonneg(inputFactor, baseFactor);
  }

  lemma PushedTowards(a: real, speed: real, inputX: real)
    requires a >= 0.0 && speed > 0.0 && (inputX == -1.0 || inputX == 1.0)
    ensures Towards(a * inputX, speed * inputX)
  {
    if inputX == 1.0 { assert a * inputX == a && speed * inputX == speed; }
    else { assert a * inputX == -a && speed * inputX == -speed; }
  }

  /** Pushed left or right, the x velocity moves towards that side's top speed and never past it. */
  lemma HorizontalXPushedConverges(vx: real, inputX: real, deltaTime: real, base: Manoeuvrability, factors: Manoeuvrability)
    requires PositiveProfiles(base, factors) && deltaTime >= 0.0
    requires inputX == -1.0 || inputX == 1.0
    ensures StopTime(base, factors) != 0.0
    ensures Min(vx, TopSpeed(base, factors) * inputX) <= HorizontalX(vx, inputX, deltaTime, base, factors)
    ensures HorizontalX(vx, inputX, deltaTime, base, factors) <= Max(vx, TopSpeed(base, factors) * inputX)
  {
    PositiveProfilesRates(base, factors);
    var a := PushAcceleration(vx * inputX, base, factors);
    assert !NoInput(inputX);
    PushAccelerationNonnegative(vx * inputX, base, factors);
    PushedTowards(a, TopSpeed(base, factors), inputX);
    ApproachVelocityMovesTowardTerminal(vx, a * inputX, deltaTime, TopSpeed(base, factors) * inputX);
  }

  /** The part of `v` that lies in the plane with unit normal `n`. */
  function InPlane(v: Vec3, n: Vec3): Vec3 {
    Sub(v, Scale(Dot(v, n), n))
  }

  /**
   * Planar mode without input: the component along the ground normal is
   * dropped and the in-plane speed decays towards rest, keeping its direction.
   */
  function PlanarCoast(v: Vec3, normal: Vec3, deltaTime: real, maxSpeed: real, stopTime: real, g: Geometry): Vec3
    requires ValidGeometry(g) && stopTime != 0.0
  {
    var planarVelocity := InPlane(v, normal);
    var newSpeed := ApproachZero(g.length(planarVelocity), deltaTime, maxSpeed, stopTime);
    Scale(newSpeed, NormalizeOrZero(g, planarVelocity))
  }

  /**
   * The coasting velocity is a multiple between zero and one of the in-plane
   * velocity, scaled so that its speed is the decelerated in-plane speed.
   */
  lemma PlanarCoastShrinksInPlane(v: Vec3, normal: Vec3, deltaTime: real, maxSpeed: real, stopTime: real, g: Geometry)
    requires ValidGeometry(g) && stopTime != 0.0 && maxSpeed / stopTime > 0.0 && deltaTime >= 0.0
    ensures exists k: real :: 0.0 <= k <= 1.0
              && PlanarCoast(v, normal, deltaTime, maxSpeed, stopTime, g) == Scale(k, InPlane(v, normal))
              && k * g.length(InPlane(v, normal)) == ApproachZero(g.length(InPlane(v, normal)), deltaTime, maxSpeed, stopTime)
  {
    var planar := InPlane(v, normal);
    var speed := g.length(planar);
    ApproachZeroNeverOvershoots(speed, deltaTime, maxSpeed, stopTime);
    ScaledDirection(g, planar, ApproachZero(speed, deltaTime, maxSpeed, stopTime));
  }

  /** For a unit normal, the in-plane part has no component along the normal, so neither has the coasting velocity. */
  lemma PlanarCoastDiscardsNormalComponent(v: Vec3, normal: Vec3, deltaTime: real, maxSpeed: real, stopTime: real, g: Geometry)
    requires ValidGeometry(g) && stopTime != 0.0 && maxSpeed / stopTime > 0.0 && deltaTime >= 0.0
    requires Dot(normal, normal) == 1.0
    ensures Dot(InPlane(v, normal), normal) == 0.0
    ensures Dot(PlanarCoast(v, normal, deltaTime, maxSpeed, stopTime, g), normal) == 0.0
  {
    assert Dot(v, normal) / Dot(normal, normal) == Dot(v, normal);
    RejectionOrthogonal(v, normal, Dot(v, normal));
    PlanarCoastShrinksInPlane(v, normal, deltaTime, maxSpeed, stopTime, g);
    var k: real :| 0.0 <= k <= 1.0 && PlanarCoast(v, normal, deltaTime, maxSpeed, stopTime, g) == Scale(k, InPlane(v, normal));
    DotScale(k, InPlane(v, normal), normal);
  }

  /**
   * Planar mode with input, as written: the velocity is split into the
   * unsigned projection on the input direction and the rest, and that
   * unsigned speed is driven towards the top speed.
   */
  function PlanarPushAsWritten(v: Vec3, inputX: real, deltaTime: real, base: Manoeuvrability, factors: Manoeuvrability, g: Geometry): Vec3
    requires ValidGeometry(g)
  {
    var inputDirection := Vec3(inputX, 0.0, 0.0);
    var velocityProjection := Dot(v, inputDirection);
    var planarVelocity := Scale(Abs(velocityProjection), inputDirection);
    var perpendicularVelocity := Sub(v, planarVelocity);
    var newSpeed := ApproachVelocity(
      g.length(planarVelocity),
      PushAcceleration(velocityProjection, base, factors) * Abs(inputX),
      deltaTime,
      TopSpeed(base, factors) * Abs(inputX));
    Add(perpendicularVelocity, Scale(newSpeed, inputDirection))
  }

  /**
   * Planar mode with input, corrected: the signed projection on the input
   * direction is driven towards the top speed, and the rest of the velocity
   * is kept.
   */
  function PlanarPush(v: Vec3, inputX: real, deltaTime: real, base: Manoeuvrability, factors: Manoeuvrability): Vec3 {
    var inputDirection := Vec3(inputX, 0.0, 0.0);
    var velocityProjection := Dot(v, inputDirection);
    var alongVelocity := Scale(velocityProjection, inputDirection);
    var perpendicularVelocity := Sub(v, alongVelocity);
    var newProjection := ApproachVelocity(
      velocityProjection,
      PushAcceleration(velocityProjection, base, factors) * Abs(inputX),
      deltaTime,
      TopSpeed(base, factors) * Abs(inputX));
    Add(perpendicularVelocity, Scale(newProjection, inputDirection))
  }

  /** Moving left at 3.5 against a rightward push, the default ground profile accelerates with the reverse factors. */
  lemma DefaultReversePush()
    ensures PushAcceleration(-3.5, DEFAULT_BASE_MOVEMENT, DEFAULT_GROUND_MOVEMENT) == 30.0
    ensures TopSpeed(DEFAULT_BASE_MOVEMENT, DEFAULT_GROUND_MOVEMENT) == 3.0
  {
  }

  /**
   * With a rightward push, the corrected planar push drives the x velocity
   * like horizontal input does and carries the y and z components through.
   */
  lemma PlanarPushAlongX(v: Vec3, deltaTime: real, base: Manoeuvrability, factors: Manoeuvrability)
    requires StopTime(base, factors) != 0.0
    ensures PlanarPush(v, 1.0, deltaTime, base, factors)
         == v.(x := ApproachVelocity(v.x, PushAcceleration(v.x, base, factors), deltaTime, TopSpeed(base, factors)))
    ensures PlanarPush(v, 1.0, deltaTime, base, factors) == v.(x := HorizontalX(v.x, 1.0, deltaTime, base, factors))
  {
    var d := Vec3(1.0, 0.0, 0.0);
    assert Dot(v, d) == v.x;
    assert Sub(v, Scale(v.x, d)) == Vec3(0.0, v.y, v.z);
    assert v.x * 1.0 == v.x && Abs(1.0) == 1.0 && !NoInput(1.0);
    var r := ApproachVelocity(v.x, PushAcceleration(v.x, base, factors) * 1.0, deltaTime, TopSpeed(base, factors) * 1.0);
    assert HorizontalX(v.x, 1.0, deltaTime, base, factors) == r;
    assert Add(Vec3(0.0, v.y, v.z), Scale(r, d)) == v.(x := r);
  }

  /**
   * With a rightward push, the code as written drives the speed `|vx|`,
   * keeps `vx - |vx|` beside it, and carries the y and z components through.
   */
  lemma PlanarPushAsWrittenAlongX(v: Vec3, deltaTime: real, base: Manoeuvrability, factors: Manoeuvrability, g: Geometry)
    requires ValidGeometry(g)
    ensures PlanarPushAsWritten(v, 1.0, deltaTime, base, factors, g)
         == v.(x := v.x - Abs(v.x) + ApproachVelocity(Abs(v.x), PushAcceleration(v.x, base, factors), deltaTime, TopSpeed(base, factors)))
  {
    var d := Vec3(1.0, 0.0, 0.0);
    assert Dot(v, d) == v.x;
    assert Scale(Abs(v.x), d) == Vec3(Abs(v.x), 0.0, 0.0);
    LengthAlongX(g, Abs(v.x));
    assert Abs(Abs(v.x)) == Abs(v.x) && Abs(1.0) == 1.0;
    assert PushAcceleration(v.x, base, factors) * 1.0 == PushAcceleration(v.x, base, factors);
    assert TopSpeed(base, factors) * 1.0 == TopSpeed(base, factors);
  }

  lemma ApproachVelocityCapsOvershoot()
    ensures ApproachVelocity(3.5, 30.0, 0.01, 3.0) == 3.0
  {
    assert 3.5 + 30.0 * 0.01 == 3.8;
  }

  lemma ApproachVelocityPlainStep()
    ensures ApproachVelocity(-3.5, 30.0, 0.01, 3.0) == -3.2
  {
    assert -3.5 + 30.0 * 0.01 == -3.2;
  }

  /** With the velocity 3.5 against a rightward push on flat ground, the code as written speeds the player further left. */
  lemma PlanarPushAsWrittenPushesAway(g: Geometry)
    requires ValidGeometry(g)
    ensures PlanarPushAsWritten(Vec3(-3.5, 0.0, 0.0), 1.0, 0.01, DEFAULT_BASE_MOVEMENT, DEFAULT_GROUND_MOVEMENT, g)
         == Vec3(-4.0, 0.0, 0.0)
  {
    DefaultReversePush();
    PlanarPushAsWrittenAlongX(Vec3(-3.5, 0.0, 0.0), 0.01, DEFAULT_BASE_MOVEMENT, DEFAULT_GROUND_MOVEMENT, g);
    ApproachVelocityCapsOvershoot();
  }

  /** On the same input the corrected push slows the leftward motion. */
  lemma PlanarPushSlowsReverseMotion()
    ensures PlanarPush(Vec3(-3.5, 0.0, 0.0), 1.0, 0.01, DEFAULT_BASE_MOVEMENT, DEFAULT_GROUND_MOVEMENT) == Vec3(-3.2, 0.0, 0.0)
  {
    DefaultReversePush();
    PlanarPushAlongX(Vec3(-3.5, 0.0, 0.0), 0.01, DEFAULT_BASE_MOVEMENT, DEFAULT_GROUND_MOVEMENT);
    ApproachVelocityPlainStep();
  }

  /** Damping at the cap: one step at 30 from the top speed 3 comes back to 3. */
  lemma ApproachVelocityHoldsCap()
    ensures ApproachVelocity(3.0, 30.0, 0.01, 3.0) == 3.0
  {
    assert 3.0 + 30.0 * 0.01 == 3.3;
    assert 3.3 - (30.0 / 3.0) * 3.3 * 0.01 == 2.97;
  }

  lemma ApproachVelocityTurnStep()
    ensures ApproachVelocity(-3.0, 30.0, 0.01, 3.0) == -2.7
  {
    assert -3.0 + 30.0 * 0.01 == -2.7;
  }

  /**
   * Walking left at the ground top speed 3 with the default profiles, a
   * rightward push as written leaves the velocity exactly where it was: the
   * player cannot turn around.
   */
  lemma PlanarPushAsWrittenCannotTurnAround(g: Geometry)
    requires ValidGeometry(g)
    ensures PlanarPushAsWritten(Vec3(-3.0, 0.0, 0.0), 1.0, 0.01, DEFAULT_BASE_MOVEMENT, DEFAULT_GROUND_MOVEMENT, g)
         == Vec3(-3.0, 0.0, 0.0)
  {
    assert PushAcceleration(-3.0, DEFAULT_BASE_MOVEMENT, DEFAULT_GROUND_MOVEMENT) == 30.0;
    assert TopSpeed(DEFAULT_BASE_MOVEMENT, DEFAULT_GROUND_MOVEMENT) == 3.0;
    PlanarPushAsWrittenAlongX(Vec3(-3.0, 0.0, 0.0), 0.01, DEFAULT_BASE_MOVEMENT, DEFAULT_GROUND_MOVEMENT, g);
    ApproachVelocityHoldsCap();
  }

  /** On the same input the corrected push starts to turn the player around. */
  lemma PlanarPushTurnsAround()
    ensures PlanarPush(Vec3(-3.0, 0.0, 0.0), 1.0, 0.01, DEFAULT_BASE_MOVEMENT, DEFAULT_GROUND_MOVEMENT) == Vec3(-2.7, 0.0, 0.0)
  {
    assert PushAcceleration(-3.0, DEFAULT_BASE_MOVEMENT, DEFAULT_GROUND_MOVEMENT) == 30.0;
    assert TopSpeed(DEFAULT_BASE_MOVEMENT, DEFAULT_GROUND_MOVEMENT) == 3.0;
    PlanarPushAlongX(Vec3(-3.0, 0.0, 0.0), 0.01, DEFAULT_BASE_MOVEMENT, DEFAULT_GROUND_MOVEMENT);
    ApproachVelocityTurnStep();
  }

  /** The player jumps when the jump key was just pressed while attached. */
  predicate Jumps(attachment: Option<Attachment>, inputs: Movement) {
    inputs.justPressedJump && attachment.Some?
  }

  /** The jump impulse, when a jump is possible and was just asked for, then the depth component cleared. */
  function JumpedAndPinned(steered: Vec3, jumpMode: JumpMode, inputs: Movement, base: Manoeuvrability): Vec3 {
    var jumped := if inputs.justPressedJump && jumpMode == Regular then steered.(y := steered.y + base.jumpFactor) else steered;
    jumped.(z := 0.0)
  }

  /**
   * The velocity after the input system, as the code computes it: steering
   * in the mode the attachment selects (with the planar push as written),
   * then the jump impulse, then the depth component cleared, which keeps the
   * player in the x-y plane.
   */
  function InputsVelocity(v: Vec3, attachment: Option<Attachment>, inputs: Movement, p: CharacterControllerParams, g: Geometry, deltaTime: real): (r: Vec3)
    requires ValidGeometry(g) && StopTimesNonzero(p)
    ensures r.z == 0.0
  {
    var (jumpMode, manoeuvreMode) := Modes(attachment, p, g);
    var inputX := inputs.inputDirectionX;
    var base := p.baseMovement;
    var steered :=
      match manoeuvreMode
      case HorizontalInput(factors) =>
        v.(x := HorizontalX(v.x, inputX, deltaTime, base, factors))
      case PlanarInput(factors, normal) =>
        if NoInput(inputX) then PlanarCoast(v, normal, deltaTime, TopSpeed(base, factors), StopTime(base, factors), g)
        else PlanarPushAsWritten(v, inputX, deltaTime, base, factors, g);
    JumpedAndPinned(steered, jumpMode, inputs, base)
  }

  /** The input system with the planar push corrected to drive the signed projection. */
  function CorrectedInputsVelocity(v: Vec3, attachment: Option<Attachment>, inputs: Movement, p: CharacterControllerParams, g: Geometry, deltaTime: real): (r: Vec3)
    requires ValidGeometry(g) && StopTimesNonzero(p)
    ensures r.z == 0.0
  {
    var (jumpMode, manoeuvreMode) := Modes(attachment, p, g);
    var inputX := inputs.inputDirectionX;
    var base := p.baseMovement;
    var steered :=
      match manoeuvreMode
      case HorizontalInput(factors) =>
        v.(x := HorizontalX(v.x, inputX, deltaTime, base, factors))
      case PlanarInput(factors, normal) =>
        if NoInput(inputX) then PlanarCoast(v, normal, deltaTime, TopSpeed(base, factors), StopTime(base, factors), g)
        else PlanarPush(v, inputX, deltaTime, base, factors);
    JumpedAndPinned(steered, jumpMode, inputs, base)
  }

  /** For a velocity that does not point against a unit push, the push as written and the corrected push agree. */
  lemma PlanarPushesAgree(v: Vec3, inputX: real, deltaTime: real, base: Manoeuvrability, factors: Manoeuvrability, g: Geometry)
    requires ValidGeometry(g)
    requires (inputX == -1.0 || inputX == 1.0) && v.x * inputX >= 0.0
    ensures PlanarPushAsWritten(v, inputX, deltaTime, base, factors, g) == PlanarPush(v, inputX, deltaTime, base, factors)
  {
    var d := Vec3(inputX, 0.0, 0.0);
    var projection := Dot(v, d);
    assert projection == v.x * inputX;
    assert Abs(projection) == projection;
    assert Scale(projection, d) == Vec3(projection * inputX, 0.0, 0.0);
    LengthAlongX(g, projection * inputX);
    assert Abs(projection * inputX) == projection by {
      if inputX == 1.0 { assert projection * inputX == projection; }
      else { assert projection * inputX == -projection; }
    }
  }

  /**
   * The correction changes the input system only for a player on walkable
   * ground pushed against its current x velocity; with the axis at -1, 0
   * or 1, every other input gives the same velocity either way.
   */
  lemma CorrectionOnlyAffectsReversePlanarPush(v: Vec3, attachment: Option<Attachment>, inputs: Movement, p: CharacterControllerParams, g: Geometry, deltaTime: real)
    requires ValidGeometry(g) && StopTimesNonzero(p)
    requires AxisPosition(inputs.inputDirectionX)
    requires !OnWalkableGround(attachment, p, g) || inputs.inputDirectionX == 0.0 || v.x * inputs.inputDirectionX >= 0.0
    ensures CorrectedInputsVelocity(v, attachment, inputs, p, g, deltaTime) == InputsVelocity(v, attachment, inputs, p, g, deltaTime)
  {
    var inputX := inputs.inputDirectionX;
    if OnWalkableGround(attachment, p, g) && inputX != 0.0 {
      assert !NoInput(inputX);
      PlanarPushesAgree(v, inputX, deltaTime, p.baseMovement, p.groundMovement, g);
    }
  }

  /**
   * A jump adds exactly the base jump impulse to the vertical velocity the
   * same input without the jump would give; anything else gives that velocity.
   */
  lemma InputsJumpImpulse(v: Vec3, attachment: Option<Attachment>, inputs: Movement, p: CharacterControllerParams, g: Geometry, deltaTime: real)
    requires ValidGeometry(g) && StopTimesNonzero(p)
    ensures var withoutJump := InputsVelocity(v, attachment, inputs.(justPressedJump := false), p, g, deltaTime);
            InputsVelocity(v, attachment, inputs, p, g, deltaTime)
            == if Jumps(attachment, inputs) then withoutJump.(y := withoutJump.y + p.baseMovement.jumpFactor) else withoutJump
  {
  }

  /** In the air only the x velocity is steered: the vertical velocity is untouched and there is no jump. */
  lemma AirborneInputsKeepVerticalSpeed(v: Vec3, inputs: Movement, p: CharacterControllerParams, g: Geometry, deltaTime: real)
    requires ValidGeometry(g) && StopTimesNonzero(p)
    ensures InputsVelocity(v, None, inputs, p, g, deltaTime)
         == Vec3(HorizontalX(v.x, inputs.inputDirectionX, deltaTime, p.baseMovement, p.aerialMovement), v.y, 0.0)
  {
  }

  /**
   * Standing on walkable ground and pushed right without jumping, the
   * corrected input system gives the ground profile's horizontal integration
   * along x, whichever way the player was moving.
   */
  lemma FlatGroundPushIsHorizontal(vx: real, normal: Vec3, p: CharacterControllerParams, g: Geometry, deltaTime: real)
    requires ValidGeometry(g) && StopTimesNonzero(p)
    requires g.angleBetween(normal, Up) <= p.maxWalkingSlopeAngle
    ensures CorrectedInputsVelocity(Vec3(vx, 0.0, 0.0), Some(Grounded(normal)), Movement(1.0, false, false), p, g, deltaTime)
         == Vec3(HorizontalX(vx, 1.0, deltaTime, p.baseMovement, p.groundMovement), 0.0, 0.0)
  {
    assert !NoInput(1.0);
    PlanarPushAlongX(Vec3(vx, 0.0, 0.0), deltaTime, p.baseMovement, p.groundMovement);
  }

  // ---------------------------------------------------------------- resolver

  /**
   * The engine's single shape cast from `origin` along a unit `direction`,
   * no farther than `maxDistance`, with the player's own body excluded; it
   * reports the closest hit, if any.
   */
  type ShapeCast = (Cylinder, Vec3, Vec3, real) -> Option<ShapeHit>

  /** What the engine promises of a cast: the hit lies within range and the surface normal is a unit vector. */
  ghost predicate ValidCast(cast: ShapeCast) {
    forall shape, origin, direction, maxDistance ::
      cast(shape, origin, direction, maxDistance).Some? ==>
        && 0.0 <= cast(shape, origin, direction, maxDistance).value.distance <= maxDistance
        && Dot(cast(shape, origin, direction, maxDistance).value.normal2, cast(shape, origin, direction, maxDistance).value.normal2) == 1.0
  }

  /** The part of the leftover displacement that runs along the surface: its component along the normal is removed. */
  function SlideDisplacement(remaining: Vec3, normal: Vec3): (r: Vec3)
    requires Dot(normal, normal) != 0.0
    ensures Dot(r, normal) == 0.0
    ensures exists k: real :: Sub(remaining, r) == Scale(k, normal)
  {
    var alongNormal := ProjectOnto(remaining, normal);
    assert Sub(remaining, Sub(remaining, alongNormal)) == alongNormal;
    Sub(remaining, alongNormal)
  }

  /**
   * The outcome of one cast of the resolver: no direction to cast in (a zero
   * displacement), a clear path, or a surface with normal `normal` hit after
   * travelling `travelled` along the direction, leaving `slide` to move along it.
   */
  datatype CastOutcome =
    | NoDirection
    | Clear
    | Blocked(travelled: real, collisionPosition: Vec3, slide: Vec3, normal: Vec3)

  /** One cast of the resolver: cast along the displacement, and on a hit stop `skin` short and slide the rest. */
  function CastStep(cast: ShapeCast, shape: Cylinder, position: Vec3, displacement: Vec3, skin: real, g: Geometry): CastOutcome
    requires ValidGeometry(g) && ValidCast(cast)
  {
    match Direction(g, displacement)
    case None => NoDirection
    case Some(direction) =>
      match cast(shape, position, direction, g.length(displacement) + skin)
      case None => Clear
      case Some(hit) =>
        var travelled := hit.distance - skin;
        var travel := Scale(travelled, direction);
        var remaining := Sub(displacement, travel);
        Blocked(travelled, Add(position, travel), SlideDisplacement(remaining, hit.normal2), hit.normal2)
  }

  /**
   * One cast of the resolver. On a hit the collider stops `skin` short of the
   * reported distance, so it travels between `-skin` and the full length of
   * the displacement, and what is left of the displacement loses its
   * component along the unit surface normal.
   */
  lemma CastStepOutcome(cast: ShapeCast, shape: Cylinder, position: Vec3, displacement: Vec3, skin: real, g: Geometry)
    requires ValidGeometry(g) && ValidCast(cast)
    ensures var r := CastStep(cast, shape, position, displacement, skin, g);
      && (r.NoDirection? <==> displacement == Zero)
      && (r.Blocked? ==> -skin <= r.travelled <= g.length(displacement))
      && (r.Blocked? ==> r.collisionPosition == Add(position, Scale(r.travelled, Direction(g, displacement).value)))
      && (r.Blocked? ==> Dot(r.normal, r.normal) == 1.0 && Dot(r.slide, r.normal) == 0.0)
      && (r.Blocked? ==> exists k: real :: Sub(Sub(displacement, Scale(r.travelled, Direction(g, displacement).value)), r.slide) == Scale(k, r.normal))
  {
  }

  /**
   * One cast of the resolver reports what the engine's cast along the
   * displacement's direction, over its length plus the skin, returned: it is
   * blocked exactly when that cast hits, having travelled the hit's distance
   * less the skin, against the hit's `normal2`.
   */
  lemma CastStepFollowsCast(cast: ShapeCast, shape: Cylinder, position: Vec3, displacement: Vec3, skin: real, g: Geometry)
    requires ValidGeometry(g) && ValidCast(cast) && displacement != Zero
    ensures var r := CastStep(cast, shape, position, displacement, skin, g);
            var hit := cast(shape, position, Direction(g, displacement).value, g.length(displacement) + skin);
            && (r.Blocked? <==> hit.Some?)
            && (r.Blocked? ==> r.travelled == hit.value.distance - skin && r.normal == hit.value.normal2)
  {
  }

  /**
   * A hit on a bounce before the last moves the collider `distance - skin`
   * along the direction of travel and resolves from there the leftover
   * displacement with its component along the hit normal removed, as the
   * next bounce.
   */
  lemma MiddleBounceSlides(cast: ShapeCast, shape: Cylinder, position: Vec3, displacement: Vec3,
                           bounceNo: nat, maxBounces: nat, skin: real, g: Geometry, direction: Vec3, hit: ShapeHit)
    requires ValidGeometry(g) && ValidCast(cast) && bounceNo + 1 < maxBounces
    requires Direction(g, displacement) == Some(direction)
    requires cast(shape, position, direction, g.length(displacement) + skin) == Some(hit)
    ensures MoveAndCollideAndSlide(cast, shape, position, displacement, bounceNo, maxBounces, skin, g)
         == MoveAndCollideAndSlide(cast, shape, Add(position, Scale(hit.distance - skin, direction)),
                                   SlideDisplacement(Sub(displacement, Scale(hit.distance - skin, direction)), hit.normal2),
                                   bounceNo + 1, maxBounces, skin, g)
  {
    var travel := Scale(hit.distance - skin, direction);
    var next, slide := Add(position, travel), SlideDisplacement(Sub(displacement, travel), hit.normal2);
    assert CastStep(cast, shape, position, displacement, skin, g) == Blocked(hit.distance - skin, next, slide, hit.normal2);
    BlockedBounce(cast, shape, position, displacement, bounceNo, maxBounces, skin, g, next, slide);
  }

  /** A blocked cast before the last bounce hands its collision position and slide on to the next bounce. */
  lemma BlockedBounce(cast: ShapeCast, shape: Cylinder, position: Vec3, displacement: Vec3,
                      bounceNo: nat, maxBounces: nat, skin: real, g: Geometry, next: Vec3, slide: Vec3)
    requires ValidGeometry(g) && ValidCast(cast) && bounceNo + 1 < maxBounces
    requires var outcome := CastStep(cast, shape, position, displacement, skin, g);
             outcome.Blocked? && outcome.collisionPosition == next && outcome.slide == slide
    ensures MoveAndCollideAndSlide(cast, shape, position, displacement, bounceNo, maxBounces, skin, g)
            == MoveAndCollideAndSlide(cast, shape, next, slide, bounceNo + 1, maxBounces, skin, g)
  {
  }

  /**
   * Moves from `position` by `displacement`, stopping `skin` short of the
   * first surface the collider would hit and sliding the rest of the way
   * along it, for at most `maxBounces` casts in all (counting from
   * `bounceNo`). It never proposes an attachment or a velocity.
   */
  function MoveAndCollideAndSlide(cast: ShapeCast, shape: Cylinder, position: Vec3, displacement: Vec3,
                                  bounceNo: nat, maxBounces: nat, skin: real, g: Geometry): (r: MovementResult)
    requires ValidGeometry(g) && ValidCast(cast)
    ensures r.newAttachment == None && r.newVelocity == None
    decreases maxBounces - bounceNo
  {
    match CastStep(cast, shape, position, displacement, skin, g)
    case NoDirection => MovementResult(Add(position, displacement), None, None)
    case Clear => MovementResult(Add(position, displacement), None, None)
    case Blocked(_, collisionPosition, slide, _) =>
      if bounceNo + 1 < maxBounces then
        MoveAndCollideAndSlide(cast, shape, collisionPosition, slide, bounceNo + 1, maxBounces, skin, g)
      else
        MovementResult(collisionPosition, None, None)
  }

  /** The number of casts the resolver makes. */
  function CastsMade(cast: ShapeCast, shape: Cylinder, position: Vec3, displacement: Vec3,
                     bounceNo: nat, maxBounces: nat, skin: real, g: Geometry): nat
    requires ValidGeometry(g) && ValidCast(cast)
    decreases maxBounces - bounceNo
  {
    match CastStep(cast, shape, position, displacement, skin, g)
    case NoDirection => 0
    case Clear => 1
    case Blocked(_, collisionPosition, slide, _) =>
      if bounceNo + 1 < maxBounces then 1 + CastsMade(cast, shape, collisionPosition, slide, bounceNo + 1, maxBounces, skin, g)
      else 1
  }

  /** The resolver casts at most once per bounce still allowed, and once even when none is. */
  lemma {:induction false} CastsBounded(cast: ShapeCast, shape: Cylinder, position: Vec3, displacement: Vec3,
                                        bounceNo: nat, maxBounces: nat, skin: real, g: Geometry)
    requires ValidGeometry(g) && ValidCast(cast)
    ensures CastsMade(cast, shape, position, displacement, bounceNo, maxBounces, skin, g)
            <= if bounceNo < maxBounces then maxBounces - bounceNo else 1
    decreases maxBounces - bounceNo
  {
    var outcome := CastStep(cast, shape, position, displacement, skin, g);
    if outcome.Blocked? && bounceNo + 1 < maxBounces {
      CastsBounded(cast, shape, outcome.collisionPosition, outcome.slide, bounceNo + 1, maxBounces, skin, g);
    }
  }

  /** A zero displacement, or one whose cast reports nothing, is taken in full. */
  lemma FreeFlight(cast: ShapeCast, shape: Cylinder, position: Vec3, displacement: Vec3,
                   bounceNo: nat, maxBounces: nat, skin: real, g: Geometry)
    requires ValidGeometry(g) && ValidCast(cast)
    requires displacement == Zero
          || cast(shape, position, Direction(g, displacement).value, g.length(displacement) + skin).None?
    ensures MoveAndCollideAndSlide(cast, shape, position, displacement, bounceNo, maxBounces, skin, g).newPosition
         == Add(position, displacement)
  {
  }

  /**
   * On the last bounce allowed, a hit stops the player at the collision
   * position: `distance - skin` along the direction of travel, with the
   * displacement left over discarded.
   */
  lemma LastBounceStops(cast: ShapeCast, shape: Cylinder, position: Vec3, displacement: Vec3,
                        bounceNo: nat, maxBounces: nat, skin: real, g: Geometry)
    requires ValidGeometry(g) && ValidCast(cast)
    requires displacement != Zero && bounceNo + 1 >= maxBounces
    requires cast(shape, position, Direction(g, displacement).value, g.length(displacement) + skin).Some?
    ensures var hit := cast(shape, position, Direction(g, displacement).value, g.length(displacement) + skin).value;
            MoveAndCollideAndSlide(cast, shape, position, displacement, bounceNo, maxBounces, skin, g).newPosition
            == Add(position, Scale(hit.distance - skin, Direction(g, displacement).value))
  {
  }

  // ---------------------------------------------------------------- ground probe

  /**
   * The engine's multi-hit shape cast from `origin` along a unit `direction`,
   * no farther than `maxDistance`, reporting at most `maxHits` hits in the
   * order the engine finds them.
   */
  type ShapeProbe = (Cylinder, Vec3, Vec3, nat, real) -> seq<ShapeHit>

  /** What the engine promises of a probe: no more hits than asked for, each within range and with a unit surface normal. */
  ghost predicate ValidProbe(probe: ShapeProbe) {
    forall shape, origin, direction, maxHits, maxDistance ::
      && |probe(shape, origin, direction, maxHits, maxDistance)| <= maxHits
      && (forall i :: 0 <= i < |probe(shape, origin, direction, maxHits, maxDistance)| ==>
            && 0.0 <= probe(shape, origin, direction, maxHits, maxDistance)[i].distance <= maxDistance
            && Dot(probe(shape, origin, direction, maxHits, maxDistance)[i].normal2,
                   probe(shape, origin, direction, maxHits, maxDistance)[i].normal2) == 1.0)
  }

  /** A hit the player is not moving away from fast enough to escape. */
  predicate Gripping(hit: ShapeHit, velocity: Vec3, escapeIncidence: real) {
    Dot(hit.normal1, velocity) < escapeIncidence
  }

  /** The first hit, in cast order, that grips the player. */
  function FirstGripping(hits: seq<ShapeHit>, velocity: Vec3, escapeIncidence: real): (r: Option<ShapeHit>)
    ensures r.None? <==> forall i :: 0 <= i < |hits| ==> !Gripping(hits[i], velocity, escapeIncidence)
    ensures r.Some? ==> exists i :: 0 <= i < |hits| && hits[i] == r.value && Gripping(hits[i], velocity, escapeIncidence)
                                    && forall j :: 0 <= j < i ==> !Gripping(hits[j], velocity, escapeIncidence)
  {
    if |hits| == 0 then None
    else if Gripping(hits[0], velocity, escapeIncidence) then Some(hits[0])
    else
      var rest := FirstGripping(hits[1..], velocity, escapeIncidence);
      assert rest.Some? ==> exists i :: 1 <= i < |hits| && hits[i] == rest.value && Gripping(hits[i], velocity, escapeIncidence)
                                    && forall j :: 0 <= j < i ==> !Gripping(hits[j], velocity, escapeIncidence) by {
        if rest.Some? {
          var i :| 0 <= i < |hits[1..]| && hits[1..][i] == rest.value && Gripping(hits[1..][i], velocity, escapeIncidence)
                   && forall j :: 0 <= j < i ==> !Gripping(hits[1..][j], velocity, escapeIncidence);
          assert hits[i + 1] == rest.value;
          assert forall j :: 0 <= j < i + 1 ==> !Gripping(hits[j], velocity, escapeIncidence) by {
            forall j | 0 <= j < i + 1 ensures !Gripping(hits[j], velocity, escapeIncidence) {
              if j > 0 { assert hits[j] == hits[1..][j - 1]; }
            }
          }
        }
      }
      assert rest.None? ==> forall i :: 0 <= i < |hits| ==> !Gripping(hits[i], velocity, escapeIncidence) by {
        if rest.None? {
          forall i | 0 <= i < |hits| ensures !Gripping(hits[i], velocity, escapeIncidence) {
            if i > 0 { assert hits[i] == hits[1..][i - 1]; }
          }
        }
      }
      rest
  }

  /** The ground hit the probe records for a player at `translation` moving with `velocity`. */
  function ProbeGround(probe: ShapeProbe, translation: Vec3, velocity: Vec3, rotation: Quat, p: CharacterControllerParams, g: Geometry): Option<HitProperties> {
    var shapeHits := probe(Collider(p.colliderSkinThickness), translation, Down, GROUND_CAST_MAX_HITS, GROUNDING_PROXIMITY);
    match FirstGripping(shapeHits, velocity, p.escapeIncidence)
    case None => None
    case Some(hit) => Some(FromAvianHit(hit, rotation, g))
  }

  /**
   * A recorded ground hit lies within the probe's range and carries the
   * angle of its own normal; for the unrotated player that normal is a unit
   * vector.
   */
  lemma ProbeGroundInRange(probe: ShapeProbe, translation: Vec3, velocity: Vec3, rotation: Quat, p: CharacterControllerParams, g: Geometry)
    requires ValidProbe(probe)
    ensures var ground := ProbeGround(probe, translation, velocity, rotation, p, g);
            ground.Some? ==> 0.0 <= ground.value.distance <= GROUNDING_PROXIMITY && ConsistentHit(ground.value, g)
    ensures var ground := ProbeGround(probe, translation, velocity, rotation, p, g);
            ground.Some? && UnitQuat(rotation) ==> Dot(ground.value.normal, ground.value.normal) == 1.0
  {
    var shapeHits := probe(Collider(p.colliderSkinThickness), translation, Down, GROUND_CAST_MAX_HITS, GROUNDING_PROXIMITY);
    var first := FirstGripping(shapeHits, velocity, p.escapeIncidence);
    if first.Some? {
      var i :| 0 <= i < |shapeHits| && shapeHits[i] == first.value;
      assert 0.0 <= shapeHits[i].distance <= GROUNDING_PROXIMITY;
      assert Dot(shapeHits[i].normal2, shapeHits[i].normal2) == 1.0;
      if UnitQuat(rotation) {
        DotNeg(first.value.normal2);
        RotatePreservesLength(rotation, Neg(first.value.normal2));
      }
    }
  }

  // ---------------------------------------------------------------- systems on the player entity

  /** Gravity: only the vertical velocity changes, by one step towards the terminal velocity. */
  method ApplyGravity(player: PlayerEntity, p: CharacterControllerParams, g: Geometry, deltaTime: real)
    modifies player`velocity
    ensures player.velocity == old(player.velocity).(y := GravityVelocityY(old(player.velocity).y, player.attachment, p, g, deltaTime))
  {
    var (gravity, terminalVelocity) := GravityFor(player.attachment, p, g);
    player.velocity := player.velocity.(y := ApproachVelocity(player.velocity.y, gravity.y, deltaTime, terminalVelocity));
  }

  /**
   * Inputs: the velocity is steered and a jump is applied; a jump also
   * removes the attachment once the system has finished.
   */
  method ApplyInputs(player: PlayerEntity, inputs: Movement, p: CharacterControllerParams, g: Geometry, deltaTime: real)
    requires ValidGeometry(g) && StopTimesNonzero(p)
    modifies player`velocity, player`attachment
    ensures player.velocity == InputsVelocity(old(player.velocity), old(player.attachment), inputs, p, g, deltaTime)
    ensures player.attachment == if Jumps(old(player.attachment), inputs) then None else old(player.attachment)
  {
    var (jumpMode, manoeuvreMode) := Modes(player.attachment, p, g);
    var inputX := inputs.inputDirectionX;
    var base := p.baseMovement;
    match manoeuvreMode {
      case HorizontalInput(factors) =>
        player.velocity := player.velocity.(x := HorizontalX(player.velocity.x, inputX, deltaTime, base, factors));
      case PlanarInput(factors, normal) =>
        if NoInput(inputX) {
          player.velocity := PlanarCoast(player.velocity, normal, deltaTime, TopSpeed(base, factors), StopTime(base, factors), g);
        } else {
          player.velocity := PlanarPushAsWritten(player.velocity, inputX, deltaTime, base, factors, g);
        }
    }
    var removeAttachment := false;
    if inputs.justPressedJump && jumpMode == Regular {
      player.velocity := player.velocity.(y := player.velocity.y + base.jumpFactor);
      removeAttachment := true;
    }
    player.velocity := player.velocity.(z := 0.0);
    // The removal is a deferred command: it lands after the system returns.
    if removeAttachment {
      player.attachment := None;
    }
  }

  /**
   * Moving: the resolver is run on the displacement `deltaTime * velocity`,
   * the player is placed where it ends, and the velocity becomes the
   * distance actually travelled per unit of time.
   */
  method MovePlayer(player: PlayerEntity, cast: ShapeCast, p: CharacterControllerParams, g: Geometry, deltaTime: real)
    requires ValidGeometry(g) && ValidCast(cast) && deltaTime != 0.0
    modifies player`translation, player`velocity
    ensures player.translation == MoveAndCollideAndSlide(cast, Collider(p.colliderSkinThickness), old(player.translation),
                                    Scale(deltaTime, old(player.velocity)), 0, p.maxCollisionBounces, p.colliderSkinThickness, g).newPosition
    ensures player.velocity == Div(Sub(player.translation, old(player.translation)), deltaTime)
  {
    var shape := Collider(p.colliderSkinThickness);
    var attemptedDisplacement := Scale(deltaTime, player.velocity);
    var result := MoveAndCollideAndSlide(cast, shape, player.translation, attemptedDisplacement, 0, p.maxCollisionBounces, p.colliderSkinThickness, g);
    var travel := Sub(result.newPosition, player.translation);
    player.translation := result.newPosition;
    // The resolver never proposes an attachment, so none is inserted.
    player.velocity := match result.newVelocity
      case Some(velocity) => velocity
      case None => Div(travel, deltaTime);
  }

  /**
   * A move whose displacement is zero or unobstructed gives back, as the
   * distance travelled per unit of time, the velocity it started with.
   */
  lemma FreeMoveKeepsVelocity(cast: ShapeCast, shape: Cylinder, position: Vec3, v: Vec3,
                              maxBounces: nat, skin: real, g: Geometry, deltaTime: real)
    requires ValidGeometry(g) && ValidCast(cast) && deltaTime != 0.0
    requires var displacement := Scale(deltaTime, v);
             displacement == Zero
             || cast(shape, position, Direction(g, displacement).value, g.length(displacement) + skin).None?
    ensures Div(Sub(MoveAndCollideAndSlide(cast, shape, position, Scale(deltaTime, v), 0, maxBounces, skin, g).newPosition, position), deltaTime) == v
  {
    FreeFlight(cast, shape, position, Scale(deltaTime, v), 0, maxBounces, skin, g);
    TravelPerTime(position, v, deltaTime);
  }

  lemma TravelPerTime(position: Vec3, v: Vec3, deltaTime: real)
    requires deltaTime != 0.0
    ensures Div(Sub(Add(position, Scale(deltaTime, v)), position), deltaTime) == v
  {
    assert Sub(Add(position, Scale(deltaTime, v)), position) == Scale(deltaTime, v);
    MulDivCancel(deltaTime, v.x);
    MulDivCancel(deltaTime, v.y);
    MulDivCancel(deltaTime, v.z);
  }

  lemma MulDivCancel(k: real, a: real)
    requires k != 0.0
    ensures k * a / k == a
  {
  }

  /**
   * The ground probe: the first gripping hit below the player is recorded,
   * and a grounded player with such a hit is lowered onto it, `skin` short
   * of the surface.
   */
  method QuerySurroundingHits(player: PlayerEntity, probe: ShapeProbe, p: CharacterControllerParams, g: Geometry)
    requires ValidProbe(probe)
    modifies player`hits, player`translation
    ensures player.hits == PlayerHits(ProbeGround(probe, old(player.translation), player.velocity, player.rotation, p, g))
    ensures player.attachment.Some? && player.hits.ground.Some? ==>
              player.translation == Add(old(player.translation), Scale(player.hits.ground.value.distance - p.colliderSkinThickness, Down))
    ensures player.attachment.None? || player.hits.ground.None? ==> player.translation == old(player.translation)
    ensures player.translation.x == old(player.translation).x && player.translation.z == old(player.translation).z
    ensures player.attachment.Some? && player.hits.ground.Some? ==>
              -p.colliderSkinThickness <= old(player.translation).y - player.translation.y <= GROUNDING_PROXIMITY - p.colliderSkinThickness
  {
    ProbeGroundInRange(probe, player.translation, player.velocity, player.rotation, p, g);
    player.hits := PlayerHits(ProbeGround(probe, player.translation, player.velocity, player.rotation, p, g));
    if player.attachment.Some? && player.hits.ground.Some? {
      var drop := player.hits.ground.value.distance - p.colliderSkinThickness;
      assert Scale(drop, Down) == Vec3(0.0, -drop, 0.0);
      player.translation := Add(player.translation, Scale(drop, Down));
    }
  }

  /** The marker update: the attachment becomes what the latest ground hit decides. */
  method UpdateMarkers(player: PlayerEntity, p: CharacterControllerParams)
    modifies player`attachment
    ensures player.attachment == NextAttachment(old(player.attachment), player.hits.ground, p)
  {
    var ground := player.hits.ground;
    var grounding := if Grounding(ground, p) then Some(ground.value.normal) else None;
    var slopeIsWalkable := SlopeIsWalkable(ground, p);
    match player.attachment {
      case None =>
        if grounding.Some? && slopeIsWalkable {
          player.attachment := Some(Grounded(grounding.value));
        }
      case Some(Grounded(_)) =>
        if grounding.None? || !slopeIsWalkable {
          player.attachment := None;
        }
    }
  }

  // ---------------------------------------------------------------- invariant

  /**
   * What every system keeps: the rotation is a unit quaternion, and no system
   * changes it since the player's rotation is locked; an attachment, if any,
   * is walkable and has a unit normal; and the stored ground hit has a unit
   * normal and carries that normal's angle.
   */
  ghost predicate Valid(player: PlayerEntity, p: CharacterControllerParams, g: Geometry)
    reads player
  {
    && UnitQuat(player.rotation)
    && WalkableAttachment(player.attachment, p, g)
    && (player.attachment.Some? ==> Dot(player.attachment.value.normal, player.attachment.value.normal) == 1.0)
    && (player.hits.ground.Some? ==> ConsistentHit(player.hits.ground.value, g))
    && (player.hits.ground.Some? ==> Dot(player.hits.ground.value.normal, player.hits.ground.value.normal) == 1.0)
  }

  /** A player spawned with any unit rotation satisfies the invariant from the start. */
  method Spawn(translation: Vec3, rotation: Quat, p: CharacterControllerParams, g: Geometry) returns (player: PlayerEntity)
    requires UnitQuat(rotation)
    ensures fresh(player) && Valid(player, p, g)
    ensures player.translation == translation && player.rotation == rotation && player.velocity == Zero
  {
    player := new PlayerEntity(translation, rotation);
  }

  /**
   * Under the invariant a grounded player always feels no gravity and
   * steers in the plane of the ground: the branches for an unwalkable
   * attachment in the gravity and input systems are never taken.
   */
  lemma GroundedIsWalkable(attachment: Option<Attachment>, p: CharacterControllerParams, g: Geometry)
    requires WalkableAttachment(attachment, p, g) && attachment.Some?
    ensures GravityFor(attachment, p, g).0 == Zero
    ensures Modes(attachment, p, g).1 == PlanarInput(p.groundMovement, attachment.value.normal)
  {
  }

  /** The ground probe's snap: a grounded player with a ground hit is lowered onto it, `skin` short of the surface. */
  function Snapped(translation: Vec3, attachment: Option<Attachment>, ground: Option<HitProperties>, skin: real): (r: Vec3)
    ensures r.x == translation.x && r.z == translation.z
    ensures attachment.Some? && ground.Some? ==> r.y == translation.y - (ground.value.distance - skin)
    ensures attachment.None? || ground.None? ==> r == translation
  {
    if attachment.Some? && ground.Some? then Add(translation, Scale(ground.value.distance - skin, Down)) else translation
  }

  /** The velocity systems, run together before each frame: gravity, then inputs. */
  method IntegrateVelocity(player: PlayerEntity, inputs: Movement, p: CharacterControllerParams, g: Geometry, deltaTime: real)
    requires ValidGeometry(g) && StopTimesNonzero(p)
    modifies player`velocity, player`attachment
    ensures var v0 := old(player.velocity);
            player.velocity == InputsVelocity(v0.(y := GravityVelocityY(v0.y, old(player.attachment), p, g, deltaTime)),
                                              old(player.attachment), inputs, p, g, deltaTime)
    ensures player.attachment == if Jumps(old(player.attachment), inputs) then None else old(player.attachment)
  {
    ApplyGravity(player, p, g, deltaTime);
    ApplyInputs(player, inputs, p, g, deltaTime);
  }

  /**
   * The physics-step systems: the move, then the ground probe from where the
   * move ended, which snaps a grounded player onto the ground it finds.
   */
  method MoveAndProbe(player: PlayerEntity, cast: ShapeCast, probe: ShapeProbe, p: CharacterControllerParams, g: Geometry, deltaTime: real)
    requires ValidGeometry(g) && ValidCast(cast) && ValidProbe(probe) && deltaTime != 0.0
    modifies player`translation, player`velocity, player`hits
    ensures var moved := MoveAndCollideAndSlide(cast, Collider(p.colliderSkinThickness), old(player.translation),
                                                Scale(deltaTime, old(player.velocity)), 0, p.maxCollisionBounces, p.colliderSkinThickness, g).newPosition;
            && player.velocity == Div(Sub(moved, old(player.translation)), deltaTime)
            && player.hits.ground == ProbeGround(probe, moved, player.velocity, player.rotation, p, g)
            && player.translation == Snapped(moved, player.attachment, player.hits.ground, p.colliderSkinThickness)
    ensures player.hits.ground.Some? ==> ConsistentHit(player.hits.ground.value, g)
    ensures player.hits.ground.Some? && UnitQuat(player.rotation) ==>
              Dot(player.hits.ground.value.normal, player.hits.ground.value.normal) == 1.0
  {
    MovePlayer(player, cast, p, g, deltaTime);
    ProbeGroundInRange(probe, player.translation, player.velocity, player.rotation, p, g);
    QuerySurroundingHits(player, probe, p, g);
  }

  /**
   * One step of the controller in schedule order: gravity, inputs, move,
   * ground probe, marker update. The new velocity is the distance the
   * resolver let the player travel per unit of time, the ground hit is the
   * probe from where the move ended, the translation is that end point
   * snapped to the ground, and the attachment is the marker decision on the
   * attachment the inputs left. Every step keeps the invariant.
   */
  method Step(player: PlayerEntity, inputs: Movement, cast: ShapeCast, probe: ShapeProbe,
              p: CharacterControllerParams, g: Geometry, deltaTime: real)
    requires ValidGeometry(g) && ValidCast(cast) && ValidProbe(probe)
    requires StopTimesNonzero(p) && deltaTime != 0.0
    requires Valid(player, p, g)
    modifies player
    ensures Valid(player, p, g)
    ensures player.rotation == old(player.rotation)
    ensures var v0 := old(player.velocity);
            var a0 := old(player.attachment);
            var afterInputs := InputsVelocity(v0.(y := GravityVelocityY(v0.y, a0, p, g, deltaTime)), a0, inputs, p, g, deltaTime);
            var attachmentAfterInputs := if Jumps(a0, inputs) then None else a0;
            var moved := MoveAndCollideAndSlide(cast, Collider(p.colliderSkinThickness), old(player.translation),
                                                Scale(deltaTime, afterInputs), 0, p.maxCollisionBounces, p.colliderSkinThickness, g).newPosition;
            && player.velocity == Div(Sub(moved, old(player.translation)), deltaTime)
            && player.hits.ground == ProbeGround(probe, moved, player.velocity, player.rotation, p, g)
            && player.translation == Snapped(moved, attachmentAfterInputs, player.hits.ground, p.colliderSkinThickness)
            && player.attachment == NextAttachment(attachmentAfterInputs, player.hits.ground, p)
    ensures player.attachment.Some? <==> Grounding(player.hits.ground, p) && SlopeIsWalkable(player.hits.ground, p)
  {
    IntegrateVelocity(player, inputs, p, g, deltaTime);
    MoveAndProbe(player, cast, probe, p, g, deltaTime);
    NextAttachmentWalkable(player.attachment, player.hits.ground, p, g);
    UpdateMarkers(player, p);
  }
}
