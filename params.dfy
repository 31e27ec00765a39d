/** The tuning record of the character controller and its defaults. */
module ControllerParams {
  import opened Vectors
  import opened Controller

  datatype CharacterControllerParams = CharacterControllerParams(
    /** Base accelerations, jump impulse, top speed and stop time, multiplied by a profile below. */
    baseMovement: Manoeuvrability,
    groundMovement: Manoeuvrability,
    aerialMovement: Manoeuvrability,
    gravity: Vec3,
    /** Amount by which the collider is shrunk for shape casts. */
    colliderSkinThickness: real,
    /** How many surfaces one movement step may slide along. */
    maxCollisionBounces: nat,
    /** Ground hits whose `normal1 . velocity` reaches this value are ignored. */
    escapeIncidence: real,
    terminalVelocity: real,
    buoyantTerminalVelocity: real,
    maxWalkingSlopeAngle: real,
    maxSlidingSlopeAngle: real)

  /** `std::f32::consts::FRAC_PI_4`. */
  const FRAC_PI_4: real := 0.78539819

  /**
   * The assumptions the systems rely on: a slope that can be walked on is a
   * slope that counts as ground, gravity pulls down towards a downward cap,
   * the skin leaves a non-degenerate collider, and every profile has a
   * positive top speed and stop time.
   */
  predicate Sane(p: CharacterControllerParams) {
    && 0.0 <= p.maxWalkingSlopeAngle <= p.maxSlidingSlopeAngle
    && p.gravity.y < 0.0 && p.terminalVelocity < 0.0
    && 0.0 < p.colliderSkinThickness < PLAYER_RADIUS
    && p.baseMovement.speedFactor > 0.0 && p.baseMovement.stopFactor > 0.0
    && p.groundMovement.speedFactor > 0.0 && p.groundMovement.stopFactor > 0.0
    && p.aerialMovement.speedFactor > 0.0 && p.aerialMovement.stopFactor > 0.0
    && p.baseMovement.inputFactor >= 0.0 && p.baseMovement.reverseInputFactor >= 0.0
    && p.groundMovement.inputFactor >= 0.0 && p.groundMovement.reverseInputFactor >= 0.0
    && p.aerialMovement.inputFactor >= 0.0 && p.aerialMovement.reverseInputFactor >= 0.0
  }

  /** Twice the standard gravity, straight down. */
  const DEFAULT_GRAVITY: Vec3 := Vec3(0.0, -9.81 * 2.0, 0.0)

  /** The shipped base profile: input, reverse input, jump, speed and stop factors. */
  const DEFAULT_BASE_MOVEMENT: Manoeuvrability := Manoeuvrability(5.0, 10.0, 12.0, 3.0, 0.5)
  /** The shipped profile on the ground. */
  const DEFAULT_GROUND_MOVEMENT: Manoeuvrability := Manoeuvrability(1.0, 3.0, 1.0, 1.0, 1.0)
  /** The shipped profile in the air. */
  const DEFAULT_AERIAL_MOVEMENT: Manoeuvrability := Manoeuvrability(0.25, 1.0, 0.0, 1.0, 10.0)

  /** The shipped defaults. */
  function DefaultParams(): (p: CharacterControllerParams)
    ensures Sane(p)
    ensures p.maxWalkingSlopeAngle < p.maxSlidingSlopeAngle < PI / 2.0
    ensures p.maxCollisionBounces == 3
    ensures 0.0 < Collider(p.colliderSkinThickness).radius && 0.0 < Collider(p.colliderSkinThickness).height
    ensures p.gravity == Vec3(0.0, -19.62, 0.0) && p.terminalVelocity == -20.0
    ensures p.baseMovement.reverseInputFactor > p.baseMovement.inputFactor
    ensures p.escapeIncidence > 0.0 && p.buoyantTerminalVelocity > 0.0
    ensures p.baseMovement == DEFAULT_BASE_MOVEMENT && p.groundMovement == DEFAULT_GROUND_MOVEMENT
  {
    CharacterControllerParams(
      DEFAULT_BASE_MOVEMENT,
      DEFAULT_GROUND_MOVEMENT,
      DEFAULT_AERIAL_MOVEMENT,
      DEFAULT_GRAVITY,
      0.01,
      3,
      FRAC_PI_4,
      -20.0,
      4.0,
      PI * 0.17,
      PI * 0.33)
  }
}
