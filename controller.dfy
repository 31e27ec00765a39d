/**
 * The data the character controller keeps on the player entity: the ground
 * attachment, the processed ground hit, the controller's own velocity, and
 * the sizing of the collider used for shape casts.
 */
module Controller {
  import opened Wrappers
  import opened Vectors

  /** Range of the downward ground probe. */
  const GROUNDING_PROXIMITY: real := 0.4
  /** Declared next to the probe range; no system of the controller reads it. */
  const WALL_RETENTION_PROXIMITY: real := 0.1
  /** Height of the player's cylinder (declared by the game module). */
  const PLAYER_HEIGHT: real := 1.74
  /** Radius of the player's cylinder. */
  const PLAYER_RADIUS: real := 0.4

  /** The only attachment; an entity without one is airborne. */
  datatype Attachment = Grounded(normal: Vec3)

  /** One movement profile: accelerations, jump impulse, top speed and stopping time. */
  datatype Manoeuvrability = Manoeuvrability(
    inputFactor: real,
    reverseInputFactor: real,
    jumpFactor: real,
    speedFactor: real,
    stopFactor: real)

  /**
   * The parts of a physics-engine shape-cast hit the controller reads:
   * the distance travelled, the outward normal of the body that was hit
   * (`normal1`) and the outward normal of the cast shape (`normal2`), which
   * points into the surface and so is flipped to give the surface normal.
   */
  datatype ShapeHit = ShapeHit(distance: real, normal1: Vec3, normal2: Vec3)

  /** A ground hit as the controller stores it. */
  datatype HitProperties = HitProperties(normal: Vec3, distance: real, normalAngle: real)

  /** The stored angle is the angle between the stored normal and up. */
  predicate ConsistentHit(h: HitProperties, g: Geometry) {
    h.normalAngle == g.angleBetween(h.normal, Up)
  }

  /**
   * Converts an engine hit: the surface normal is the other body's normal
   * flipped and rotated by the player's rotation, and the angle is measured
   * against that very normal.
   */
  function FromAvianHit(hit: ShapeHit, rotation: Quat, g: Geometry): (r: HitProperties)
    ensures r.distance == hit.distance
    ensures r.normal == Rotate(rotation, Neg(hit.normal2))
    ensures ConsistentHit(r, g)
    ensures ValidGeometry(g) ==> 0.0 <= r.normalAngle <= PI
  {
    var normal := Rotate(rotation, Neg(hit.normal2));
    HitProperties(normal, hit.distance, g.angleBetween(normal, Up))
  }

  /** With the unrotated player the stored normal is the flipped engine normal. */
  lemma FromAvianHitUnrotated(hit: ShapeHit, g: Geometry)
    ensures FromAvianHit(hit, IdentityRotation, g).normal == Neg(hit.normal2)
  {
    RotateIdentity(Neg(hit.normal2));
  }

  /** The latest ground hit, kept on the player between systems. */
  datatype PlayerHits = PlayerHits(ground: Option<HitProperties>)

  /** A fresh player has seen no ground. */
  function DefaultPlayerHits(): (r: PlayerHits)
    ensures r.ground == None
  {
    PlayerHits(None)
  }

  /** An upright cylinder collider. */
  datatype Cylinder = Cylinder(radius: real, height: real)

  /** The player's collider shrunk by `skin` on every side. */
  function Collider(skin: real): (c: Cylinder)
    ensures c.radius == PLAYER_RADIUS - skin
    ensures c.height == PLAYER_HEIGHT - 2.0 * skin
  {
    Cylinder(PLAYER_RADIUS - skin, PLAYER_HEIGHT - 2.0 * skin)
  }

  /**
   * The unshrunk collider is the player's full body, and a skin below the
   * radius gives a non-degenerate cylinder that fits inside it.
   */
  lemma ColliderShrinksInsideBody(skin: real)
    requires 0.0 <= skin < PLAYER_RADIUS
    ensures Collider(0.0) == Cylinder(PLAYER_RADIUS, PLAYER_HEIGHT)
    ensures 0.0 < Collider(skin).radius <= Collider(0.0).radius
    ensures 0.0 < Collider(skin).height <= Collider(0.0).height
  {
  }

  /**
   * The player entity: the controller's velocity, the transform's translation
   * and the rotation, the optional attachment component and the hits component.
   */
  class PlayerEntity {
    var velocity: Vec3
    var translation: Vec3
    var rotation: Quat
    var attachment: Option<Attachment>
    var hits: PlayerHits

    /** A player spawned at `translation`: at rest, airborne, no ground seen. */
    constructor (translation: Vec3, rotation: Quat)
      ensures this.velocity == Zero && this.translation == translation && this.rotation == rotation
      ensures this.attachment == None && this.hits == DefaultPlayerHits()
    {
      this.velocity := Zero;
      this.translation := translation;
      this.rotation := rotation;
      this.attachment := None;
      this.hits := DefaultPlayerHits();
    }
  }
}
