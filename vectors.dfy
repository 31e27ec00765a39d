/**
 * Three-dimensional vectors over the reals, the quaternion rotation used by the
 * physics engine, and the two non-polynomial operations (angle between vectors,
 * Euclidean length) as a capability whose only known properties are stated by
 * `ValidGeometry`.
 */
module Vectors {
  import opened Wrappers

  datatype Vec3 = Vec3(x: real, y: real, z: real)

  const Zero: Vec3 := Vec3(0.0, 0.0, 0.0)
  /** `Vector::Y`, world up. */
  const Up: Vec3 := Vec3(0.0, 1.0, 0.0)
  /** `Dir3::NEG_Y`, the direction of the ground probe. */
  const Down: Vec3 := Vec3(0.0, -1.0, 0.0)

  /** `std::f32::consts::PI`, as the nearest single-precision value. */
  const PI: real := 3.1415927

  function Add(a: Vec3, b: Vec3): Vec3 { Vec3(a.x + b.x, a.y + b.y, a.z + b.z) }
  function Sub(a: Vec3, b: Vec3): Vec3 { Vec3(a.x - b.x, a.y - b.y, a.z - b.z) }
  function Neg(a: Vec3): Vec3 { Vec3(-a.x, -a.y, -a.z) }
  function Scale(k: real, a: Vec3): Vec3 { Vec3(k * a.x, k * a.y, k * a.z) }
  function Div(a: Vec3, k: real): Vec3 requires k != 0.0 { Vec3(a.x / k, a.y / k, a.z / k) }
  function Abs(x: real): real { if x >= 0.0 then x else -x }
  function Dot(a: Vec3, b: Vec3): real { a.x * b.x + a.y * b.y + a.z * b.z }
  function Cross(a: Vec3, b: Vec3): Vec3 {
    Vec3(a.y * b.z - a.z * b.y, a.z * b.x - a.x * b.z, a.x * b.y - a.y * b.x)
  }

  /**
   * A unit quaternion as stored by the physics engine's `Rotation`, and its action
   * on a vector (`rotation * v`), written out the way the engine's math library computes it.
   */
  datatype Quat = Quat(x: real, y: real, z: real, w: real)

  const IdentityRotation: Quat := Quat(0.0, 0.0, 0.0, 1.0)

  function Rotate(q: Quat, v: Vec3): Vec3 {
    var b := Vec3(q.x, q.y, q.z);
    Add(Add(Scale(q.w * q.w - Dot(b, b), v), Scale(2.0 * Dot(v, b), b)), Scale(2.0 * q.w, Cross(b, v)))
  }

  /** Rotating by the identity changes nothing. */
  lemma RotateIdentity(v: Vec3)
    ensures Rotate(IdentityRotation, v) == v
  {
    var b := Vec3(0.0, 0.0, 0.0);
    calc {
      Rotate(IdentityRotation, v);
      Add(Add(Scale(1.0 * 1.0 - Dot(b, b), v), Scale(2.0 * Dot(v, b), b)), Scale(2.0 * 1.0, Cross(b, v)));
      { assert Dot(b, b) == 0.0 && Dot(v, b) == 0.0 && Cross(b, v) == b; }
      Add(Add(Scale(1.0, v), Scale(0.0, b)), Scale(2.0, b));
      Add(Add(v, b), b);
      v;
    }
  }
  /** A quaternion of norm one, as every rotation the engine stores is. */
  predicate UnitQuat(q: Quat) {
    q.x * q.x + q.y * q.y + q.z * q.z + q.w * q.w == 1.0
  }

  lemma DotAddLeft(a: Vec3, b: Vec3, c: Vec3)
    ensures Dot(Add(a, b), c) == Dot(a, c) + Dot(b, c)
  {
  }

  lemma DotSymmetric(a: Vec3, b: Vec3)
    ensures Dot(a, b) == Dot(b, a)
  {
  }

  /** The cross product is orthogonal to both its factors. */
  lemma CrossOrthogonal(a: Vec3, b: Vec3)
    ensures Dot(a, Cross(a, b)) == 0.0 && Dot(b, Cross(a, b)) == 0.0
  {
  }

  /** Lagrange's identity: the squared length of a cross product. */
  lemma CrossLength(a: Vec3, b: Vec3)
    ensures Dot(Cross(a, b), Cross(a, b)) == Dot(a, a) * Dot(b, b) - Dot(a, b) * Dot(a, b)
  {
  }

  /** The squared length of a sum is the sum of the squared lengths plus twice the cross term. */
  lemma SumLength(a: Vec3, b: Vec3)
    ensures Dot(Add(a, b), Add(a, b)) == Dot(a, a) + 2.0 * Dot(a, b) + Dot(b, b)
  {
  }

  /** The squared length of `s·u + c·b + d·w` when `w` is orthogonal to `u` and to `b`. */
  lemma CombinationLength(s: real, u: Vec3, c: real, b: Vec3, d: real, w: Vec3)
    requires Dot(u, w) == 0.0 && Dot(b, w) == 0.0
    ensures var r := Add(Add(Scale(s, u), Scale(c, b)), Scale(d, w));
            Dot(r, r) == s * s * Dot(u, u) + c * c * Dot(b, b) + d * d * Dot(w, w) + 2.0 * s * c * Dot(u, b)
  {
    var su, cb, dw := Scale(s, u), Scale(c, b), Scale(d, w);
    SumLength(Add(su, cb), dw);
    SumLength(su, cb);
    DotAddLeft(su, cb, dw);
    assert Dot(su, dw) == s * d * Dot(u, w);
    assert Dot(cb, dw) == c * d * Dot(b, w);
    assert Dot(su, su) == s * s * Dot(u, u);
    assert Dot(cb, cb) == c * c * Dot(b, b);
    assert Dot(dw, dw) == d * d * Dot(w, w);
    DotScale(s, u, cb);
    assert Dot(u, cb) == c * Dot(u, b);
  }

  /** The scalar identity behind length preservation, with `ww + bb` the quaternion's squared norm. */
  lemma RotationScalarIdentity(vv: real, bb: real, vb: real, ww: real)
    requires ww + bb == 1.0
    ensures (ww - bb) * (ww - bb) * vv + 4.0 * vb * vb * bb + 4.0 * ww * (bb * vv - vb * vb) + 4.0 * (ww - bb) * vb * vb == vv
  {
    assert ww == 1.0 - bb;
  }

  /** Rotating by a unit quaternion keeps a vector's squared length. */
  lemma RotatePreservesLength(q: Quat, v: Vec3)
    requires UnitQuat(q)
    ensures Dot(Rotate(q, v), Rotate(q, v)) == Dot(v, v)
  {
    var b := Vec3(q.x, q.y, q.z);
    var s, c, d := q.w * q.w - Dot(b, b), 2.0 * Dot(v, b), 2.0 * q.w;
    var w := Cross(b, v);
    CrossOrthogonal(b, v);
    CrossLength(b, v);
    DotSymmetric(v, b);
    CombinationLength(s, v, c, b, d, w);
    assert Dot(Rotate(q, v), Rotate(q, v))
        == s * s * Dot(v, v) + c * c * Dot(b, b) + d * d * Dot(w, w) + 2.0 * s * c * Dot(v, b);
    RotationScalarIdentity(Dot(v, v), Dot(b, b), Dot(v, b), q.w * q.w);
  }


  /**
   * `angle_between` and `length`, which are trigonometric and a square root. Only the
   * properties in `ValidGeometry` are known of them.
   */
  datatype Geometry = Geometry(angleBetween: (Vec3, Vec3) -> real, length: Vec3 -> real)

  ghost predicate ValidGeometry(g: Geometry) {
    && (forall u, v :: 0.0 <= g.angleBetween(u, v) <= PI)
    && (forall v :: 0.0 <= g.length(v) && g.length(v) * g.length(v) == Dot(v, v))
    && (forall v :: g.length(v) > 0.0 <==> v != Zero)
  }

  /** `normalize_or_zero`: the unit vector along `v`, or zero when `v` has no length. */
  function NormalizeOrZero(g: Geometry, v: Vec3): (r: Vec3)
    requires ValidGeometry(g)
    ensures v == Zero <==> r == Zero
    ensures r != Zero ==> Scale(g.length(v), r) == v && Dot(r, r) == 1.0
  {
    var l := g.length(v);
    if l > 0.0 then
      UnitScaling(g, v);
      Scale(1.0 / l, v)
    else Zero
  }

  /** `Dir3::new`: the direction of a displacement, which fails for a zero displacement. */
  function Direction(g: Geometry, v: Vec3): (r: Option<Vec3>)
    requires ValidGeometry(g)
    ensures r.None? <==> v == Zero
    ensures r.Some? ==> Dot(r.value, r.value) == 1.0 && Scale(g.length(v), r.value) == v
  {
    var l := g.length(v);
    if l > 0.0 then
      UnitScaling(g, v);
      Some(Scale(1.0 / l, v))
    else None
  }

  lemma UnitScaling(g: Geometry, v: Vec3)
    requires ValidGeometry(g) && g.length(v) > 0.0
    ensures Scale(g.length(v), Scale(1.0 / g.length(v), v)) == v
    ensures Dot(Scale(1.0 / g.length(v), v), Scale(1.0 / g.length(v), v)) == 1.0
  {
    var l := g.length(v);
    var k := 1.0 / l;
    assert l * k == 1.0;
    assert l * l == Dot(v, v);
    calc {
      Dot(Scale(k, v), Scale(k, v));
      k * k * Dot(v, v);
      k * k * (l * l);
      (k * l) * (k * l);
      1.0;
    }
  }

  /** `project_onto`: the component of `v` along `n`; the engine's library requires `n` to have a length. */
  function ProjectOnto(v: Vec3, n: Vec3): (r: Vec3)
    requires Dot(n, n) != 0.0
    ensures Dot(Sub(v, r), n) == 0.0
    ensures exists k :: r == Scale(k, n)
  {
    var k := Dot(v, n) / Dot(n, n);
    RejectionOrthogonal(v, n, k);
    Scale(k, n)
  }

  lemma RejectionOrthogonal(v: Vec3, n: Vec3, k: real)
    requires Dot(n, n) != 0.0 && k == Dot(v, n) / Dot(n, n)
    ensures Dot(Sub(v, Scale(k, n)), n) == 0.0
  {
    calc {
      Dot(Sub(v, Scale(k, n)), n);
      Dot(v, n) - k * Dot(n, n);
      Dot(v, n) - Dot(v, n);
      0.0;
    }
  }

  /** Two non-negative reals with equal squares are equal. */
  lemma SquareRootUnique(l: real, a: real)
    requires l >= 0.0 && a >= 0.0 && l * l == a * a
    ensures l == a
  {
    if l > a {
      SquareStrictlyMonotone(a, l);
    } else if l < a {
      SquareStrictlyMonotone(l, a);
    }
  }

  lemma SquareStrictlyMonotone(p: real, q: real)
    requires 0.0 <= p < q
    ensures p * p < q * q
  {
    calc {
      p * p;
      <= { MulNonneg(p, q - p); }
      p * q;
      < { MulStrict(q - p, q); }
      q * q;
    }
  }

  lemma MulStrict(p: real, q: real)
    requires p > 0.0 && q > 0.0
    ensures p * q > 0.0
  {
  }

  lemma MulNonneg(p: real, q: real)
    requires p >= 0.0 && q >= 0.0
    ensures p * q >= 0.0
  {
  }

  /** A vector along the x axis is as long as its x component is large. */
  lemma LengthAlongX(g: Geometry, a: real)
    requires ValidGeometry(g)
    ensures g.length(Vec3(a, 0.0, 0.0)) == Abs(a)
  {
    var l := g.length(Vec3(a, 0.0, 0.0));
    assert Dot(Vec3(a, 0.0, 0.0), Vec3(a, 0.0, 0.0)) == a * a;
    assert Abs(a) * Abs(a) == a * a;
    SquareRootUnique(l, Abs(a));
  }

  lemma DotNeg(a: Vec3)
    ensures Dot(Neg(a), Neg(a)) == Dot(a, a)
  {
  }

  lemma ScaleScale(a: real, b: real, v: Vec3)
    ensures Scale(a, Scale(b, v)) == Scale(a * b, v)
  {
  }

  lemma DotScale(k: real, a: Vec3, b: Vec3)
    ensures Dot(Scale(k, a), b) == k * Dot(a, b)
  {
  }

  /**
   * Scaling the direction of `w` to a speed between zero and its length gives a
   * multiple between zero and one of `w` itself, with exactly that length.
   */
  lemma ScaledDirection(g: Geometry, w: Vec3, s: real)
    requires ValidGeometry(g) && 0.0 <= s <= g.length(w)
    ensures exists k: real :: 0.0 <= k <= 1.0 && Scale(s, NormalizeOrZero(g, w)) == Scale(k, w) && k * g.length(w) == s
  {
    var l := g.length(w);
    if l > 0.0 {
      var k := s / l;
      assert k * l == s;
      FractionAtMostOne(s, l);
      ScaleScale(s, 1.0 / l, w);
      assert s * (1.0 / l) == k;
      assert Scale(s, NormalizeOrZero(g, w)) == Scale(k, w);
    } else {
      assert w == Zero && s == 0.0;
      assert NormalizeOrZero(g, w) == Zero;
      assert Scale(s, Zero) == Zero == Scale(0.0, Zero);
    }
  }

  lemma FractionAtMostOne(s: real, l: real)
    requires 0.0 <= s <= l && l > 0.0
    ensures 0.0 <= s / l <= 1.0
  {
  }
}
