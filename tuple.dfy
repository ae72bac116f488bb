/** The homogeneous 4-component tuple of src/tuple.rs: a point when w is
    exactly 1, a vector otherwise. The f32 components are modelled as reals. */
module Tuples {

  datatype Tuple = Tuple(x: real, y: real, z: real, w: real)

  /** `f32::max` (NaN is outside the model). */
  function Max(a: real, b: real): (m: real)
    ensures m >= a && m >= b && (m == a || m == b)
  {
    if a >= b then a else b
  }

  /** `Tuple::new`. */
  function New(x: real, y: real, z: real, w: real): Tuple
  {
    Tuple(x, y, z, w)
  }

  /** `Tuple::point`: a point at (x, y, z). */
  function Point(x: real, y: real, z: real): (p: Tuple)
    ensures IsPoint(p) && !IsVector(p)
    ensures p.x == x && p.y == y && p.z == z
  {
    New(x, y, z, 1.0)
  }

  /** `Tuple::vector`: a vector (x, y, z) with w = 0. */
  function Vector(x: real, y: real, z: real): (v: Tuple)
    ensures IsVector(v) && !IsPoint(v) && v.w == 0.0
    ensures v.x == x && v.y == y && v.z == z
  {
    New(x, y, z, 0.0)
  }

  /** `is_point`: w is exactly 1. */
  predicate IsPoint(t: Tuple) { t.w == 1.0 }

  /** `is_vector`: w is anything but 1. */
  predicate IsVector(t: Tuple) { t.w != 1.0 }

  /** `dot`: the sum of the four pairwise products. */
  function Dot(a: Tuple, b: Tuple): real
  {
    a.x * b.x + a.y * b.y + a.z * b.z + a.w * b.w
  }

  /** `cross`: the 3D cross product of the x/y/z parts, as a vector. */
  function Cross(a: Tuple, b: Tuple): (c: Tuple)
    ensures IsVector(c) && c.w == 0.0
  {
    Vector(a.y * b.z - a.z * b.y, a.z * b.x - a.x * b.z, a.x * b.y - a.y * b.x)
  }

  /** `impl Add`: x/y/z are summed, but w becomes max(self.w, other.z). */
  function Add(a: Tuple, b: Tuple): Tuple
  {
    Tuple(a.x + b.x, a.y + b.y, a.z + b.z, Max(a.w, b.z))
  }

  /** `impl Sub`: x/y/z are differenced and w is clamped at 0. */
  function Sub(a: Tuple, b: Tuple): (t: Tuple)
    ensures t.w >= 0.0
  {
    Tuple(a.x - b.x, a.y - b.y, a.z - b.z, Max(a.w - b.w, 0.0))
  }

  /** `impl Neg`: subtraction from the all-zero tuple. */
  function Neg(t: Tuple): Tuple
  {
    Sub(New(0.0, 0.0, 0.0, 0.0), t)
  }

  /** `impl Mul<f32>`: every component, w included, times s. */
  function Scale(t: Tuple, s: real): Tuple
  {
    Tuple(t.x * s, t.y * s, t.z * s, t.w * s)
  }

  /** `impl Div<f32>`: every component, w included, divided by s. */
  function Div(t: Tuple, s: real): Tuple
    requires s != 0.0
  {
    Tuple(t.x / s, t.y / s, t.z / s, t.w / s)
  }

  /** The square of `magnitude`; the root itself is not modelled. */
  function MagnitudeSquared(t: Tuple): real
  {
    Dot(t, t)
  }

  /** Addition as evidently intended: w of the sum is the sum of the w's. */
  function AddIntended(a: Tuple, b: Tuple): Tuple
  {
    Tuple(a.x + b.x, a.y + b.y, a.z + b.z, a.w + b.w)
  }

  // ---------------------------------------------------------------------
  // Construction and classification

  /** `new` keeps its four arguments verbatim: taking a tuple apart and
      building it again gives the same tuple, and the other way round. */
  lemma NewRoundTrip(x: real, y: real, z: real, w: real, t: Tuple)
    ensures New(x, y, z, w).x == x && New(x, y, z, w).y == y
    ensures New(x, y, z, w).z == z && New(x, y, z, w).w == w
    ensures New(t.x, t.y, t.z, t.w) == t
  {
  }

  /** Every tuple is exactly one of point and vector; so a tuple with
      w = 0.3 counts as a vector although it is neither factory's output. */
  lemma Classification(t: Tuple)
    ensures IsVector(t) <==> !IsPoint(t)
    ensures IsVector(New(4.3, -4.2, 3.1, 0.3))
  {
  }

  // ---------------------------------------------------------------------
  // Addition as written

  /** Addition sums x/y/z and takes w from max(self.w, other.z); the
      sample sum (3,-2,5,1) + (-2,3,1,0) = (1,1,6,1) holds. */
  lemma AddSpec(a: Tuple, b: Tuple)
    ensures Add(a, b).x == a.x + b.x && Add(a, b).y == a.y + b.y && Add(a, b).z == a.z + b.z
    ensures Add(a, b).w >= a.w && Add(a, b).w >= b.z
    ensures Add(a, b).w == a.w || Add(a, b).w == b.z
    ensures Add(New(3.0, -2.0, 5.0, 1.0), New(-2.0, 3.0, 1.0, 0.0)) == New(1.0, 1.0, 6.0, 1.0)
  {
  }

  /** Because w is taken from the other operand's z, a point moved by a
      vector stays a point exactly when the vector's z is at most 1. */
  lemma AddPointVector(px: real, py: real, pz: real, vx: real, vy: real, vz: real)
    ensures IsPoint(Add(Point(px, py, pz), Vector(vx, vy, vz))) <==> vz <= 1.0
  {
  }

  /** A concrete pair on which the written addition leaves the point/vector
      classes: point + vector (0,0,2) is no point, and vector (0,0,1) +
      vector (0,0,1) is a point. */
  lemma AddLeavesClasses()
    ensures !IsPoint(Add(Point(0.0, 0.0, 0.0), Vector(0.0, 0.0, 2.0)))
    ensures IsPoint(Add(Vector(0.0, 0.0, 1.0), Vector(0.0, 0.0, 1.0)))
  {
    AddPointVector(0.0, 0.0, 0.0, 0.0, 0.0, 2.0);
    assert Add(Vector(0.0, 0.0, 1.0), Vector(0.0, 0.0, 1.0)).w == Max(0.0, 1.0);
  }

  /** The intended addition keeps the classes: point + vector is a point,
      vector + vector is a vector with w = 0; it is commutative, and it
      agrees with the written one on the sample sum. */
  lemma AddIntendedSpec(a: Tuple, b: Tuple, p: Tuple, v1: Tuple, v2: Tuple)
    requires p.w == 1.0 && v1.w == 0.0 && v2.w == 0.0
    ensures IsPoint(AddIntended(p, v1)) && IsPoint(AddIntended(v1, p))
    ensures IsVector(AddIntended(v1, v2)) && AddIntended(v1, v2).w == 0.0
    ensures AddIntended(a, b) == AddIntended(b, a)
    ensures AddIntended(New(3.0, -2.0, 5.0, 1.0), New(-2.0, 3.0, 1.0, 0.0))
         == Add(New(3.0, -2.0, 5.0, 1.0), New(-2.0, 3.0, 1.0, 0.0))
  {
  }

  // ---------------------------------------------------------------------
  // Subtraction and negation

  /** Subtraction differences x/y/z and never yields a negative w:
      point - point and vector - vector are vectors with w = 0, point -
      vector is a point, and vector - point is clamped to w = 0. */
  lemma SubSpec(a: Tuple, b: Tuple, p1: Tuple, p2: Tuple, v1: Tuple, v2: Tuple)
    requires p1.w == 1.0 && p2.w == 1.0 && v1.w == 0.0 && v2.w == 0.0
    ensures Sub(a, b).x == a.x - b.x && Sub(a, b).y == a.y - b.y && Sub(a, b).z == a.z - b.z
    ensures Sub(a, b).w == Max(a.w - b.w, 0.0)
    ensures IsVector(Sub(p1, p2)) && Sub(p1, p2).w == 0.0
    ensures IsVector(Sub(v1, v2)) && Sub(v1, v2).w == 0.0
    ensures IsPoint(Sub(p1, v1))
    ensures Sub(v1, p1).w == 0.0
    ensures Sub(Point(3.0, 2.0, 1.0), Point(5.0, 6.0, 7.0)) == Vector(-2.0, -4.0, -6.0)
    ensures Sub(Point(3.0, 2.0, 1.0), Vector(5.0, 6.0, 7.0)) == Point(-2.0, -4.0, -6.0)
  {
  }

  /** Subtracting b undoes adding b on x/y/z (w follows its own rules). */
  lemma SubUndoesAdd(a: Tuple, b: Tuple)
    ensures Sub(Add(a, b), b).x == a.x && Sub(Add(a, b), b).y == a.y && Sub(Add(a, b), b).z == a.z
    ensures Add(Sub(a, b), b).x == a.x && Add(Sub(a, b), b).y == a.y && Add(Sub(a, b), b).z == a.z
  {
  }

  /** Negation negates x/y/z and gives w = max(-w, 0): a negated point has
      w = 0, and -(1,-2,3,-4) = (-1,2,-3,4). */
  lemma NegSpec(t: Tuple)
    ensures Neg(t) == Tuple(-t.x, -t.y, -t.z, Max(-t.w, 0.0))
    ensures IsPoint(t) ==> Neg(t).w == 0.0
    ensures Neg(New(1.0, -2.0, 3.0, -4.0)) == New(-1.0, 2.0, -3.0, 4.0)
  {
  }

  /** Negating twice gives the tuple back exactly when its w is 0: the
      clamp makes the w of any double negation 0. */
  lemma NegNeg(t: Tuple)
    ensures Neg(Neg(t)).x == t.x && Neg(Neg(t)).y == t.y && Neg(Neg(t)).z == t.z
    ensures Neg(Neg(t)).w == 0.0
    ensures Neg(Neg(t)) == t <==> t.w == 0.0
  {
  }

  // ---------------------------------------------------------------------
  // Scaling

  /** Scalar multiplication and division scale all four components;
      dividing by s is multiplying by 1/s, and multiplying by s undoes it. */
  lemma ScaleDiv(t: Tuple, s: real)
    requires s != 0.0
    ensures Div(t, s) == Scale(t, 1.0 / s)
    ensures Scale(Div(t, s), s) == t
    ensures Div(Scale(t, s), s) == t
  {
    var inv := 1.0 / s;
    DivMul(t.x, s, inv);
    DivMul(t.y, s, inv);
    DivMul(t.z, s, inv);
    DivMul(t.w, s, inv);
    var u := Scale(t, s);
    MulDiv(t.x, s, u.x);
    MulDiv(t.y, s, u.y);
    MulDiv(t.z, s, u.z);
    MulDiv(t.w, s, u.w);
  }

  /** (1,-2,3,-4) times 3.5 and times 0.5, and divided by 2. */
  lemma ScaleDivExamples()
    ensures Scale(New(1.0, -2.0, 3.0, -4.0), 3.5) == New(3.5, -7.0, 10.5, -14.0)
    ensures Scale(New(1.0, -2.0, 3.0, -4.0), 0.5) == New(0.5, -1.0, 1.5, -2.0)
    ensures Div(New(1.0, -2.0, 3.0, -4.0), 2.0) == New(0.5, -1.0, 1.5, -2.0)
  {
  }

  lemma DivMul(r: real, s: real, inv: real)
    requires s != 0.0 && inv == 1.0 / s
    ensures r / s == r * inv
    ensures (r / s) * s == r
  {
  }

  lemma MulDiv(r: real, s: real, p: real)
    requires s != 0.0 && p == r * s
    ensures p / s == r
  {
  }

  // ---------------------------------------------------------------------
  // Dot and cross products

  /** The dot product is symmetric and scales with either argument; its
      square form (the square of `magnitude`) is never negative;
      (1,2,3)·(2,3,4) = 20, and |(1,2,3)|² = 14. */
  lemma DotSpec(a: Tuple, b: Tuple, s: real)
    ensures Dot(a, b) == Dot(b, a)
    ensures Dot(Scale(a, s), b) == s * Dot(a, b)
    ensures MagnitudeSquared(a) >= 0.0
    ensures Dot(Vector(1.0, 2.0, 3.0), Vector(2.0, 3.0, 4.0)) == 20.0
    ensures MagnitudeSquared(Vector(1.0, 2.0, 3.0)) == 14.0
    ensures MagnitudeSquared(Vector(0.0, 1.0, 0.0)) == 1.0
  {
    SquareNonNegative(a.x);
    SquareNonNegative(a.y);
    SquareNonNegative(a.z);
    SquareNonNegative(a.w);
  }

  lemma SquareNonNegative(r: real)
    ensures r * r >= 0.0
  {
    if r < 0.0 {
      assert r * r == (-r) * (-r);
    }
  }

  /** The cross product ignores both w's, is antisymmetric (swapping the
      arguments negates it), and is orthogonal to both arguments. */
  lemma CrossSpec(a: Tuple, b: Tuple, wa: real, wb: real)
    ensures Cross(a, b) == Cross(a.(w := wa), b.(w := wb))
    ensures Cross(b, a) == Neg(Cross(a, b))
    ensures Dot(Cross(a, b), a) == 0.0 && Dot(Cross(a, b), b) == 0.0
  {
    CrossOrthogonal(a, b);
    CrossOrthogonal(b, a);
    CrossAntisymmetric(a, b);
  }

  /** Swapping the arguments negates the cross product. */
  lemma CrossAntisymmetric(a: Tuple, b: Tuple)
    ensures Cross(b, a) == Neg(Cross(a, b))
  {
    NegSpec(Cross(a, b));
  }

  /** (1,2,3)×(2,3,4) = (-1,2,-1) and the reverse is (1,-2,1). */
  lemma CrossExamples()
    ensures Cross(Vector(1.0, 2.0, 3.0), Vector(2.0, 3.0, 4.0)) == Vector(-1.0, 2.0, -1.0)
    ensures Cross(Vector(2.0, 3.0, 4.0), Vector(1.0, 2.0, 3.0)) == Vector(1.0, -2.0, 1.0)
  {
    var a, b := Vector(1.0, 2.0, 3.0), Vector(2.0, 3.0, 4.0);
    assert Cross(a, b) == Vector(-1.0, 2.0, -1.0);
    CrossAntisymmetric(a, b);
  }

  /** The cross product is orthogonal to its first argument. */
  lemma CrossOrthogonal(a: Tuple, b: Tuple)
    ensures Dot(Cross(a, b), a) == 0.0 && Dot(Cross(b, a), a) == 0.0
  {
    var c := Cross(a, b);
    assert c.x * a.x + c.y * a.y + c.z * a.z == 0.0;
    var d := Cross(b, a);
    assert d.x * a.x + d.y * a.y + d.z * a.z == 0.0;
  }
}
