/** CreateRotationAndInclination, over exact reals. */
module Inclinations {
  import opened Vectors
  import opened Quaternions

  const GRAVITATIONAL_ACCELERATION := 9.81

  /** std::numeric_limits<float>::epsilon() and max(). */
  const FLOAT_EPSILON: real := 1.0 / 8388608.0
  const FLOAT_MAX := 340282346638528859811704183484516925440.0

  /** IsEqual(e, 0.0f). */
  predicate IsZero(e: real) {
    -FLOAT_EPSILON <= e <= FLOAT_EPSILON
  }

  function ReciprocalOf(e: real): (r: real) {
    if IsZero(e) then FLOAT_MAX else 1.0 / e
  }

  /** The square roots the method takes. */
  datatype Roots = Roots(gravity: real, h: real, e: real)

  predicate RootsGiven(g: Vec, e: Vec, roots: Roots) {
    IsRoot(roots.gravity, Dot(g, g)) && IsRoot(roots.h, Dot(Cross(e, g), Cross(e, g))) && IsRoot(roots.e, Dot(e, e))
  }

  /** The measurements the method does not reject. */
  predicate Usable(g: Vec, roots: Roots) {
    Dot(g, g) >= 0.01 * (GRAVITATIONAL_ACCELERATION * GRAVITATIONAL_ACCELERATION) && roots.h >= 0.1
  }

  /** In terms of the lengths of gravity and of its cross product with the field: a tenth of the
      earth's acceleration, and 0.1. */
  lemma UsableIff(g: Vec, e: Vec, roots: Roots)
    requires RootsGiven(g, e, roots)
    ensures Usable(g, roots) <==> roots.gravity >= 0.981 && roots.h >= 0.1
  {
    var r := roots.gravity;
    if r >= 0.981 {
      assert r * r >= 0.981 * r >= 0.981 * 0.981;
    } else {
      assert r * r <= 0.981 * r < 0.981 * 0.981;
    }
    hide Dot, Cross;
  }

  /** East, north and up in the device's coordinates. */
  function Frame(g: Vec, e: Vec, roots: Roots): (m: Mat)
    requires roots.gravity != 0.0 && roots.h != 0.0
  {
    var h, a := Scale(1.0 / roots.h, Cross(e, g)), Scale(1.0 / roots.gravity, g);
    Mat(h, Cross(a, h), a)
  }

  function Inclination(c: real, s: real): (m: Mat) {
    Mat(Vec(1.0, 0.0, 0.0), Vec(0.0, c, s), Vec(0.0, -s, c))
  }

  /** i is a rotation and takes v to a vector of length e that points north. */
  predicate Levels(i: Mat, v: Vec, e: real) {
    IsRotation(i) && Apply(i, v) == Vec(0.0, e, 0.0)
  }

  predicate Measurable(e: real) {
    e > FLOAT_EPSILON || e == 1.0 / FLOAT_MAX
  }

  /** The matrix that turns v about the first axis, k being the reciprocal of its length. */
  function Tilt(v: Vec, k: real): (m: Mat) {
    Inclination(v.y * k, v.z * k)
  }

  method CreateRotationAndInclination(gravity: seq<real>, geomagnetic: seq<real>, roots: Roots,
      rotationMatrix: array<real>, inclinationMatrix: array<real>) returns (ok: bool)
    requires |gravity| >= 3 && |geomagnetic| >= 3 ==> RootsGiven(First3(gravity), First3(geomagnetic), roots)
    modifies rotationMatrix, inclinationMatrix
    ensures ok <==> |gravity| >= 3 && |geomagnetic| >= 3 && Usable(First3(gravity), roots)
                    && (rotationMatrix.Length == 9 || rotationMatrix.Length == 16)
                    && (inclinationMatrix.Length == 9 || inclinationMatrix.Length == 16)
    ensures !ok ==> rotationMatrix[..] == old(rotationMatrix[..]) && inclinationMatrix[..] == old(inclinationMatrix[..])
    ensures ok ==> Bordered(rotationMatrix[..]) && Bordered(inclinationMatrix[..])
    ensures ok && rotationMatrix != inclinationMatrix ==>
              var r, i, e := Rows(rotationMatrix[..]), Rows(inclinationMatrix[..]), First3(geomagnetic);
              IsRotation(r) && Apply(r, First3(gravity)) == Vec(0.0, 0.0, roots.gravity)
              && Apply(r, e).x == 0.0 && Apply(r, e).y > 0.0
              && (Levels(i, Apply(r, e), roots.e) <==> Measurable(roots.e))
  {
    hide IsRotation, Dot, Cross, Scale, ReciprocalOf, IsRoot, Levels, Measurable;
    if |gravity| < 3 || |geomagnetic| < 3 {
      return false;
    }
    var g, e := First3(gravity), First3(geomagnetic);
    var totalGravity := Dot(g, g);
    if totalGravity < 0.01 * (GRAVITATIONAL_ACCELERATION * GRAVITATIONAL_ACCELERATION) {
      return false;
    }
    var h := Cross(e, g);
    var totalH := roots.h;
    if totalH < 0.1 {
      return false;
    }
    h := Scale(1.0 / totalH, h);
    RootIsPositive(roots.gravity, totalGravity);
    g := Scale(1.0 / roots.gravity, g);
    var measured := Cross(g, h);
    if (rotationMatrix.Length != 9 && rotationMatrix.Length != 16)
        || (inclinationMatrix.Length != 9 && inclinationMatrix.Length != 16) {
      return false;
    }
    var reciprocalE := ReciprocalOf(roots.e);
    var c := Dot(e, measured) * reciprocalE;
    var s := Dot(e, g) * reciprocalE;
    FrameIsRotation(First3(gravity), e, roots);
    FrameShowsGravity(First3(gravity), e, roots);
    FrameShowsField(First3(gravity), e, roots);
    InclinationLevelsIff(First3(gravity), e, roots);
    DotCommutes(e, measured);
    DotCommutes(e, g);
    ghost var seen := Apply(Frame(First3(gravity), e, roots), e);
    assert Inclination(c, s) == Tilt(seen, reciprocalE);
    hide Tilt;
    Store(Mat(h, measured, g), rotationMatrix);
    Store(Inclination(c, s), inclinationMatrix);
    return true;
  }

  lemma RootIsPositive(root: real, x: real)
    requires IsRoot(root, x) && x > 0.0
    ensures root > 0.0
  {
  }

  lemma UnitScale(a: Vec, root: real)
    requires IsRoot(root, Dot(a, a)) && root > 0.0
    ensures var u := Scale(1.0 / root, a);
            Dot(u, u) == 1.0 && Dot(u, a) == root && a == Scale(root, u)
  {
    var k := 1.0 / root;
    DotScale(k, a, a);
    DotScale(k, a, Scale(k, a));
    ScaleBack(k, root, a);
    ReciprocalSquare(root, k, Dot(a, a));
    hide Dot, Scale;
  }

  lemma ScaleBack(k: real, root: real, a: Vec)
    requires k * root == 1.0
    ensures Scale(root, Scale(k, a)) == a
  {
    assert root * (k * a.x) == (k * root) * a.x;
    assert root * (k * a.y) == (k * root) * a.y;
    assert root * (k * a.z) == (k * root) * a.z;
  }

  lemma ReciprocalSquare(root: real, k: real, x: real)
    requires k * root == 1.0 && root * root == x
    ensures k * x == root && k * (k * x) == 1.0
  {
    assert k * x == (k * root) * root;
  }

  /** What both the gravity and the field theorem stand on. */
  predicate Sound(g: Vec, e: Vec, roots: Roots) {
    RootsGiven(g, e, roots) && roots.gravity > 0.0 && roots.h > 0.0
  }

  lemma FrameRows(g: Vec, e: Vec, roots: Roots)
    requires Sound(g, e, roots)
    ensures var m := Frame(g, e, roots);
            Dot(m.r0, m.r0) == 1.0 && Dot(m.r2, m.r2) == 1.0 && Dot(m.r0, m.r2) == 0.0 && Dot(m.r0, g) == 0.0
            && Dot(m.r0, e) == 0.0
            && Dot(m.r2, g) == roots.gravity && g == Scale(roots.gravity, m.r2)
            && Cross(e, g) == Scale(roots.h, m.r0)
  {
    var c := Cross(e, g);
    UnitScale(g, roots.gravity);
    UnitScale(c, roots.h);
    CrossIsOrthogonal(e, g);
    hide Cross;
    hide Dot;
    hide Scale;
    DotScale(1.0 / roots.h, c, g);
    DotScale(1.0 / roots.h, c, e);
    DotScale(1.0 / roots.gravity, g, Frame(g, e, roots).r0);
    DotCommutes(g, Frame(g, e, roots).r0);
  }

  /** The frame is a rotation. */
  lemma FrameIsRotation(g: Vec, e: Vec, roots: Roots)
    requires Sound(g, e, roots)
    ensures IsRotation(Frame(g, e, roots))
  {
    var m := Frame(g, e, roots);
    FrameRows(g, e, roots);
    CrossNorm(m.r2, m.r0);
    CrossIsOrthogonal(m.r2, m.r0);
    TripleProductTurns(m.r0, m.r1, m.r2);
    DotCommutes(m.r2, m.r0);
    DotCommutes(m.r1, m.r0);
    OrthonormalIsTransposeInverse(m);
    hide Dot, Cross, Scale, Mul, RootsGiven;
  }

  /** R g = (0, 0, |g|). */
  lemma FrameShowsGravity(g: Vec, e: Vec, roots: Roots)
    requires Sound(g, e, roots)
    ensures Apply(Frame(g, e, roots), g) == Vec(0.0, 0.0, roots.gravity)
  {
    var m := Frame(g, e, roots);
    FrameRows(g, e, roots);
    CrossIsOrthogonal(m.r2, m.r0);
    DotScale(roots.gravity, m.r2, m.r1);
    DotCommutes(g, m.r1);
    DotCommutes(m.r1, m.r2);
    hide Dot, Cross, Scale, RootsGiven;
  }

  /** R E has no east component, points north, and keeps the length of E. */
  lemma FrameShowsField(g: Vec, e: Vec, roots: Roots)
    requires Sound(g, e, roots)
    ensures var v := Apply(Frame(g, e, roots), e);
            v.x == 0.0 && v.y > 0.0 && roots.e >= 0.0 && Squares(v.y, v.z) == Squares(roots.e, 0.0)
  {
    var m, k := Frame(g, e, roots), roots.h / roots.gravity;
    FrameRows(g, e, roots);
    CrossScale(e, g, roots);
    TripleProductTurns(e, m.r2, m.r0);
    TripleProductTurns(m.r2, m.r0, e);
    DotCommutes(e, m.r1);
    DotCommutes(e, m.r2);
    CrossNorm(e, m.r2);
    hide Cross;
    hide Scale;
    DotScale(k, m.r0, m.r0);
    DotScale(k, m.r0, Scale(k, m.r0));
    hide Dot;
  }

  /** E x A is |E x g| / |g| times the unit vector east. */
  lemma CrossScale(e: Vec, g: Vec, roots: Roots)
    requires Sound(g, e, roots)
    ensures var m := Frame(g, e, roots);
            Cross(e, m.r2) == Scale(roots.h / roots.gravity, m.r0)
  {
    var m, k := Frame(g, e, roots), 1.0 / roots.gravity;
    FrameRows(g, e, roots);
    ProductOfReciprocal(roots.h, roots.gravity);
    hide Cross, Scale, Dot, RootsGiven;
    CrossOfScaled(e, g, k);
    ScaleTwice(k, roots.h, roots.h / roots.gravity, m.r0);
  }

  lemma ProductOfReciprocal(x: real, y: real)
    requires y != 0.0
    ensures 1.0 / y * x == x / y
  {
  }

  lemma CrossOfScaled(a: Vec, b: Vec, k: real)
    ensures Cross(a, Scale(k, b)) == Scale(k, Cross(a, b))
  {
    var kb, c := Scale(k, b), Cross(a, b);
    ScaledEntry(k, a.y, a.z, b.y, b.z, kb.y, kb.z, c.x);
    ScaledEntry(k, a.z, a.x, b.z, b.x, kb.z, kb.x, c.y);
    ScaledEntry(k, a.x, a.y, b.x, b.y, kb.x, kb.y, c.z);
  }

  lemma ScaledEntry(k: real, p: real, q: real, r: real, s: real, kr: real, ks: real, x: real)
    requires kr == k * r && ks == k * s && x == p * s - q * r
    ensures p * ks - q * kr == k * x
  {
    assert p * ks == k * (p * s) && q * kr == k * (q * r);
  }

  lemma ScaleTwice(k: real, l: real, kl: real, a: Vec)
    requires kl == k * l
    ensures Scale(k, Scale(l, a)) == Scale(kl, a)
  {
    assert k * (l * a.x) == (k * l) * a.x;
    assert k * (l * a.y) == (k * l) * a.y;
    assert k * (l * a.z) == (k * l) * a.z;
  }

  lemma LowerRows(c: real, s: real, v: Vec)
    ensures Dot(Vec(0.0, c, s), v) == c * v.y + s * v.z
  {
  }

  lemma LowerCross(c: real, s: real)
    ensures Cross(Vec(0.0, c, s), Vec(0.0, -s, c)).x == c * c + s * s
  {
  }

  lemma InclinationIsRotationIff(c: real, s: real)
    ensures IsRotation(Inclination(c, s)) <==> Squares(c, s) == 1.0
  {
    var m := Inclination(c, s);
    DotWithAxis(m.r0);
    DotWithAxis(m.r1);
    DotWithAxis(m.r2);
    DotWithAxis(Cross(m.r1, m.r2));
    LowerLengths(c, s);
    LowerAngle(c, s);
    LowerCross(c, s);
    OrthonormalIsTransposeInverse(m);
    hide Mul, Dot, Cross;
  }

  lemma LowerLengths(c: real, s: real)
    ensures Dot(Vec(0.0, c, s), Vec(0.0, c, s)) == c * c + s * s
    ensures Dot(Vec(0.0, -s, c), Vec(0.0, -s, c)) == c * c + s * s
  {
  }

  lemma LowerAngle(c: real, s: real)
    ensures Dot(Vec(0.0, c, s), Vec(0.0, -s, c)) == 0.0
  {
  }

  lemma InclinationApplied(c: real, s: real, v: Vec)
    ensures Apply(Inclination(c, s), v) == Vec(v.x, c * v.y + s * v.z, -s * v.y + c * v.z)
  {
    DotWithAxis(v);
    LowerRows(c, s, v);
    LowerRows(-s, c, v);
    hide Dot;
  }

  /** k is the reciprocal of e. */
  predicate Inverse(k: real, e: real) {
    k * e == 1.0
  }

  function Squares(a: real, b: real): (r: real) {
    a * a + b * b
  }

  lemma ReciprocalIff(e: real)
    requires e > 0.0
    ensures Inverse(ReciprocalOf(e), e) <==> Measurable(e)
  {
  }

  lemma LengthIsPositive(y: real, z: real, e: real)
    requires y > 0.0 && e >= 0.0 && Squares(y, z) == Squares(e, 0.0)
    ensures e > 0.0
  {
    hide Squares;
    SquaresArePositive(y, z);
    NoSquares();
  }

  lemma NoSquares()
    ensures Squares(0.0, 0.0) == 0.0
  {
  }

  lemma SquareIsPositive(y: real)
    ensures y * y >= 0.0 && (y > 0.0 ==> y * y > 0.0)
  {
  }

  lemma SquaresArePositive(y: real, z: real)
    requires y > 0.0
    ensures Squares(y, z) > 0.0
  {
    SquareIsPositive(y);
    SquareIsPositive(z);
    calc {
      Squares(y, z);
    ==
      y * y + z * z;
    >
      z * z;
    }
  }

  lemma TiltIsRotation(v: Vec, k: real, e: real)
    requires Squares(v.y, v.z) == Squares(e, 0.0) && Inverse(k, e)
    ensures IsRotation(Tilt(v, k))
  {
    var t := Tilt(v, k);
    TiltLength(t.r1.y, t.r1.z, v.y, v.z, k, e);
    assert t == Inclination(t.r1.y, t.r1.z);
    hide IsRotation, Squares, Inverse, Inclination, Tilt;
    InclinationIsRotationIff(t.r1.y, t.r1.z);
  }

  lemma TiltLength(c: real, s: real, y: real, z: real, k: real, e: real)
    requires c == y * k && s == z * k && Squares(y, z) == Squares(e, 0.0) && Inverse(k, e)
    ensures Squares(c, s) == 1.0
  {
    assert Squares(c, s) == (k * k) * Squares(y, z);
    assert (k * k) * (e * e) == (k * e) * (k * e);
  }

  lemma TiltReaches(v: Vec, k: real, e: real)
    requires Squares(v.y, v.z) == Squares(e, 0.0) && e > 0.0
    ensures var t := Apply(Tilt(v, k), v);
            t.x == v.x && t.z == 0.0 && (t.y == e <==> Inverse(k, e))
  {
    InclinationApplied(v.y * k, v.z * k, v);
    TiltTurns(v.y, v.z, k, e);
    ProductIsItselfIff(k * e, e);
    hide Apply, Inclination;
  }

  lemma TiltTurns(y: real, z: real, k: real, e: real)
    requires Squares(y, z) == Squares(e, 0.0)
    ensures y * k * y + z * k * z == (k * e) * e && -(z * k) * y + y * k * z == 0.0
  {
    assert y * k * y + z * k * z == k * Squares(y, z);
  }

  lemma ProductIsItselfIff(x: real, e: real)
    requires e > 0.0
    ensures x * e == e <==> x == 1.0
  {
    if x * e == e {
      FactorIsZero(x - 1.0, e);
    }
  }

  lemma LevelsIff(v: Vec, e: real)
    requires v.x == 0.0 && v.y > 0.0 && e >= 0.0 && Squares(v.y, v.z) == Squares(e, 0.0)
    ensures Levels(Tilt(v, ReciprocalOf(e)), v, e) <==> Measurable(e)
  {
    hide ReciprocalOf, Measurable, IsRotation, Apply, Tilt, Squares, Inverse;
    LengthIsPositive(v.y, v.z, e);
    ReciprocalIff(e);
    TiltReaches(v, ReciprocalOf(e), e);
    if Measurable(e) {
      TiltIsRotation(v, ReciprocalOf(e), e);
    }
  }

  /** The inclination matrix levels R E exactly if |E| is above the threshold, or where the
      substitute for its reciprocal happens to be right. */
  lemma InclinationLevelsIff(g: Vec, e: Vec, roots: Roots)
    requires Sound(g, e, roots)
    ensures var v, k := Apply(Frame(g, e, roots), e), ReciprocalOf(roots.e);
            Levels(Tilt(v, k), v, roots.e) <==> Measurable(roots.e)
  {
    hide Frame, Apply, ReciprocalOf, Levels, Measurable, Tilt, RootsGiven, Squares;
    FrameShowsField(g, e, roots);
    LevelsIff(Apply(Frame(g, e, roots), e), roots.e);
  }

  /** Measurements that are not rejected, with a field too weak to be levelled. */
  lemma WeakFieldIsNotLevelled()
    returns (g: Vec, e: Vec, roots: Roots)
    ensures Sound(g, e, roots) && Usable(g, roots)
    ensures var v := Apply(Frame(g, e, roots), e); !Levels(Tilt(v, ReciprocalOf(roots.e)), v, roots.e)
  {
    g, e, roots := Vec(0.0, 0.0, 20000000.0), Vec(0.0, 0.00000001, 0.0), Roots(20000000.0, 0.2, 0.00000001);
    assert Cross(e, g) == Vec(0.2, 0.0, 0.0);
    assert Dot(Vec(0.2, 0.0, 0.0), Vec(0.2, 0.0, 0.0)) == 0.2 * 0.2;
    assert !Measurable(roots.e);
    hide Levels, Tilt, ReciprocalOf, Apply, Frame, Cross, Measurable;
    InclinationLevelsIff(g, e, roots);
  }
}
