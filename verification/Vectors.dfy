/** Three-dimensional vectors, matrices and quaternions over exact reals. */
module Vectors {
  datatype Vec = Vec(x: real, y: real, z: real)

  /** A 3x3 matrix by rows. */
  datatype Mat = Mat(r0: Vec, r1: Vec, r2: Vec)

  datatype Quat = Quat(w: real, v: Vec)

  function Dot(a: Vec, b: Vec): (r: real) {
    a.x * b.x + a.y * b.y + a.z * b.z
  }

  function Cross(a: Vec, b: Vec): (r: Vec) {
    Vec(a.y * b.z - a.z * b.y, a.z * b.x - a.x * b.z, a.x * b.y - a.y * b.x)
  }

  function Scale(k: real, a: Vec): (r: Vec) {
    Vec(k * a.x, k * a.y, k * a.z)
  }

  function Add(a: Vec, b: Vec): (r: Vec) {
    Vec(a.x + b.x, a.y + b.y, a.z + b.z)
  }

  function Apply(m: Mat, v: Vec): (r: Vec) {
    Vec(Dot(m.r0, v), Dot(m.r1, v), Dot(m.r2, v))
  }

  function Det(m: Mat): (r: real) {
    Dot(m.r0, Cross(m.r1, m.r2))
  }

  function Transpose(m: Mat): (r: Mat) {
    Mat(Vec(m.r0.x, m.r1.x, m.r2.x), Vec(m.r0.y, m.r1.y, m.r2.y), Vec(m.r0.z, m.r1.z, m.r2.z))
  }

  /** The row vector a times m. */
  function RowTimes(a: Vec, m: Mat): (r: Vec) {
    Add(Add(Scale(a.x, m.r0), Scale(a.y, m.r1)), Scale(a.z, m.r2))
  }

  function Mul(a: Mat, b: Mat): (r: Mat) {
    Mat(RowTimes(a.r0, b), RowTimes(a.r1, b), RowTimes(a.r2, b))
  }

  const IDENTITY := Mat(Vec(1.0, 0.0, 0.0), Vec(0.0, 1.0, 0.0), Vec(0.0, 0.0, 1.0))

  /** m m^T = I and det m = 1. */
  predicate IsRotation(m: Mat) {
    Mul(m, Transpose(m)) == IDENTITY && Det(m) == 1.0
  }

  /** The rows of m have the inner products of an orthonormal basis. */
  predicate Orthonormal(m: Mat) {
    Dot(m.r0, m.r0) == 1.0 && Dot(m.r1, m.r1) == 1.0 && Dot(m.r2, m.r2) == 1.0
    && Dot(m.r0, m.r1) == 0.0 && Dot(m.r0, m.r2) == 0.0 && Dot(m.r1, m.r2) == 0.0
  }

  lemma OrthonormalIsTransposeInverse(m: Mat)
    ensures Orthonormal(m) <==> Mul(m, Transpose(m)) == IDENTITY
  {
    GramEntry(m.r0, m);
    GramEntry(m.r1, m);
    GramEntry(m.r2, m);
    DotCommutes(m.r0, m.r1);
    DotCommutes(m.r0, m.r2);
    DotCommutes(m.r1, m.r2);
    hide Dot, RowTimes;
  }

  lemma GramEntry(a: Vec, m: Mat)
    ensures RowTimes(a, Transpose(m)) == Vec(Dot(a, m.r0), Dot(a, m.r1), Dot(a, m.r2))
  {
  }

  lemma DotCommutes(a: Vec, b: Vec)
    ensures Dot(a, b) == Dot(b, a)
  {
  }

  lemma DotScale(k: real, a: Vec, b: Vec)
    ensures Dot(Scale(k, a), b) == k * Dot(a, b) && Dot(b, Scale(k, a)) == k * Dot(a, b)
  {
  }

  /** Lagrange's identity. */
  lemma CrossNorm(a: Vec, b: Vec)
    ensures Dot(Cross(a, b), Cross(a, b)) == Dot(a, a) * Dot(b, b) - Dot(a, b) * Dot(a, b)
  {
  }

  lemma CrossIsOrthogonal(a: Vec, b: Vec)
    ensures Dot(Cross(a, b), a) == 0.0 && Dot(Cross(a, b), b) == 0.0
  {
  }

  lemma TripleProductTurns(a: Vec, b: Vec, c: Vec)
    ensures Dot(a, Cross(b, c)) == Dot(b, Cross(c, a))
  {
  }

  // ----- quaternions

  function Norm(q: Quat): (r: real) {
    q.w * q.w + Dot(q.v, q.v)
  }

  function Times(p: Quat, q: Quat): (r: Quat) {
    Quat(p.w * q.w - Dot(p.v, q.v), Add(Add(Scale(p.w, q.v), Scale(q.w, p.v)), Cross(p.v, q.v)))
  }

  function Conjugate(q: Quat): (r: Quat) {
    Quat(q.w, Scale(-1.0, q.v))
  }

  /** The rotation a quaternion stands for: v goes to q v q*. */
  function Rotate(q: Quat, v: Vec): (r: Vec) {
    Times(Times(q, Quat(0.0, v)), Conjugate(q)).v
  }
}
