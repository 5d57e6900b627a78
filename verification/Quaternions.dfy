/** CreateQuaternion and CreateRotationMatrix, over exact reals. */
module Quaternions {
  import opened Vectors

  /** The first three numbers. */
  function First3(s: seq<real>): (v: Vec)
    requires |s| >= 3
  {
    Vec(s[0], s[1], s[2])
  }

  function QuatOf(s: seq<real>): (q: Quat)
    requires |s| >= 4
  {
    Quat(s[0], Vec(s[1], s[2], s[3]))
  }

  /** The rows of a 3x3 matrix stored in 9 numbers, or in the corner of a 4x4 one. */
  function Rows(s: seq<real>): (m: Mat)
    requires |s| == 9 || |s| == 16
  {
    if |s| == 9 then Mat(Vec(s[0], s[1], s[2]), Vec(s[3], s[4], s[5]), Vec(s[6], s[7], s[8]))
    else Mat(Vec(s[0], s[1], s[2]), Vec(s[4], s[5], s[6]), Vec(s[8], s[9], s[10]))
  }

  /** A 4x4 matrix adds the fourth row and column of the identity. */
  predicate Bordered(s: seq<real>) {
    |s| == 9 || (|s| == 16 && s[3] == s[7] == s[11] == s[12] == s[13] == s[14] == 0.0 && s[15] == 1.0)
  }

  /** root is the square root of x. */
  predicate IsRoot(root: real, x: real) {
    root >= 0.0 && root * root == x
  }

  /** `root` is the square root the method takes: of what is missing to norm 1, if positive. */
  predicate RootGiven(rotationVector: seq<real>, root: real) {
    |rotationVector| == 3 ==>
      var rest := 1.0 - Dot(First3(rotationVector), First3(rotationVector));
      rest > 0.0 ==> IsRoot(root, rest)
  }

  method CreateQuaternion(rotationVector: seq<real>, root: real, quaternion: array<real>) returns (ok: bool)
    requires RootGiven(rotationVector, root)
    modifies quaternion
    ensures ok <==> 3 <= |rotationVector| <= 4 && quaternion.Length >= 4
    ensures !ok ==> quaternion[..] == old(quaternion[..])
    ensures ok ==> QuatOf(quaternion[..]).v == First3(rotationVector) && quaternion[4..] == old(quaternion[4..])
    ensures ok && |rotationVector| == 4 ==> quaternion[0] == rotationVector[3]
    ensures ok && |rotationVector| == 3 ==>
              var q, n := QuatOf(quaternion[..]), Dot(First3(rotationVector), First3(rotationVector));
              q.w >= 0.0 && if n <= 1.0 then Norm(q) == 1.0 else q.w == 0.0
  {
    if |rotationVector| < 3 || |rotationVector| > 4 {
      return false;
    }
    if quaternion.Length < 4 {
      return false;
    }
    if |rotationVector| == 3 {
      quaternion[0] := 1.0 - (rotationVector[0] * rotationVector[0] + rotationVector[1] * rotationVector[1]
                              + rotationVector[2] * rotationVector[2]);
      quaternion[0] := if quaternion[0] > 0.0 then root else 0.0;
    } else {
      quaternion[0] := rotationVector[3];
    }
    quaternion[1] := rotationVector[0];
    quaternion[2] := rotationVector[1];
    quaternion[3] := rotationVector[2];
    return true;
  }

  /** Where entry k of a 3x3 matrix is stored in rows of `dimension` numbers. */
  function Slot(k: nat, dimension: nat): (r: nat) {
    k % 3 + k / 3 * dimension
  }

  /** The element-by-element stores that fill a 9- or 16-element matrix. */
  method Store(m: Mat, matrix: array<real>)
    requires matrix.Length == 9 || matrix.Length == 16
    modifies matrix
    ensures Bordered(matrix[..]) && Rows(matrix[..]) == m
  {
    if matrix.Length == 16 {
      StoreRows(m, matrix, 4);
      matrix[3], matrix[7], matrix[11] := 0.0, 0.0, 0.0;
      matrix[12], matrix[13], matrix[14] := 0.0, 0.0, 0.0;
      matrix[15] := 1.0;
    } else {
      StoreRows(m, matrix, 3);
    }
  }

  method StoreRows(m: Mat, matrix: array<real>, dimension: nat)
    requires (dimension == 3 && matrix.Length == 9) || (dimension == 4 && matrix.Length == 16)
    modifies matrix
    ensures Rows(matrix[..]) == m
  {
    matrix[0] := m.r0.x;
    matrix[1] := m.r0.y;
    matrix[2] := m.r0.z;
    matrix[Slot(3, dimension)] := m.r1.x;
    matrix[Slot(4, dimension)] := m.r1.y;
    matrix[Slot(5, dimension)] := m.r1.z;
    matrix[Slot(6, dimension)] := m.r2.x;
    matrix[Slot(7, dimension)] := m.r2.y;
    matrix[Slot(8, dimension)] := m.r2.z;
  }

  function Twice(a: real, b: real): (r: real) {
    2.0 * a * b
  }

  function RotationOf(q: Quat): (m: Mat) {
    var w, x, y, z := q.w, q.v.x, q.v.y, q.v.z;
    Mat(Vec(1.0 - Twice(y, y) - Twice(z, z), Twice(x, y) - Twice(w, z), Twice(x, z) + Twice(w, y)),
        Vec(Twice(x, y) + Twice(w, z), 1.0 - Twice(x, x) - Twice(z, z), Twice(y, z) - Twice(w, x)),
        Vec(Twice(x, z) - Twice(w, y), Twice(y, z) + Twice(w, x), 1.0 - Twice(x, x) - Twice(y, y)))
  }

  /** The quaternion a 3- or 4-vector stands for. */
  function Completed(rotationVector: seq<real>, root: real): (q: Quat)
    requires 3 <= |rotationVector| <= 4
  {
    var v := First3(rotationVector);
    Quat(if |rotationVector| == 4 then rotationVector[3] else if Dot(v, v) < 1.0 then root else 0.0, v)
  }

  method CreateRotationMatrix(rotationVector: seq<real>, root: real, rotationMatrix: array<real>) returns (ok: bool)
    requires RootGiven(rotationVector, root)
    modifies rotationMatrix
    ensures ok <==> 3 <= |rotationVector| <= 4 && (rotationMatrix.Length == 9 || rotationMatrix.Length == 16)
    ensures !ok ==> rotationMatrix[..] == old(rotationMatrix[..])
    ensures ok ==>
              Bordered(rotationMatrix[..]) && Rows(rotationMatrix[..]) == RotationOf(Completed(rotationVector, root))
  {
    var length := rotationMatrix.Length;
    if |rotationVector| < 3 || (length != 16 && length != 9) {
      return false;
    }
    var quaternion := new real[4](_ => 0.0);
    ok := CreateQuaternion(rotationVector, root, quaternion);
    if !ok {
      return;
    }
    assert QuatOf(quaternion[..]) == Completed(rotationVector, root) by {
      CompletedIsUnique(rotationVector, root, QuatOf(quaternion[..]));
    }
    hide Twice, Completed;
    var squareOfX := Twice(quaternion[1], quaternion[1]);
    var squareOfY := Twice(quaternion[2], quaternion[2]);
    var squareOfZ := Twice(quaternion[3], quaternion[3]);
    var productOfWZ := Twice(quaternion[0], quaternion[3]);
    var productOfXY := Twice(quaternion[1], quaternion[2]);
    var productOfWY := Twice(quaternion[0], quaternion[2]);
    var productOfXZ := Twice(quaternion[1], quaternion[3]);
    var productOfWX := Twice(quaternion[0], quaternion[1]);
    var productOfYZ := Twice(quaternion[2], quaternion[3]);
    Store(Mat(Vec(1.0 - squareOfY - squareOfZ, productOfXY - productOfWZ, productOfXZ + productOfWY),
              Vec(productOfXY + productOfWZ, 1.0 - squareOfX - squareOfZ, productOfYZ - productOfWX),
              Vec(productOfXZ - productOfWY, productOfYZ + productOfWX, 1.0 - squareOfX - squareOfY)), rotationMatrix);
  }

  lemma CompletedIsUnique(rotationVector: seq<real>, root: real, q: Quat)
    requires 3 <= |rotationVector| <= 4 && RootGiven(rotationVector, root) && q.v == First3(rotationVector)
    requires |rotationVector| == 4 ==> q.w == rotationVector[3]
    requires var n := Dot(q.v, q.v);
             |rotationVector| == 3 ==> q.w >= 0.0 && if n <= 1.0 then Norm(q) == 1.0 else q.w == 0.0
    ensures q == Completed(rotationVector, root)
  {
    if |rotationVector| == 3 && Dot(q.v, q.v) <= 1.0 {
      RootIsUnique(q.w, if Dot(q.v, q.v) < 1.0 then root else 0.0);
    }
  }

  lemma RootIsUnique(a: real, b: real)
    requires a >= 0.0 && b >= 0.0 && a * a == b * b
    ensures a == b
  {
    if a != b {
      assert (a - b) * (a + b) == 0.0;
      FactorIsZero(a - b, a + b);
    }
  }

  lemma FactorIsZero(x: real, y: real)
    requires x * y == 0.0 && y != 0.0
    ensures x == 0.0
  {
  }

  // ----- what the matrix is

  lemma TwiceFacts(a: real, b: real)
    ensures Twice(a, b) == Twice(b, a) && Twice(-a, b) == -Twice(a, b)
  {
  }

  /** The first row of the matrix of w, x, y, z. */
  function Row0(w: real, x: real, y: real, z: real): (r: Vec) {
    Vec(1.0 - Twice(y, y) - Twice(z, z), Twice(x, y) - Twice(w, z), Twice(x, z) + Twice(w, y))
  }

  function Row1(w: real, x: real, y: real, z: real): (r: Vec) {
    Vec(Twice(x, y) + Twice(w, z), 1.0 - Twice(x, x) - Twice(z, z), Twice(y, z) - Twice(w, x))
  }

  /** Up to the order of the coordinates, every row is a first row and every pair of rows the first pair. */
  lemma RowsAreAlike(q: Quat)
    ensures var m, w, x, y, z := RotationOf(q), q.w, q.v.x, q.v.y, q.v.z;
            m.r0 == Row0(w, x, y, z) && m.r1 == Row1(w, x, y, z)
            && Vec(m.r1.y, m.r1.x, m.r1.z) == Row0(-w, y, x, z) && Vec(m.r0.y, m.r0.x, m.r0.z) == Row1(-w, y, x, z)
            && Vec(m.r2.z, m.r2.x, m.r2.y) == Row0(w, z, x, y)
            && Vec(m.r0.x, m.r0.z, m.r0.y) == Row0(-w, x, z, y) && Vec(m.r2.x, m.r2.z, m.r2.y) == Row1(-w, x, z, y)
            && Vec(m.r1.y, m.r1.z, m.r1.x) == Row0(w, y, z, x) && Vec(m.r2.y, m.r2.z, m.r2.x) == Row1(w, y, z, x)
  {
    var w, x, y, z := q.w, q.v.x, q.v.y, q.v.z;
    TwiceFacts(x, y);
    TwiceFacts(x, z);
    TwiceFacts(y, z);
    TwiceFacts(w, x);
    TwiceFacts(w, y);
    TwiceFacts(w, z);
    hide Twice;
  }

  /** What norm n leaves over at coordinates a and b. */
  function Defect(n: real, a: real, b: real): (r: real) {
    4.0 * (1.0 - n) * (a * b)
  }

  lemma Row0Length(w: real, x: real, y: real, z: real)
    ensures var n := Norm(Quat(w, Vec(x, y, z)));
            Dot(Row0(w, x, y, z), Row0(w, x, y, z)) == 1.0 - Defect(n, y, y) - Defect(n, z, z)
  {
    Row0Squares(w, x, y, z, Norm(Quat(w, Vec(x, y, z))));
    hide Row0;
  }

  lemma Row0Squares(w: real, x: real, y: real, z: real, n: real)
    requires n == w * w + (x * x + y * y + z * z)
    ensures var r := Row0(w, x, y, z);
            r.x * r.x + r.y * r.y + r.z * r.z == 1.0 - 4.0 * (1.0 - n) * (y * y) - 4.0 * (1.0 - n) * (z * z)
  {
  }

  lemma Row0Row1(w: real, x: real, y: real, z: real)
    ensures Dot(Row0(w, x, y, z), Row1(w, x, y, z)) == Defect(Norm(Quat(w, Vec(x, y, z))), x, y)
  {
    Row0Row1Products(w, x, y, z, Norm(Quat(w, Vec(x, y, z))));
    hide Row0, Row1;
  }

  lemma Row0Row1Products(w: real, x: real, y: real, z: real, n: real)
    requires n == w * w + (x * x + y * y + z * z)
    ensures var r, t := Row0(w, x, y, z), Row1(w, x, y, z);
            r.x * t.x + r.y * t.y + r.z * t.z == 4.0 * (1.0 - n) * (x * y)
  {
  }

  lemma DotAlike(a: Vec, b: Vec)
    ensures Dot(Vec(a.y, a.x, a.z), Vec(b.y, b.x, b.z)) == Dot(a, b)
    ensures Dot(Vec(a.z, a.x, a.y), Vec(b.z, b.x, b.y)) == Dot(a, b)
    ensures Dot(Vec(a.x, a.z, a.y), Vec(b.x, b.z, b.y)) == Dot(a, b)
    ensures Dot(Vec(a.y, a.z, a.x), Vec(b.y, b.z, b.x)) == Dot(a, b)
  {
  }

  lemma NormAlike(w: real, x: real, y: real, z: real)
    ensures var n := Norm(Quat(w, Vec(x, y, z)));
            Norm(Quat(-w, Vec(y, x, z))) == n && Norm(Quat(w, Vec(z, x, y))) == n
            && Norm(Quat(-w, Vec(x, z, y))) == n && Norm(Quat(w, Vec(y, z, x))) == n
  {
  }

  /** How far the rows are from orthonormal. */
  lemma GramOfRotation(q: Quat)
    ensures var m, n, x, y, z := RotationOf(q), Norm(q), q.v.x, q.v.y, q.v.z;
            Dot(m.r0, m.r0) == 1.0 - Defect(n, y, y) - Defect(n, z, z)
            && Dot(m.r1, m.r1) == 1.0 - Defect(n, x, x) - Defect(n, z, z)
            && Dot(m.r2, m.r2) == 1.0 - Defect(n, x, x) - Defect(n, y, y)
            && Dot(m.r0, m.r1) == Defect(n, x, y) && Dot(m.r0, m.r2) == Defect(n, x, z)
                && Dot(m.r1, m.r2) == Defect(n, y, z)
  {
    hide Row0, Row1, RotationOf, Twice, Dot, Norm, Defect;
    var m, w, x, y, z := RotationOf(q), q.w, q.v.x, q.v.y, q.v.z;
    RowsAreAlike(q);
    NormAlike(w, x, y, z);
    DotAlike(m.r1, m.r1);
    DotAlike(m.r2, m.r2);
    DotAlike(m.r0, m.r2);
    DotAlike(m.r1, m.r2);
    Row0Length(w, x, y, z);
    Row0Length(-w, y, x, z);
    Row0Length(w, z, x, y);
    Row0Row1(w, x, y, z);
    Row0Row1(-w, x, z, y);
    Row0Row1(w, y, z, x);
  }

  /** A unit quaternion's third row completes the first two to a right-handed basis. */
  lemma ThirdRow(q: Quat)
    requires Norm(q) == 1.0
    ensures RotationOf(q).r2 == Cross(RotationOf(q).r0, RotationOf(q).r1)
  {
    var w, x, y, z := q.w, q.v.x, q.v.y, q.v.z;
    RowsAreAlike(q);
    NormAlike(w, x, y, z);
    TwiceFacts(w, x);
    hide Norm, Twice, Row0, Row1;
    ThirdRowSide(w, x, y, z);
    ThirdRowSide(-w, y, x, z);
    ThirdRowCorner(w, x, y, z);
  }

  lemma ThirdRowSide(w: real, x: real, y: real, z: real)
    requires Norm(Quat(w, Vec(x, y, z))) == 1.0
    ensures var r, t := Row0(w, x, y, z), Row1(w, x, y, z);
            r.y * t.z - r.z * t.y == Twice(x, z) - Twice(w, y)
  {
    hide Row0, Row1;
    SideProducts(w, x, y, z, 1.0);
  }

  lemma SideProducts(w: real, x: real, y: real, z: real, n: real)
    requires n == w * w + (x * x + y * y + z * z)
    ensures var r, t := Row0(w, x, y, z), Row1(w, x, y, z);
            r.y * t.z - r.z * t.y == 4.0 * n * (x * z) - 2.0 * (x * z) - 2.0 * (w * y)
  {
  }

  lemma ThirdRowCorner(w: real, x: real, y: real, z: real)
    requires Norm(Quat(w, Vec(x, y, z))) == 1.0
    ensures var r, t := Row0(w, x, y, z), Row1(w, x, y, z);
            r.x * t.y - r.y * t.x == 1.0 - Twice(x, x) - Twice(y, y)
  {
    hide Row0, Row1;
    CornerProducts(w, x, y, z, 1.0);
  }

  lemma CornerProducts(w: real, x: real, y: real, z: real, n: real)
    requires n == w * w + (x * x + y * y + z * z)
    ensures var r, t := Row0(w, x, y, z), Row1(w, x, y, z);
            r.x * t.y - r.y * t.x == 1.0 - 2.0 * (x * x) - 2.0 * (y * y) - 4.0 * (1.0 - n) * (z * z)
  {
  }

  /** The matrix is a rotation if and only if the quaternion has norm 1 (or no vector part). */
  lemma RotationIffUnit(q: Quat)
    ensures IsRotation(RotationOf(q)) <==> Norm(q) == 1.0 || q.v == Vec(0.0, 0.0, 0.0)
  {
    if q.v == Vec(0.0, 0.0, 0.0) {
      NoVectorPart(q);
    } else if Norm(q) == 1.0 {
      UnitGivesRotation(q);
    } else {
      OrthonormalIsTransposeInverse(RotationOf(q));
      OthersDoNot(q);
    }
    hide RotationOf, Norm, Orthonormal;
  }

  lemma NoVectorPart(q: Quat)
    requires q.v == Vec(0.0, 0.0, 0.0)
    ensures IsRotation(RotationOf(q))
  {
    TwiceZero(0.0);
    TwiceZero(q.w);
    hide Twice;
    assert RotationOf(q) == IDENTITY;
    IdentityIsRotation();
    hide *;
  }

  lemma TwiceZero(a: real)
    ensures Twice(a, 0.0) == 0.0 && Twice(0.0, a) == 0.0
  {
  }

  lemma IdentityIsRotation()
    ensures IsRotation(IDENTITY)
  {
    hide Mul, Dot, Cross;
    var i, j, k := Vec(1.0, 0.0, 0.0), Vec(0.0, 1.0, 0.0), Vec(0.0, 0.0, 1.0);
    AxisCross();
    DotWithAxis(i);
    DotWithAxis(j);
    DotWithAxis(k);
    OrthonormalIsTransposeInverse(Mat(i, j, k));
  }

  lemma AxisCross()
    ensures Cross(Vec(0.0, 1.0, 0.0), Vec(0.0, 0.0, 1.0)) == Vec(1.0, 0.0, 0.0)
  {
  }

  lemma DotWithAxis(a: Vec)
    ensures Dot(Vec(1.0, 0.0, 0.0), a) == a.x && Dot(Vec(0.0, 1.0, 0.0), a) == a.y && Dot(Vec(0.0, 0.0, 1.0), a) == a.z
  {
  }

  lemma UnitGivesRotation(q: Quat)
    requires Norm(q) == 1.0
    ensures IsRotation(RotationOf(q))
  {
    var m := RotationOf(q);
    OrthonormalIsTransposeInverse(m);
    GramOfRotation(q);
    ThirdRow(q);
    TripleProductTurns(m.r2, m.r0, m.r1);
    hide RotationOf, Norm, Mul, Dot, Cross;
    NothingLeft(q.v.x, q.v.x);
    NothingLeft(q.v.y, q.v.y);
    NothingLeft(q.v.z, q.v.z);
    NothingLeft(q.v.x, q.v.y);
    NothingLeft(q.v.x, q.v.z);
    NothingLeft(q.v.y, q.v.z);
    hide Defect;
  }

  lemma NothingLeft(a: real, b: real)
    ensures Defect(1.0, a, b) == 0.0
  {
  }

  lemma OthersDoNot(q: Quat)
    requires Norm(q) != 1.0 && q.v != Vec(0.0, 0.0, 0.0)
    ensures !Orthonormal(RotationOf(q))
  {
    GramOfRotation(q);
    hide RotationOf, Norm, Dot;
    DefectIsZero(Norm(q), q.v.x);
    DefectIsZero(Norm(q), q.v.y);
    DefectIsZero(Norm(q), q.v.z);
    hide Defect;
  }

  lemma DefectIsZero(n: real, x: real)
    requires n != 1.0
    ensures Defect(n, x, x) == 0.0 ==> x == 0.0
  {
    if Defect(n, x, x) == 0.0 {
      FactorIsZero(x * x, 4.0 * (1.0 - n));
      if x != 0.0 {
        FactorIsZero(x, x);
      }
    }
  }

  lemma RotateEntry(w: real, x: real, y: real, z: real, v: Vec, n: real, d: real, p: Vec)
    requires n == w * w + (x * x + y * y + z * z) && d == x * v.x + y * v.y + z * v.z
    requires p.x == w * v.x + (y * v.z - z * v.y) && p.y == w * v.y + (z * v.x - x * v.z)
             && p.z == w * v.z + (x * v.y - y * v.x)
    ensures Dot(Row0(w, x, y, z), v) == d * x + w * p.x + (p.z * y - p.y * z) + (1.0 - n) * v.x
  {
  }

  /** q v q* in vectors, by way of q v = (-d, p). */
  lemma RotateParts(q: Quat, v: Vec)
    ensures var d, p := Dot(q.v, v), Add(Scale(q.w, v), Cross(q.v, v));
            Times(q, Quat(0.0, v)) == Quat(-d, p)
            && Rotate(q, v) == Add(Add(Scale(d, q.v), Scale(q.w, p)), Cross(q.v, p))
  {
    var d, p, u := Dot(q.v, v), Add(Scale(q.w, v), Cross(q.v, v)), q.v;
    assert Times(q, Quat(0.0, v)) == Quat(-d, p) by { hide Dot, Cross; }
    BothNegated(d, u);
    CrossNegated(p, u);
    hide Dot, Cross, Add, Scale;
  }

  lemma BothNegated(d: real, u: Vec)
    ensures Scale(-d, Scale(-1.0, u)) == Scale(d, u)
  {
  }

  lemma CrossNegated(p: Vec, u: Vec)
    ensures Cross(p, Scale(-1.0, u)) == Cross(u, p)
  {
  }

  function Turned(v: Vec): (r: Vec) {
    Vec(v.y, v.z, v.x)
  }

  lemma TimesTurns(p: Quat, q: Quat)
    ensures Times(Quat(p.w, Turned(p.v)), Quat(q.w, Turned(q.v))) == Quat(Times(p, q).w, Turned(Times(p, q).v))
  {
    DotAlike(p.v, q.v);
    assert Cross(Turned(p.v), Turned(q.v)) == Turned(Cross(p.v, q.v));
    hide Dot, Cross;
  }

  /** Conjugation does not depend on which axis is called first. */
  lemma RotateTurns(q: Quat, v: Vec)
    ensures Rotate(Quat(q.w, Turned(q.v)), Turned(v)) == Turned(Rotate(q, v))
  {
    TimesTurns(q, Quat(0.0, v));
    TimesTurns(Times(q, Quat(0.0, v)), Conjugate(q));
    hide Times;
  }

  lemma FirstCoordinate(q: Quat, v: Vec)
    requires Norm(q) == 1.0
    ensures Dot(Row0(q.w, q.v.x, q.v.y, q.v.z), v) == Rotate(q, v).x
  {
    var w, x, y, z := q.w, q.v.x, q.v.y, q.v.z;
    RotateParts(q, v);
    var p := Add(Scale(w, v), Cross(q.v, v));
    RotateEntry(w, x, y, z, v, w * w + (x * x + y * y + z * z), Dot(q.v, v), p);
    hide Row0, Rotate, Times;
  }

  /** The matrix turns v into q v q*. */
  lemma MatrixIsConjugation(q: Quat, v: Vec)
    requires Norm(q) == 1.0
    ensures Apply(RotationOf(q), v) == Rotate(q, v)
  {
    var m, q1, v1 := RotationOf(q), Quat(q.w, Turned(q.v)), Turned(v);
    RowsAreAlike(q);
    DotAlike(m.r1, v);
    DotAlike(m.r2, v);
    NormAlike(q.w, q.v.x, q.v.y, q.v.z);
    hide Row0, Row1, RotationOf, Rotate, Dot, Norm;
    FirstCoordinate(q, v);
    FirstCoordinate(q1, v1);
    FirstCoordinate(Quat(q.w, Turned(q1.v)), Turned(v1));
    RotateTurns(q, v);
    RotateTurns(q1, v1);
  }

  lemma CompletedNorm(rotationVector: seq<real>, root: real)
    requires |rotationVector| == 3 && RootGiven(rotationVector, root)
    ensures var q := Completed(rotationVector, root);
            Norm(q) == 1.0 <==> Dot(q.v, q.v) <= 1.0
  {
    hide Dot;
  }

  /** A 3-vector makes a rotation exactly if its norm is at most 1; a 4-vector exactly if it is a
      unit quaternion (or has no vector part). */
  lemma CreatedMatrixIsRotationIff(rotationVector: seq<real>, root: real)
    requires 3 <= |rotationVector| <= 4 && RootGiven(rotationVector, root)
    ensures var v := First3(rotationVector);
            IsRotation(RotationOf(Completed(rotationVector, root))) <==>
              if |rotationVector| == 3 then Dot(v, v) <= 1.0
              else rotationVector[3] * rotationVector[3] + Dot(v, v) == 1.0 || v == Vec(0.0, 0.0, 0.0)
  {
    var q := Completed(rotationVector, root);
    RotationIffUnit(q);
    DotWithZero(q.v);
    if |rotationVector| == 3 {
      CompletedNorm(rotationVector, root);
      hide RotationOf, IsRotation, Dot, Norm;
    } else {
      assert Norm(q) == rotationVector[3] * rotationVector[3] + Dot(q.v, q.v);
      hide RotationOf, IsRotation, Dot, Norm;
    }
  }

  /** A 3-vector of norm 2. */
  lemma LongVectorIsNoRotation(root: real)
    ensures RootGiven([2.0, 0.0, 0.0], root) && !IsRotation(RotationOf(Completed([2.0, 0.0, 0.0], root)))
  {
    assert Dot(Vec(2.0, 0.0, 0.0), Vec(2.0, 0.0, 0.0)) == 4.0;
    assert First3([2.0, 0.0, 0.0]) == Vec(2.0, 0.0, 0.0);
    hide Dot, RotationOf, IsRotation, Completed;
    CreatedMatrixIsRotationIff([2.0, 0.0, 0.0], root);
  }

  lemma DotWithZero(a: Vec)
    ensures a == Vec(0.0, 0.0, 0.0) ==> Dot(a, a) == 0.0
  {
  }
}
