/** TransformCoordinateSystem, over exact reals. */
module CoordinateSystems {
  import opened Vectors
  import opened Quaternions

  /** An axis code as its 32 bits; the top bit is the sign of the int32_t. */
  type Code = bv32

  /** axisX & 0x3. */
  function Low(axis: Code): (r: Code) {
    axis & 3
  }

  /** (axis & 0x3) - 1: the column an accepted code names. */
  function Column(axis: Code): (r: int)
    ensures -1 <= r <= 2
  {
    var low := Low(axis);
    if low == 0 then -1 else if low == 1 then 0 else if low == 2 then 1 else 2
  }

  /** axis >= 0x80, for a code that is not negative. */
  predicate Minus(axis: Code) {
    axis >= 0x80
  }

  predicate Accepted(axisX: Code, axisY: Code) {
    axisX < 0x8000_0000 && axisY < 0x8000_0000
    && axisX & 0x7C == 0 && Low(axisX) != 0
    && axisY & 0x7C == 0 && Low(axisY) != 0 && Low(axisX) != Low(axisY)
  }

  /** The third axis: the remaining column, and the sign that is to make the system right-handed. */
  function ThirdAxis(axisX: Code, axisY: Code): (r: Code) {
    var axisZ := axisX ^ axisY;
    var x, y, z := Column(axisX), Column(axisY), Column(axisZ);
    if x != (z + 1) % 3 || y != (z + 2) % 3 then axisZ ^ 0x80 else axisZ
  }

  function Signed(minus: bool, a: real): (r: real) {
    if minus then -a else a
  }

  /** Where the three entries of a row go. */
  datatype Axes = Axes(x: int, y: int, z: int, minusX: bool, minusY: bool, minusZ: bool) {
    predicate Permutes() {
      0 <= x < 3 && 0 <= y < 3 && 0 <= z < 3 && x != y && x != z && y != z
    }
  }

  function AxesOf(axisX: Code, axisY: Code): (a: Axes) {
    var axisZ := ThirdAxis(axisX, axisY);
    Axes(Column(axisX), Column(axisY), Column(axisX ^ axisY), Minus(axisX), Minus(axisY), Minus(axisZ))
  }

  /** The row with its first entry moved to column a.x, its second to a.y and its third to a.z. */
  function MoveRow(a: Axes, r: Vec): (s: Vec) {
    Vec(Entry(a, r, 0), Entry(a, r, 1), Entry(a, r, 2))
  }

  function Entry(a: Axes, r: Vec, i: int): (e: real) {
    if a.z == i then Signed(a.minusZ, r.z)
    else if a.y == i then Signed(a.minusY, r.y)
    else Signed(a.minusX, r.x)
  }

  function Move(a: Axes, m: Mat): (t: Mat) {
    Mat(MoveRow(a, m.r0), MoveRow(a, m.r1), MoveRow(a, m.r2))
  }

  lemma ThirdColumn(axisX: Code, axisY: Code)
    requires Accepted(axisX, axisY)
    ensures AxesOf(axisX, axisY).Permutes()
  {
    var a, b := Low(axisX), Low(axisY);
    assert Low(axisX ^ axisY) == a ^ b;
    assert (a == 1 || a == 2 || a == 3) && (b == 1 || b == 2 || b == 3);
  }

  /** j * dimension, without a product of variables. */
  function Offset(j: int, dimension: int): (r: int)
    requires 3 <= dimension <= 4
    ensures r == j * dimension
  {
    if dimension == 4 then 4 * j else 3 * j
  }

  function RowAt(s: seq<real>, offset: nat): (r: Vec)
    requires offset + 3 <= |s|
  {
    Vec(s[offset], s[offset + 1], s[offset + 2])
  }

  /** The inner loop: one row, column by column. */
  method FillRow(inRotationMatrix: seq<real>, a: Axes, offset: nat, outRotationMatrix: array<real>)
    requires offset + 3 <= |inRotationMatrix| == outRotationMatrix.Length && a.Permutes()
    modifies outRotationMatrix
    ensures RowAt(outRotationMatrix[..], offset) == MoveRow(a, RowAt(inRotationMatrix, offset))
    ensures forall k :: 0 <= k < outRotationMatrix.Length && !(offset <= k < offset + 3) ==>
              outRotationMatrix[k] == old(outRotationMatrix[k])
  {
    var i := 0;
    while i < 3
      invariant 0 <= i <= 3
      invariant forall k :: 0 <= k < i ==> outRotationMatrix[offset + k] == Entry(a, RowAt(inRotationMatrix, offset), k)
      invariant forall k :: 0 <= k < outRotationMatrix.Length && !(offset <= k < offset + 3) ==>
                  outRotationMatrix[k] == old(outRotationMatrix[k])
    {
      if a.x == i {
        outRotationMatrix[offset + i] := if a.minusX then -inRotationMatrix[offset + 0]
            else inRotationMatrix[offset + 0];
      }
      if a.y == i {
        outRotationMatrix[offset + i] := if a.minusY then -inRotationMatrix[offset + 1]
            else inRotationMatrix[offset + 1];
      }
      if a.z == i {
        outRotationMatrix[offset + i] := if a.minusZ then -inRotationMatrix[offset + 2]
            else inRotationMatrix[offset + 2];
      }
      i := i + 1;
    }
  }

  method TransformCoordinateSystemImpl(inRotationMatrix: seq<real>, axisX: Code, axisY: Code,
      outRotationMatrix: array<real>) returns (ok: bool)
    requires axisX < 0x8000_0000 && axisY < 0x8000_0000
    requires |inRotationMatrix| == outRotationMatrix.Length && (|inRotationMatrix| == 9 || |inRotationMatrix| == 16)
    modifies outRotationMatrix
    ensures ok <==> Accepted(axisX, axisY)
    ensures !ok ==> outRotationMatrix[..] == old(outRotationMatrix[..])
    ensures ok ==> Bordered(outRotationMatrix[..])
                   && Rows(outRotationMatrix[..]) == Move(AxesOf(axisX, axisY), Rows(inRotationMatrix))
  {
    hide AxesOf, MoveRow;
    if axisX & 0x7C != 0 || axisX & 0x3 == 0 {
      return false;
    }
    if axisY & 0x7C != 0 || axisY & 0x3 == 0 || axisX & 0x3 == axisY & 0x3 {
      return false;
    }
    var a := AxesOf(axisX, axisY);
    ThirdColumn(axisX, axisY);
    var dimension := if |inRotationMatrix| == 16 then 4 else 3;
    var j := 0;
    while j < 3
      invariant 0 <= j <= 3
      invariant forall r :: 0 <= r < j ==>
        RowAt(outRotationMatrix[..], Offset(r, dimension)) == MoveRow(a, RowAt(inRotationMatrix, Offset(r, dimension)))
    {
      FillRow(inRotationMatrix, a, Offset(j, dimension), outRotationMatrix);
      j := j + 1;
    }
    assert Rows(outRotationMatrix[..]) == Move(a, Rows(inRotationMatrix)) by {
      assert RowAt(outRotationMatrix[..], Offset(0, dimension))
          == MoveRow(a, RowAt(inRotationMatrix, Offset(0, dimension)));
      assert RowAt(outRotationMatrix[..], Offset(1, dimension))
          == MoveRow(a, RowAt(inRotationMatrix, Offset(1, dimension)));
      assert RowAt(outRotationMatrix[..], Offset(2, dimension))
          == MoveRow(a, RowAt(inRotationMatrix, Offset(2, dimension)));
    }
    if |inRotationMatrix| == 16 {
      outRotationMatrix[3], outRotationMatrix[7], outRotationMatrix[11] := 0.0, 0.0, 0.0;
      outRotationMatrix[12], outRotationMatrix[13], outRotationMatrix[14] := 0.0, 0.0, 0.0;
      outRotationMatrix[15] := 1.0;
    }
    return true;
  }

  /** On equal matrices the result is built aside and copied back. */
  method TransformCoordinateSystem(inRotationMatrix: seq<real>, axisX: Code, axisY: Code,
      outRotationMatrix: array<real>) returns (ok: bool)
    modifies outRotationMatrix
    ensures ok <==>
              (|inRotationMatrix| == 9 || |inRotationMatrix| == 16)
              && |inRotationMatrix| == outRotationMatrix.Length && Accepted(axisX, axisY)
    ensures !ok ==> outRotationMatrix[..] == old(outRotationMatrix[..])
    ensures ok ==> Bordered(outRotationMatrix[..])
                   && Rows(outRotationMatrix[..]) == Move(AxesOf(axisX, axisY), Rows(inRotationMatrix))
  {
    hide AxesOf, Move;
    if axisX >= 0x8000_0000 || axisY >= 0x8000_0000 {
      return false;
    }
    var length := |inRotationMatrix|;
    if (length != 9 && length != 16) || length != outRotationMatrix.Length {
      return false;
    }
    if inRotationMatrix == outRotationMatrix[..] {
      var temp := new real[length](_ => 0.0);
      ok := TransformCoordinateSystemImpl(inRotationMatrix, axisX, axisY, temp);
      if !ok {
        return;
      }
      var i := 0;
      while i < length
        invariant 0 <= i <= length
        invariant forall k :: 0 <= k < i ==> outRotationMatrix[k] == temp[k]
        modifies outRotationMatrix
      {
        outRotationMatrix[i] := temp[i];
        i := i + 1;
      }
      assert outRotationMatrix[..] == temp[..];
      return true;
    }
    ok := TransformCoordinateSystemImpl(inRotationMatrix, axisX, axisY, outRotationMatrix);
  }

  // ----- what the transformation does

  /** Row inner products are kept: the rows are turned, at most mirrored. */
  lemma MoveKeepsInnerProducts(a: Axes, r: Vec, s: Vec)
    requires a.Permutes()
    ensures Dot(MoveRow(a, r), MoveRow(a, s)) == Dot(r, s)
  {
    SignedProduct(a.minusX, r.x, s.x);
    SignedProduct(a.minusY, r.y, s.y);
    SignedProduct(a.minusZ, r.z, s.z);
    var m, n := MoveRow(a, r), MoveRow(a, s);
    hide Signed;
  }

  lemma SignedProduct(minus: bool, a: real, b: real)
    ensures Signed(minus, a) * Signed(minus, b) == a * b
  {
  }

  /** The columns are moved to an odd permutation. */
  predicate Odd(a: Axes) {
    a.x != (a.z + 1) % 3
  }

  /** The permutation and the signs together mirror. */
  predicate Mirrors(a: Axes) {
    ((Odd(a) != a.minusX) != a.minusY) != a.minusZ
  }

  function Unsigned(a: Axes): (b: Axes) {
    a.(minusX := false, minusY := false, minusZ := false)
  }

  function FlipX(minus: bool, m: Mat): (t: Mat) {
    Mat(m.r0.(x := Signed(minus, m.r0.x)), m.r1.(x := Signed(minus, m.r1.x)), m.r2.(x := Signed(minus, m.r2.x)))
  }

  function FlipY(minus: bool, m: Mat): (t: Mat) {
    Mat(m.r0.(y := Signed(minus, m.r0.y)), m.r1.(y := Signed(minus, m.r1.y)), m.r2.(y := Signed(minus, m.r2.y)))
  }

  function FlipZ(minus: bool, m: Mat): (t: Mat) {
    Mat(m.r0.(z := Signed(minus, m.r0.z)), m.r1.(z := Signed(minus, m.r1.z)), m.r2.(z := Signed(minus, m.r2.z)))
  }

  lemma DetOfFlips(minus: bool, m: Mat)
    ensures Det(FlipX(minus, m)) == Signed(minus, Det(m))
    ensures Det(FlipY(minus, m)) == Signed(minus, Det(m))
    ensures Det(FlipZ(minus, m)) == Signed(minus, Det(m))
  {
  }

  lemma DetOfPermuted(a: Axes, m: Mat)
    requires a.Permutes() && a == Unsigned(a)
    ensures Det(Move(a, m)) == Signed(Odd(a), Det(m))
  {
  }

  lemma MoveIsFlipAndPermute(a: Axes, m: Mat)
    requires a.Permutes()
    ensures Move(a, m) == Move(Unsigned(a), FlipZ(a.minusZ, FlipY(a.minusY, FlipX(a.minusX, m))))
  {
  }

  lemma MoveSignsDet(a: Axes, m: Mat)
    requires a.Permutes()
    ensures Det(Move(a, m)) == Signed(Mirrors(a), Det(m))
  {
    MoveIsFlipAndPermute(a, m);
    var m1 := FlipX(a.minusX, m);
    var m2 := FlipY(a.minusY, m1);
    DetOfFlips(a.minusX, m);
    DetOfFlips(a.minusY, m1);
    DetOfFlips(a.minusZ, m2);
    DetOfPermuted(Unsigned(a), FlipZ(a.minusZ, m2));
    hide Det, Move, FlipX, FlipY, FlipZ;
  }

  /** The entry in a column. */
  function At(r: Vec, column: int): (e: real) {
    if column == 0 then r.x else if column == 1 then r.y else r.z
  }

  /** The first entry of a row goes to the column the X code names and the second to the one the Y
      code names, negated for codes from 0x80 on. */
  lemma NamedColumns(axisX: Code, axisY: Code, r: Vec)
    requires Accepted(axisX, axisY)
    ensures var s := MoveRow(AxesOf(axisX, axisY), r);
            At(s, (axisX & 3) as int - 1) == (if axisX >= 0x80 then -r.x else r.x)
            && At(s, (axisY & 3) as int - 1) == (if axisY >= 0x80 then -r.y else r.y)
  {
    ThirdColumn(axisX, axisY);
    ColumnIs(axisX);
    ColumnIs(axisY);
    hide ThirdAxis, Column;
  }

  lemma ColumnIs(axis: Code)
    ensures Column(axis) == (axis & 3) as int - 1
  {
    assert Low(axis) == 0 || Low(axis) == 1 || Low(axis) == 2 || Low(axis) == 3;
  }

  /** The documented codes: 1, 2, 3 and the same with the sign bit. */
  predicate Documented(axis: Code) {
    axis == 1 || axis == 2 || axis == 3 || axis == 0x81 || axis == 0x82 || axis == 0x83
  }

  /** Codes are accepted exactly if they are not negative, their lowest bytes are documented codes,
      and they name different axes. */
  lemma AcceptedIff(axisX: Code, axisY: Code)
    ensures Accepted(axisX, axisY)
        <==> axisX < 0x8000_0000 && axisY < 0x8000_0000 && Documented(axisX & 0xFF) && Documented(axisY & 0xFF)
             && axisX & 0x7F != axisY & 0x7F
  {
    LowByte(axisX);
    LowByte(axisY);
    assert axisX & 0x7C == 0 && axisY & 0x7C == 0 ==> axisX & 0x7F == Low(axisX) && axisY & 0x7F == Low(axisY);
  }

  lemma LowByte(axis: Code)
    ensures Documented(axis & 0xFF) <==> axis & 0x7C == 0 && Low(axis) != 0
  {
  }

  // ----- which codes give a rotation

  /** The bits above the sign bit 0x80, which no documented code has. */
  function High(axis: Code): (r: Code) {
    axis >> 8
  }

  predicate SignBit(axis: Code) {
    axis & 0x80 != 0
  }

  /** A caller's check on two accepted codes. With no high bits it holds. */
  predicate RightHanded(axisX: Code, axisY: Code) {
    if High(axisX) == High(axisY) then High(axisX) == 0 || SignBit(axisX) == SignBit(axisY)
    else (Minus(axisX) == Minus(axisY)) == Odd(AxesOf(axisX, axisY))
  }

  lemma MinusBits(axis: Code)
    requires axis < 0x8000_0000
    ensures Minus(axis) <==> SignBit(axis) || High(axis) != 0
  {
  }

  lemma XorHigh(x: Code, y: Code)
    ensures High(x ^ y) == High(x) ^ High(y) && (High(x) ^ High(y) == 0 <==> High(x) == High(y))
  {
  }

  lemma XorSignBit(x: Code, y: Code)
    ensures SignBit(x ^ y) <==> SignBit(x) != SignBit(y)
  {
  }

  lemma XorNonNegative(x: Code, y: Code)
    requires x < 0x8000_0000 && y < 0x8000_0000
    ensures x ^ y < 0x8000_0000
  {
  }

  lemma ThirdAxisMinus(x: Code, y: Code, z: Code, odd: bool)
    requires x < 0x8000_0000 && y < 0x8000_0000 && z == if odd then (x ^ y) ^ 0x80 else x ^ y
    ensures Minus(z) <==> High(x) != High(y) || ((SignBit(x) != SignBit(y)) != odd)
  {
    var w := x ^ y;
    assert High(0x80) == 0 && SignBit(0x80);
    hide Minus, High, SignBit;
    XorNonNegative(x, y);
    XorNonNegative(w, 0x80);
    XorHigh(x, y);
    XorHigh(w, 0x80);
    XorSignBit(x, y);
    XorSignBit(w, 0x80);
    MinusBits(z);
  }

  lemma OddByBothTests(a: Axes)
    requires a.Permutes()
    ensures Odd(a) <==> a.x != (a.z + 1) % 3 || a.y != (a.z + 2) % 3
  {
  }

  lemma MirrorsIff(axisX: Code, axisY: Code)
    requires Accepted(axisX, axisY)
    ensures Mirrors(AxesOf(axisX, axisY)) <==> !RightHanded(axisX, axisY)
  {
    hide Column, Low, Minus, High, SignBit;
    var a := AxesOf(axisX, axisY);
    ThirdColumn(axisX, axisY);
    OddByBothTests(a);
    MinusBits(axisX);
    MinusBits(axisY);
    ThirdAxisMinus(axisX, axisY, ThirdAxis(axisX, axisY), Odd(a));
  }

  /** Inner products of rows are kept for every accepted pair of codes; rotations map to rotations
      exactly for the right-handed pairs, which all pairs of documented codes are. */
  lemma TransformKeepsRotationsIff(axisX: Code, axisY: Code, m: Mat)
    requires Accepted(axisX, axisY) && IsRotation(m)
    ensures Orthonormal(Move(AxesOf(axisX, axisY), m))
    ensures IsRotation(Move(AxesOf(axisX, axisY), m)) <==> RightHanded(axisX, axisY)
    ensures Documented(axisX) && Documented(axisY) ==> RightHanded(axisX, axisY)
  {
    var a := AxesOf(axisX, axisY);
    ThirdColumn(axisX, axisY);
    MirrorsIff(axisX, axisY);
    if Documented(axisX) && Documented(axisY) {
      assert High(axisX) == 0 && High(axisY) == 0;
    }
    hide Accepted, AxesOf, RightHanded, Documented, Mirrors;
    MoveSignsDet(a, m);
    OrthonormalIsTransposeInverse(m);
    OrthonormalIsTransposeInverse(Move(a, m));
    MoveKeepsInnerProducts(a, m.r0, m.r0);
    MoveKeepsInnerProducts(a, m.r1, m.r1);
    MoveKeepsInnerProducts(a, m.r2, m.r2);
    MoveKeepsInnerProducts(a, m.r0, m.r1);
    MoveKeepsInnerProducts(a, m.r0, m.r2);
    MoveKeepsInnerProducts(a, m.r1, m.r2);
    hide Dot, Det, Mul, MoveRow;
  }

  /** Codes with high bits are accepted and may mirror: X with bit 8 and Y with bit 9. */
  lemma AcceptedPairThatMirrors()
    ensures Accepted(0x101, 0x202) && Det(Move(AxesOf(0x101, 0x202), IDENTITY)) == -1.0
  {
    var x: Code, y: Code := 0x101, 0x202;
    MirrorsIff(x, y);
    ThirdColumn(x, y);
    assert Column(x) == 0 && Column(x ^ y) == 2;
    assert !RightHanded(x, y);
    IdentityIsRotation();
    hide AxesOf, Move, Det, Mirrors, RightHanded, Mul;
    MoveSignsDet(AxesOf(x, y), IDENTITY);
    assert Det(Move(AxesOf(x, y), IDENTITY)) == -1.0;
  }

  /** Every column of the result is a column of the given matrix or its negative: the result is the
      matrix times the signed permutation matrix of the axes. */
  lemma MoveIsRightMultiplication(a: Axes, m: Mat)
    requires a.Permutes()
    ensures Move(a, m) == Mul(m, Move(a, IDENTITY))
  {
    RowMoves(a, m.r0);
    RowMoves(a, m.r1);
    RowMoves(a, m.r2);
    hide MoveRow, RowTimes;
  }

  /** An entry of the moved row is the row times the moved unit vectors. */
  lemma EntryOfUnits(a: Axes, r: Vec, i: int)
    requires a.Permutes() && 0 <= i < 3
    ensures Entry(a, r, i)
         == r.x * Entry(a, IDENTITY.r0, i) + r.y * Entry(a, IDENTITY.r1, i) + r.z * Entry(a, IDENTITY.r2, i)
  {
  }

  lemma RowMoves(a: Axes, r: Vec)
    requires a.Permutes()
    ensures MoveRow(a, r) == RowTimes(r, Move(a, IDENTITY))
  {
    hide Entry;
    EntryOfUnits(a, r, 0);
    EntryOfUnits(a, r, 1);
    EntryOfUnits(a, r, 2);
  }
}
