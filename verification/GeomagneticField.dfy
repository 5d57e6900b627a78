/** The Legendre tables and the longitude recurrence of the geomagnetic model, over exact reals. */
module GeomagneticFields {
  const GAUSSIAN_COEFFICIENT_DIMENSION := 13

  /** Polynomials in the cosine and the sine of one angle. */
  datatype Expr = Const(r: real) | Cos | Sin | Sum(a: Expr, b: Expr) | Product(a: Expr, b: Expr)

  function Eval(e: Expr, cosValue: real, sinValue: real): (r: real) {
    match e
    case Const(r) => r
    case Cos => cosValue
    case Sin => sinValue
    case Sum(a, b) => Eval(a, cosValue, sinValue) + Eval(b, cosValue, sinValue)
    case Product(a, b) => Eval(a, cosValue, sinValue) * Eval(b, cosValue, sinValue)
  }

  /** The derivative by the angle: cos' = -sin, sin' = cos, sum and product rule. */
  function Derivative(e: Expr): (d: Expr) {
    match e
    case Const(_) => Const(0.0)
    case Cos => Product(Const(-1.0), Sin)
    case Sin => Cos
    case Sum(a, b) => Sum(Derivative(a), Derivative(b))
    case Product(a, b) => Sum(Product(Derivative(a), b), Product(a, Derivative(b)))
  }

  lemma PositiveProduct(u: real, v: real)
    requires u > 0.0 && v > 0.0
    ensures u * v > 0.0
  {
  }

  /** The coefficient k of the recurrence; its integers as reals. */
  function Coefficient(row: nat, column: nat): (k: real)
    requires column + 2 <= row
  {
    var n, m := row as real, column as real;
    PositiveProduct(2.0 * n - 1.0, 2.0 * n - 3.0);
    ((n - 1.0) * (n - 1.0) - m * m) / ((2.0 * n - 1.0) * (2.0 * n - 3.0))
  }

  /** The polynomial of degree `row` and order `column`. */
  function Legendre(row: nat, column: nat): (e: Expr)
    requires column <= row
  {
    if row == 0 then Const(1.0)
    else if row == column then Product(Sin, Legendre(row - 1, column - 1))
    else if column == row - 1 then Product(Cos, Legendre(row - 1, column))
    else Sum(Product(Cos, Legendre(row - 1, column)),
        Product(Const(-Coefficient(row, column)), Legendre(row - 2, column)))
  }

  /** Its value and that of its derivative. */
  function P(row: nat, column: nat, c: real, s: real): (r: real)
    requires column <= row
  {
    Eval(Legendre(row, column), c, s)
  }

  function D(row: nat, column: nat, c: real, s: real): (r: real)
    requires column <= row
  {
    Eval(Derivative(Legendre(row, column)), c, s)
  }

  lemma Start(c: real, s: real)
    ensures P(0, 0, c, s) == 1.0 && D(0, 0, c, s) == 0.0
  {
  }

  lemma EvalOf(a: Expr, b: Expr, c: real, s: real)
    ensures Eval(Product(a, b), c, s) == Eval(a, c, s) * Eval(b, c, s)
    ensures Eval(Sum(a, b), c, s) == Eval(a, c, s) + Eval(b, c, s)
  {
  }

  lemma DerivativeOf(a: Expr, b: Expr)
    ensures Derivative(Product(a, b)) == Sum(Product(Derivative(a), b), Product(a, Derivative(b)))
    ensures Derivative(Sum(a, b)) == Sum(Derivative(a), Derivative(b))
  {
  }

  /** The product rule, evaluated. */
  lemma ProductRule(a: Expr, b: Expr, c: real, s: real)
    ensures Eval(Derivative(Product(a, b)), c, s)
         == Eval(Derivative(a), c, s) * Eval(b, c, s) + Eval(a, c, s) * Eval(Derivative(b), c, s)
  {
    DerivativeOf(a, b);
    EvalOf(Derivative(a), b, c, s);
    EvalOf(a, Derivative(b), c, s);
    EvalOf(Product(Derivative(a), b), Product(a, Derivative(b)), c, s);
    hide Eval, Derivative;
  }

  lemma Atoms(k: real, c: real, s: real)
    ensures Eval(Cos, c, s) == c && Eval(Sin, c, s) == s && Eval(Const(k), c, s) == k
    ensures Eval(Derivative(Cos), c, s) == -s && Eval(Derivative(Sin), c, s) == c
            && Eval(Derivative(Const(k)), c, s) == 0.0
  {
    EvalOf(Const(-1.0), Sin, c, s);
    assert Eval(Const(-1.0), c, s) == -1.0;
    MinusOne(s);
  }

  lemma MinusOne(s: real)
    ensures -1.0 * s == -s
  {
  }

  lemma Diagonal(row: nat, c: real, s: real)
    requires row > 0
    ensures P(row, row, c, s) == s * P(row - 1, row - 1, c, s)
    ensures D(row, row, c, s) == c * P(row - 1, row - 1, c, s) + s * D(row - 1, row - 1, c, s)
  {
    hide Eval, Derivative;
    Atoms(0.0, c, s);
    EvalOf(Sin, Legendre(row - 1, row - 1), c, s);
    ProductRule(Sin, Legendre(row - 1, row - 1), c, s);
  }

  lemma BelowDiagonal(row: nat, c: real, s: real)
    requires row > 0
    ensures P(row, row - 1, c, s) == c * P(row - 1, row - 1, c, s)
    ensures D(row, row - 1, c, s) == -s * P(row - 1, row - 1, c, s) + c * D(row - 1, row - 1, c, s)
  {
    hide Eval, Derivative;
    Atoms(0.0, c, s);
    EvalOf(Cos, Legendre(row - 1, row - 1), c, s);
    ProductRule(Cos, Legendre(row - 1, row - 1), c, s);
  }

  /** cos * p1 - k * p2. */
  function Next(c: real, p1: real, k: real, p2: real): (p: real) {
    c * p1 - k * p2
  }

  /** -sin * p1 + cos * d1 - k * d2. */
  function NextDerivative(c: real, s: real, p1: real, d1: real, k: real, d2: real): (d: real) {
    -s * p1 + c * d1 - k * d2
  }

  /** p from the two polynomials above it, and d from those and their derivatives. */
  predicate Recurs(p: real, c: real, p1: real, k: real, p2: real) {
    p == Next(c, p1, k, p2)
  }

  predicate RecursD(d: real, c: real, s: real, p1: real, d1: real, k: real, d2: real) {
    d == NextDerivative(c, s, p1, d1, k, d2)
  }

  lemma Recurrence(row: nat, column: nat, c: real, s: real)
    requires column + 2 <= row
    ensures Recurs(P(row, column, c, s), c, P(row - 1, column, c, s), Coefficient(row, column),
            P(row - 2, column, c, s))
    ensures RecursD(D(row, column, c, s), c, s, P(row - 1, column, c, s), D(row - 1, column, c, s),
            Coefficient(row, column), D(row - 2, column, c, s))
  {
    hide Coefficient, Eval, Derivative;
    var e, f, k := Legendre(row - 1, column), Legendre(row - 2, column), Coefficient(row, column);
    var a, b := Product(Cos, e), Product(Const(-k), f);
    assert Legendre(row, column) == Sum(a, b);
    DerivativeOf(a, b);
    EvalOf(a, b, c, s);
    EvalOf(Derivative(a), Derivative(b), c, s);
    Atoms(-k, c, s);
    EvalOf(Cos, e, c, s);
    EvalOf(Const(-k), f, c, s);
    ProductRule(Cos, e, c, s);
    ProductRule(Const(-k), f, c, s);
    hide Legendre;
  }

  /** The file-level tables. Every row is a vector of its own. */
  class GeomagneticField {
    const polynomials: array<seq<real>>
    const polynomialsDerivative: array<seq<real>>
    const sinMLongitude: array<real>
    const cosMLongitude: array<real>

    constructor ()
      ensures fresh(polynomials) && fresh(polynomialsDerivative) && fresh(sinMLongitude) && fresh(cosMLongitude)
      ensures Valid()
    {
      polynomials := new seq<real>[GAUSSIAN_COEFFICIENT_DIMENSION](_ => []);
      polynomialsDerivative := new seq<real>[GAUSSIAN_COEFFICIENT_DIMENSION](_ => []);
      sinMLongitude := new real[GAUSSIAN_COEFFICIENT_DIMENSION](_ => 0.0);
      cosMLongitude := new real[GAUSSIAN_COEFFICIENT_DIMENSION](_ => 0.0);
    }

    ghost predicate Valid() {
      polynomials != polynomialsDerivative && sinMLongitude != cosMLongitude
      && polynomials.Length == polynomialsDerivative.Length
      && sinMLongitude.Length == cosMLongitude.Length == GAUSSIAN_COEFFICIENT_DIMENSION
    }

    /** The tables up to a row. */
    ghost predicate Rows(row: nat, c: real, s: real)
      requires Valid() && row <= polynomials.Length
      reads polynomials, polynomialsDerivative
    {
      forall r :: 0 <= r < row ==> RowIs(polynomials[r], polynomialsDerivative[r], r, r + 1, c, s)
    }

    /** Whatever the tables held before, every cell up to the degree is the polynomial's value and
        that of its formal derivative. */
    method InitLegendreTable(expansionDegree: nat, cosValue: real, sinValue: real)
      requires Valid() && expansionDegree < polynomials.Length
      modifies polynomials, polynomialsDerivative
      ensures Rows(expansionDegree + 1, cosValue, sinValue)
    {
      polynomials[0] := Resize(polynomials[0], 1);
      polynomials[0] := polynomials[0][0 := 1.0];
      polynomialsDerivative[0] := Resize(polynomialsDerivative[0], 1);
      polynomialsDerivative[0] := polynomialsDerivative[0][0 := 0.0];
      Start(cosValue, sinValue);
      hide P, D;
      var row := 1;
      while row <= expansionDegree
        invariant 1 <= row <= expansionDegree + 1 && Rows(row, cosValue, sinValue)
      {
        polynomials[row] := Resize(polynomials[row], row + 1);
        polynomialsDerivative[row] := Resize(polynomialsDerivative[row], row + 1);
        FillRow(row, cosValue, sinValue);
        row := row + 1;
      }
    }

    /** The inner loop, column by column. */
    method FillRow(row: nat, cosValue: real, sinValue: real)
      requires Valid() && 0 < row < polynomials.Length && Rows(row, cosValue, sinValue)
      requires |polynomials[row]| == |polynomialsDerivative[row]| == row + 1
      modifies polynomials, polynomialsDerivative
      ensures Rows(row + 1, cosValue, sinValue)
    {
      hide P, D, RowIs, Next, NextDerivative, Coefficient;
      ghost var p1, d1 := polynomials[row - 1], polynomialsDerivative[row - 1];
      RowCells(p1, d1, row - 1, cosValue, sinValue);
      if row >= 2 {
        RowCells(polynomials[row - 2], polynomialsDerivative[row - 2], row - 2, cosValue, sinValue);
      }
      NoCells(polynomials[row], polynomialsDerivative[row], row, cosValue, sinValue);
      var column := 0;
      while column <= row
        invariant 0 <= column <= row + 1 && |polynomials[row]| == |polynomialsDerivative[row]| == row + 1
        invariant forall r :: 0 <= r < row ==>
                    polynomials[r] == old(polynomials[r]) && polynomialsDerivative[r] == old(polynomialsDerivative[r])
        invariant RowIs(polynomials[row], polynomialsDerivative[row], row, column, cosValue, sinValue)
      {
        ghost var p, d := polynomials[row], polynomialsDerivative[row];
        if row == column {
          polynomials[row] := polynomials[row][column := sinValue * polynomials[row - 1][column - 1]];
          polynomialsDerivative[row] := polynomialsDerivative[row][column := cosValue * polynomials[row - 1][column - 1]
            + sinValue * polynomialsDerivative[row - 1][column - 1]];
          Diagonal(row, cosValue, sinValue);
        } else if row == 1 || column == row - 1 {
          polynomials[row] := polynomials[row][column := cosValue * polynomials[row - 1][column]];
          polynomialsDerivative[row] := polynomialsDerivative[row][column := -sinValue * polynomials[row - 1][column]
            + cosValue * polynomialsDerivative[row - 1][column]];
          BelowDiagonal(row, cosValue, sinValue);
        } else {
          var k := Coefficient(row, column);
          polynomials[row] := polynomials[row][column := Next(cosValue, polynomials[row - 1][column], k,
              polynomials[row - 2][column])];
          polynomialsDerivative[row] := polynomialsDerivative[row][column := NextDerivative(cosValue, sinValue,
            polynomials[row - 1][column], polynomialsDerivative[row - 1][column], k,
                polynomialsDerivative[row - 2][column])];
          Recurrence(row, column, cosValue, sinValue);
        }
        OneMoreCell(p, d, polynomials[row][column], polynomialsDerivative[row][column], row, column, cosValue,
            sinValue);
        column := column + 1;
      }
    }

    /** sin and cos of the multiples of the longitude by halving: each entry is the complex power. */
    method GetLongitudeTrigonometric(sinLongitude: real, cosLongitude: real)
      requires Valid()
      modifies sinMLongitude, cosMLongitude
      ensures forall m :: 0 <= m < GAUSSIAN_COEFFICIENT_DIMENSION ==>
                Complex(cosMLongitude[m], sinMLongitude[m]) == Power(Complex(cosLongitude, sinLongitude), m)
    {
      ghost var z := Complex(cosLongitude, sinLongitude);
      sinMLongitude[0] := 0.0;
      cosMLongitude[0] := 1.0;
      sinMLongitude[1] := sinLongitude;
      cosMLongitude[1] := cosLongitude;
      FirstPowers(z);
      hide Power, Multiply;
      var index := 2;
      while index < GAUSSIAN_COEFFICIENT_DIMENSION
        invariant 2 <= index <= GAUSSIAN_COEFFICIENT_DIMENSION
        invariant forall m :: 0 <= m < index ==> Complex(cosMLongitude[m], sinMLongitude[m]) == Power(z, m)
      {
        var x := index / 2;
        var next := Multiply(Complex(cosMLongitude[index - x], sinMLongitude[index - x]),
            Complex(cosMLongitude[x], sinMLongitude[x]));
        PowersAdd(z, index - x, x);
        sinMLongitude[index] := next.im;
        cosMLongitude[index] := next.re;
        index := index + 1;
      }
    }
  }

  lemma RowCells(p: seq<real>, d: seq<real>, row: nat, c: real, s: real)
    requires RowIs(p, d, row, row + 1, c, s)
    ensures |p| == |d| == row + 1
    ensures forall column :: 0 <= column <= row ==>
              p[column] == P(row, column, c, s) && d[column] == D(row, column, c, s)
  {
  }

  lemma NoCells(p: seq<real>, d: seq<real>, row: nat, c: real, s: real)
    requires |p| == |d| == row + 1
    ensures RowIs(p, d, row, 0, c, s)
  {
  }

  lemma OneMoreCell(p: seq<real>, d: seq<real>, x: real, y: real, row: nat, column: nat, c: real, s: real)
    requires column <= row && RowIs(p, d, row, column, c, s) && x == P(row, column, c, s) && y == D(row, column, c, s)
    ensures column < |p| && column < |d| && RowIs(p[column := x], d[column := y], row, column + 1, c, s)
  {
    hide P, D;
  }

  /** vector::resize: what is there stays, new cells are zero. */
  function Resize(s: seq<real>, n: nat): (t: seq<real>)
    ensures |t| == n
  {
    if n <= |s| then s[..n] else s + seq(n - |s|, _ => 0.0)
  }

  /** The first cells of a row of both tables. */
  ghost predicate RowIs(p: seq<real>, d: seq<real>, row: nat, columns: nat, c: real, s: real)
    requires columns <= row + 1
  {
    |p| == |d| == row + 1
    && forall column :: 0 <= column < columns ==> p[column] == P(row, column, c, s) && d[column] == D(row, column, c, s)
  }

  // ----- an identity that ties both tables together without derivatives

  function Weight(row: nat, column: nat): (r: real)
    requires column <= row && row > 0
  {
    var n, m := row as real, column as real;
    (n * n - m * m) / (2.0 * n - 1.0)
  }

  /** s d = n c p - a b. */
  predicate Tied(n: real, c: real, s: real, d: real, p: real, a: real, b: real) {
    s * d == n * c * p - a * b
  }

  /** s P' = n c P - (n^2 - m^2) / (2n - 1) P_below, as Gauss-normalised Legendre functions satisfy;
      on the diagonal there is no polynomial below. */
  predicate GaussIdentity(row: nat, column: nat, c: real, s: real)
    requires column <= row
  {
    Tied(row as real, c, s, D(row, column, c, s), P(row, column, c, s),
         if column < row then Weight(row, column) else 0.0, if column < row then P(row - 1, column, c, s) else 0.0)
  }

  lemma DiagonalStep(n: real, c: real, s: real, p: real, d: real)
    requires Tied(n - 1.0, c, s, d, p, 0.0, 0.0)
    ensures Tied(n, c, s, c * p + s * d, s * p, 0.0, 0.0)
  {
    assert s * (s * d) == s * ((n - 1.0) * c * p);
  }

  lemma {:induction false} GaussOnDiagonal(row: nat, c: real, s: real)
    ensures GaussIdentity(row, row, c, s)
  {
    if row == 0 {
      Start(c, s);
    } else {
      GaussOnDiagonal(row - 1, c, s);
      Diagonal(row, c, s);
      DiagonalStep(row as real, c, s, P(row - 1, row - 1, c, s), D(row - 1, row - 1, c, s));
      hide P, D;
    }
  }

  lemma BelowStep(n: real, c: real, s: real, p1: real, d1: real, p: real, d: real)
    requires c * c + s * s == 1.0 && Tied(n - 1.0, c, s, d1, p1, 0.0, 0.0) && p == c * p1 && d == -s * p1 + c * d1
    ensures Tied(n, c, s, d, p, 1.0, p1)
  {
    BelowAlgebra(n, c, s, p1, d1);
  }

  lemma BelowAlgebra(n: real, c: real, s: real, p: real, d: real)
    requires c * c + s * s == 1.0 && s * d == (n - 1.0) * c * p
    ensures s * (-s * p + c * d) == n * c * (c * p) - p
  {
    assert c * (s * d) == c * ((n - 1.0) * c * p);
    assert (c * c + s * s) * p == p;
  }

  predicate Crossed(k: real, a2: real, k1: real, a: real) {
    k * a2 == k1 * (a - 1.0)
  }

  lemma NothingAbove(p1: real, c: real, p2: real, k: real, a: real)
    requires p1 == c * p2
    ensures Recurs(p1, c, p2, 0.0, 0.0) && Crossed(k, 0.0, 0.0, a)
  {
  }

  lemma RecurrenceStep(n: real, c: real, s: real, p1: real, p2: real, p3: real, d1: real, d2: real,
      k: real, k1: real, a: real, a1: real, a2: real, p: real, d: real)
    requires c * c + s * s == 1.0
    requires Tied(n - 1.0, c, s, d1, p1, a1, p2) && Tied(n - 2.0, c, s, d2, p2, a2, p3)
    requires Recurs(p1, c, p2, k1, p3) && a - 1.0 + 2.0 * k == a1 && Crossed(k, a2, k1, a)
    requires Recurs(p, c, p1, k, p2) && RecursD(d, c, s, p1, d1, k, d2)
    ensures Tied(n, c, s, d, p, a, p1)
  {
    var u, v, q := c * c * p1, c * p2, k * a2;
    Distribute(c, s, p1, d1, k, d2);
    Collect(n, c, p1, p2, p3, k, a1, a2, v, s * d1, s * d2);
    Cancel(n, p1, p3, v, u, k, k1, a, a1, q);
    Expand(n, c, p1, p2, k);
  }

  lemma Distribute(c: real, s: real, p1: real, d1: real, k: real, d2: real)
    requires c * c + s * s == 1.0
    ensures s * (-s * p1 + c * d1 - k * d2) == c * c * p1 - p1 + c * (s * d1) - k * (s * d2)
  {
    assert (c * c + s * s) * p1 == p1;
  }

  lemma Collect(n: real, c: real, p1: real, p2: real, p3: real, k: real, a1: real, a2: real, v: real, x: real, y: real)
    requires v == c * p2 && x == (n - 1.0) * c * p1 - a1 * p2 && y == (n - 2.0) * c * p2 - a2 * p3
    ensures c * x - k * y == (n - 1.0) * (c * c * p1) - a1 * v - (n - 2.0) * (k * v) + (k * a2) * p3
  {
  }

  lemma Cancel(n: real, p1: real, p3: real, v: real, u: real, k: real, k1: real, a: real, a1: real, q: real)
    requires p1 == v - k1 * p3 && a - 1.0 + 2.0 * k == a1 && q == k1 * (a - 1.0)
    ensures u - p1 + ((n - 1.0) * u - a1 * v - (n - 2.0) * (k * v) + q * p3) == n * u - n * (k * v) - a * p1
  {
    assert (a - 1.0) * p1 == (a - 1.0) * v - q * p3;
    assert a1 * v == (a - 1.0) * v + 2.0 * (k * v);
  }

  lemma Expand(n: real, c: real, p1: real, p2: real, k: real)
    ensures n * c * (c * p1 - k * p2) == n * (c * c * p1) - n * (k * (c * p2))
  {
  }

  lemma Quotient(x: real, y: real)
    requires y != 0.0
    ensures x / y * y == x
  {
  }

  lemma CancelFactor(x: real, y: real, z: real)
    requires z != 0.0 && x * z == y * z
    ensures x == y
  {
  }

  /** q / u + 2 q / (u v) = q / v, for u = v + 2. */
  lemma PartialFractions(q: real, u: real, v: real, t: real, k: real, a1: real)
    requires u == v + 2.0 && u != 0.0 && v != 0.0
    requires t * u == q && k * (u * v) == q && a1 * v == q
    ensures k * v == t && t + 2.0 * k == a1
  {
    assert (k * v) * u == k * (u * v);
    CancelFactor(k * v, t, u);
    assert (t + 2.0 * k) * v == t * v + 2.0 * t == t * u;
    CancelFactor(t + 2.0 * k, a1, v);
  }

  /** K(n), a(n) and a(n - 1). */
  lemma Weights(row: nat, column: nat)
    requires column + 2 <= row
    ensures var k, a := Coefficient(row, column), Weight(row, column);
            a - 1.0 + 2.0 * k == Weight(row - 1, column) && k * (2.0 * row as real - 3.0) == a - 1.0
  {
    var n, m := row as real, column as real;
    var q, u, v := (n - 1.0) * (n - 1.0) - m * m, 2.0 * n - 1.0, 2.0 * n - 3.0;
    assert (row - 1) as real == n - 1.0;
    Quotient(n * n - m * m, u);
    Quotient(q, u * v);
    Quotient(q, v);
    assert (Weight(row, column) - 1.0) * u == q;
    PartialFractions(q, u, v, Weight(row, column) - 1.0, Coefficient(row, column), Weight(row - 1, column));
  }

  /** Directly below the diagonal a(n) is 1 and a(n - 2) meets no polynomial. */
  lemma WeightBelowDiagonal(column: nat)
    ensures Weight(column + 1, column) == 1.0
  {
    var n, m := (column + 1) as real, column as real;
    assert n * n - m * m == 2.0 * n - 1.0;
    Quotient(n * n - m * m, 2.0 * n - 1.0);
    CancelFactor(Weight(column + 1, column), 1.0, 2.0 * n - 1.0);
  }

  /** K(n) a(n - 2) = K(n - 1) (a(n) - 1). */
  lemma WeightsAcross(row: nat, column: nat)
    requires column + 3 <= row
    ensures Crossed(Coefficient(row, column), Weight(row - 2, column), Coefficient(row - 1, column),
            Weight(row, column))
  {
    hide Weight, Coefficient, Crossed;
    Weights(row, column);
    Weights(row - 1, column);
    var n := row as real;
    assert (row - 1) as real == n - 1.0;
    Across(Coefficient(row, column), Coefficient(row - 1, column), Weight(row, column), Weight(row - 1, column),
        Weight(row - 2, column),
           2.0 * n - 3.0, 2.0 * n - 5.0);
  }

  lemma Across(k: real, k1: real, a: real, a1: real, a2: real, v: real, w: real)
    requires v > 0.0
    requires k * v == a - 1.0 && k1 * w == a1 - 1.0 && a1 - 1.0 + 2.0 * k1 == a2 && w + 2.0 == v
    ensures Crossed(k, a2, k1, a)
  {
    assert k1 * v == k1 * w + 2.0 * k1;
    assert k1 * (k * v) == k * (k1 * v);
  }

  /** At every angle, for every degree and order. */
  lemma {:induction false} GaussHolds(row: nat, column: nat, c: real, s: real)
    requires column <= row && c * c + s * s == 1.0
    ensures GaussIdentity(row, column, c, s)
  {
    hide P, D, Weight, Coefficient, Tied;
    if row == column {
      GaussOnDiagonal(row, c, s);
    } else if row == column + 1 {
      GaussOnDiagonal(column, c, s);
      BelowDiagonal(row, c, s);
      WeightBelowDiagonal(column);
      assert row as real - 1.0 == column as real;
      BelowStep(row as real, c, s, P(column, column, c, s), D(column, column, c, s), P(row, column, c, s),
          D(row, column, c, s));
    } else {
      GaussHolds(row - 1, column, c, s);
      GaussHolds(row - 2, column, c, s);
      GaussStep(row, column, c, s);
    }
  }

  lemma GaussStep(row: nat, column: nat, c: real, s: real)
    requires column + 2 <= row && c * c + s * s == 1.0
    requires GaussIdentity(row - 1, column, c, s) && GaussIdentity(row - 2, column, c, s)
    ensures GaussIdentity(row, column, c, s)
  {
    hide P, D, Weight, Coefficient, Tied, Recurs, RecursD, Crossed;
    Recurrence(row, column, c, s);
    Weights(row, column);
    var p1, p2, d1, d2 := P(row - 1, column, c, s), P(row - 2, column, c, s), D(row - 1, column, c, s),
        D(row - 2, column, c, s);
    var k, a, a1, n := Coefficient(row, column), Weight(row, column), Weight(row - 1, column), row as real;
    var p, d := P(row, column, c, s), D(row, column, c, s);
    assert (row - 1) as real == n - 1.0 && (row - 2) as real == n - 2.0;
    if row == column + 2 {
      BelowDiagonal(row - 1, c, s);
      NothingAbove(p1, c, p2, k, a);
      RecurrenceStep(n, c, s, p1, p2, 0.0, d1, d2, k, 0.0, a, a1, 0.0, p, d);
    } else {
      Recurrence(row - 1, column, c, s);
      WeightsAcross(row, column);
      RecurrenceStep(n, c, s, p1, p2, P(row - 3, column, c, s), d1, d2, k, Coefficient(row - 1, column), a, a1,
          Weight(row - 2, column), p, d);
    }
  }

  // ----- the longitude recurrence

  datatype Complex = Complex(re: real, im: real)

  function Multiply(a: Complex, b: Complex): (r: Complex) {
    Complex(a.re * b.re - a.im * b.im, a.im * b.re + a.re * b.im)
  }

  function Power(z: Complex, n: nat): (r: Complex) {
    if n == 0 then Complex(1.0, 0.0) else Multiply(Power(z, n - 1), z)
  }

  function SquaredModulus(z: Complex): (r: real) {
    z.re * z.re + z.im * z.im
  }

  lemma FirstPowers(z: Complex)
    ensures Power(z, 0) == Complex(1.0, 0.0) && Power(z, 1) == z
  {
    assert Multiply(Complex(1.0, 0.0), z) == z;
  }

  lemma Associative(a: Complex, b: Complex, d: Complex)
    ensures Multiply(Multiply(a, b), d) == Multiply(a, Multiply(b, d))
  {
    MultiplyEntries(a, b, d, Multiply(a, b), Multiply(b, d));
  }

  lemma MultiplyEntries(a: Complex, b: Complex, d: Complex, ab: Complex, bd: Complex)
    requires ab == Multiply(a, b) && bd == Multiply(b, d)
    ensures ab.re * d.re - ab.im * d.im == a.re * bd.re - a.im * bd.im
    ensures ab.im * d.re + ab.re * d.im == a.im * bd.re + a.re * bd.im
  {
  }

  lemma OneIsNeutral(a: Complex)
    ensures Multiply(a, Complex(1.0, 0.0)) == a
  {
  }

  lemma {:induction false} PowersAdd(z: Complex, m: nat, n: nat)
    ensures Multiply(Power(z, m), Power(z, n)) == Power(z, m + n)
  {
    if n == 0 {
      OneIsNeutral(Power(z, m));
    } else {
      PowersAdd(z, m, n - 1);
      Associative(Power(z, m), Power(z, n - 1), z);
      hide Multiply;
    }
  }

  lemma ModulusMultiplies(a: Complex, b: Complex)
    ensures SquaredModulus(Multiply(a, b)) == SquaredModulus(a) * SquaredModulus(b)
  {
    ModulusEntries(a, b, Multiply(a, b));
  }

  lemma ModulusEntries(a: Complex, b: Complex, ab: Complex)
    requires ab == Multiply(a, b)
    ensures ab.re * ab.re + ab.im * ab.im == (a.re * a.re + a.im * a.im) * (b.re * b.re + b.im * b.im)
  {
  }

  /** If the first entry lies on the unit circle, all do. */
  lemma {:induction false} PowersStayOnTheCircle(z: Complex, n: nat)
    requires SquaredModulus(z) == 1.0
    ensures SquaredModulus(Power(z, n)) == 1.0
  {
    hide SquaredModulus, Multiply;
    if n == 0 {
      OneIsOnTheCircle();
    } else {
      PowersStayOnTheCircle(z, n - 1);
      ModulusMultiplies(Power(z, n - 1), z);
    }
  }

  lemma OneIsOnTheCircle()
    ensures SquaredModulus(Complex(1.0, 0.0)) == 1.0
  {
  }
}
