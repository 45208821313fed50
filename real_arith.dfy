/**
 * Identities over plain reals behind the quaternion laws. They are stated
 * on scalar parameters, with no datatype in sight, because the solver's
 * non-linear arithmetic is reliable only there; each lemma concludes
 * equalities or signs of its own parameters, which the quaternion lemmas
 * then read back as facts about components.
 */
module RealArith {

  /** `(S, X, Y, Z)` is the Hamilton product of `(a, b, c, d)` and `(e, f, g, h)`. */
  ghost predicate Product(a: real, b: real, c: real, d: real, e: real, f: real, g: real, h: real,
                          S: real, X: real, Y: real, Z: real)
  {
    S == a * e - (b * f + c * g + d * h) &&
    X == f * a + b * e + (c * h - d * g) &&
    Y == g * a + c * e + (d * f - b * h) &&
    Z == h * a + d * e + (b * g - c * f)
  }

  /**
   * The identity, as a function symbol of its own: writing a square as
   * `a * Id(a)` keeps the solver from rewriting it before the sign facts
   * below are combined.
   */
  function Id(x: real): real { x }

  lemma PositiveProduct(x: real, y: real)
    requires x > 0.0 && y > 0.0
    ensures x * y > 0.0
  {
  }

  lemma NegativeProduct(x: real, y: real)
    requires x < 0.0 && y < 0.0
    ensures x * y > 0.0
  {
  }

  /** A square is never negative, and is zero only at zero. */
  lemma SquareSign(a: real)
    ensures a * Id(a) >= 0.0
    ensures a * Id(a) > 0.0 <==> a != 0.0
  {
    if a > 0.0 {
      PositiveProduct(a, Id(a));
    } else if a < 0.0 {
      NegativeProduct(a, Id(a));
    }
  }

  /** A sum of four squares is never negative, and is zero only when all four are. */
  lemma SumOfSquaresArith(a: real, b: real, c: real, d: real, n: real)
    requires n == a * a + (b * b + c * c + d * d)
    ensures n >= 0.0
    ensures n > 0.0 <==> !(a == 0.0 && b == 0.0 && c == 0.0 && d == 0.0)
  {
    SquareSign(a);
    SquareSign(b);
    SquareSign(c);
    SquareSign(d);
    assert n == a * Id(a) + (b * Id(b) + c * Id(c) + d * Id(d));
  }

  lemma MulDivCancel(a: real, k: real, p: real)
    requires k != 0.0 && p == a * k
    ensures p / k == a
  {
  }

  lemma ConjugateProductArith(a: real, b: real, c: real, d: real, e: real, f: real, g: real, h: real, n: real,
                              S1: real, X1: real, Y1: real, Z1: real, S2: real, X2: real, Y2: real, Z2: real)
    requires e == a && f == -b && g == -c && h == -d
    requires n == a * a + (b * b + c * c + d * d)
    requires Product(a, b, c, d, e, f, g, h, S1, X1, Y1, Z1)
    requires Product(e, f, g, h, a, b, c, d, S2, X2, Y2, Z2)
    ensures S1 == n && S2 == n
    ensures X1 == 0.0 && Y1 == 0.0 && Z1 == 0.0 && X2 == 0.0 && Y2 == 0.0 && Z2 == 0.0
  {
  }

  lemma InverseArith(a: real, b: real, c: real, d: real, n: real, e: real, f: real, g: real, h: real,
                     S1: real, X1: real, Y1: real, Z1: real, S2: real, X2: real, Y2: real, Z2: real)
    requires n == a * a + (b * b + c * c + d * d) && n != 0.0
    requires e == a / n && f == -b / n && g == -c / n && h == -d / n
    requires Product(a, b, c, d, e, f, g, h, S1, X1, Y1, Z1)
    requires Product(e, f, g, h, a, b, c, d, S2, X2, Y2, Z2)
    ensures S1 == 1.0 && S2 == 1.0
    ensures X1 == 0.0 && Y1 == 0.0 && Z1 == 0.0 && X2 == 0.0 && Y2 == 0.0 && Z2 == 0.0
  {
    var u := 1.0 / n;
    assert e == a * u && f == -b * u && g == -c * u && h == -d * u;
    assert S1 == n * u;
    assert S2 == n * u;
  }

  lemma AssociativeArith(a: real, b: real, c: real, d: real, e: real, f: real, g: real, h: real,
                         i: real, j: real, k: real, l: real,
                         S1: real, X1: real, Y1: real, Z1: real, S2: real, X2: real, Y2: real, Z2: real,
                         S3: real, X3: real, Y3: real, Z3: real, S4: real, X4: real, Y4: real, Z4: real)
    requires Product(a, b, c, d, e, f, g, h, S1, X1, Y1, Z1)
    requires Product(e, f, g, h, i, j, k, l, S2, X2, Y2, Z2)
    requires Product(S1, X1, Y1, Z1, i, j, k, l, S3, X3, Y3, Z3)
    requires Product(a, b, c, d, S2, X2, Y2, Z2, S4, X4, Y4, Z4)
    ensures S3 == S4 && X3 == X4 && Y3 == Y4 && Z3 == Z4
  {
  }

  lemma ConjugateOfProductArith(a: real, b: real, c: real, d: real, e: real, f: real, g: real, h: real,
                                S1: real, X1: real, Y1: real, Z1: real, S2: real, X2: real, Y2: real, Z2: real)
    requires Product(a, b, c, d, e, f, g, h, S1, X1, Y1, Z1)
    requires Product(e, -f, -g, -h, a, -b, -c, -d, S2, X2, Y2, Z2)
    ensures S2 == S1 && X2 == -X1 && Y2 == -Y1 && Z2 == -Z1
  {
  }

  lemma FourSquareIdentity(a: real, b: real, c: real, d: real, e: real, f: real, g: real, h: real,
                           S: real, X: real, Y: real, Z: real)
    requires Product(a, b, c, d, e, f, g, h, S, X, Y, Z)
    ensures S * S + (X * X + Y * Y + Z * Z) == (a * a + (b * b + c * c + d * d)) * (e * e + (f * f + g * g + h * h))
  {
  }

  lemma FourSquareArith(a: real, b: real, c: real, d: real, e: real, f: real, g: real, h: real,
                        S: real, X: real, Y: real, Z: real, n1: real, n2: real, n3: real)
    requires Product(a, b, c, d, e, f, g, h, S, X, Y, Z)
    requires n1 == a * a + (b * b + c * c + d * d)
    requires n2 == e * e + (f * f + g * g + h * h)
    requires n3 == S * S + (X * X + Y * Y + Z * Z)
    ensures n3 == n1 * n2
  {
    FourSquareIdentity(a, b, c, d, e, f, g, h, S, X, Y, Z);
    MulCongruence(n1, a * a + (b * b + c * c + d * d), n2, e * e + (f * f + g * g + h * h));
  }

  lemma MulCongruence(x: real, x': real, y: real, y': real)
    requires x == x' && y == y'
    ensures x * y == x' * y'
  {
  }
}
