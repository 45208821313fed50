/**
 * The quaternion algebra of `Quaternion` as values: a scalar part `s` and a
 * vector part `v`. Every operator of the Python class builds a new
 * quaternion from the components of its operands, so each is a function
 * here. Arithmetic is exact over `real`.
 */
module Quaternions {
  import opened Outcomes
  import V = Vectors
  import opened RealArith

  datatype Quat = Quat(s: real, v: V.Vec3)

  /** `Quaternion(1, 0, 0, 0)`, the unit of the Hamilton product. */
  const Identity: Quat := Quat(1.0, V.Origin)

  const Zero: Quat := Quat(0.0, V.Origin)

  /** A Python argument of the constructor, classified as its asserts see it. */
  datatype Arg = Number(n: real) | Vector(vec: V.Vec3) | NoneValue | OtherObject

  /**
   * `Quaternion(s=1, x=0, y=None, z=None)`: with `y` and `z` both omitted
   * `x` must be a vector; otherwise `x`, `y` and `z` must all be numbers.
   * `s` must always be a number. A failed check is an AssertionError.
   */
  function Construct(s: Arg := Number(1.0), x: Arg := Number(0.0), y: Arg := NoneValue, z: Arg := NoneValue): (r: Result<Quat>)
    ensures r.Ok? <==>
              s.Number? &&
              ((x.Vector? && y.NoneValue? && z.NoneValue?) || (x.Number? && y.Number? && z.Number?))
    ensures r.Err? ==> r.error == AssertionError
    ensures r.Ok? ==> r.value.s == s.n
    ensures r.Ok? && x.Vector? ==> r.value.v == x.vec
    ensures r.Ok? && x.Number? ==> r.value.v == V.Vec3(x.n, y.n, z.n)
  {
    if !s.Number? then Err(AssertionError)
    else if y.NoneValue? && z.NoneValue? then
      if x.Vector? then Ok(Quat(s.n, x.vec)) else Err(AssertionError)
    else if x.Number? && y.Number? && z.Number? then
      Ok(Quat(s.n, V.Vec3(x.n, y.n, z.n)))
    else
      Err(AssertionError)
  }

  /** `q + r` */
  function Add(q: Quat, r: Quat): Quat {
    Quat(q.s + r.s, V.Add(q.v, r.v))
  }

  /** `q - r` */
  function Sub(q: Quat, r: Quat): Quat {
    Quat(q.s - r.s, V.Sub(q.v, r.v))
  }

  /** `q * k` for a number `k`. */
  function Scale(q: Quat, k: real): Quat {
    Quat(q.s * k, V.Scale(q.v, k))
  }

  /** `q * r` for a quaternion `r`: the Hamilton product. */
  function Mul(q: Quat, r: Quat): Quat {
    Quat(q.s * r.s - V.Dot(q.v, r.v),
         V.Add(V.Add(V.Scale(r.v, q.s), V.Scale(q.v, r.s)), V.Cross(q.v, r.v)))
  }

  /** `q.conjugate` */
  function Conjugate(q: Quat): Quat {
    Quat(q.s, V.Neg(q.v))
  }

  /** `q.normsq` */
  function NormSq(q: Quat): real {
    q.s * q.s + V.LengthSquared(q.v)
  }

  /** `q / k` for a number `k`: Python raises ZeroDivisionError on `s / 0`. */
  function DivScalar(q: Quat, k: real): (r: Result<Quat>)
    ensures r.Err? <==> k == 0.0
    ensures r.Err? ==> r.error == ZeroDivisionError
    ensures r.Ok? ==> Scale(r.value, k) == q
  {
    if k == 0.0 then Err(ZeroDivisionError)
    else Ok(Quat(q.s / k, V.Vec3(q.v.x / k, q.v.y / k, q.v.z / k)))
  }

  /** `q.reciprocal`, that is `q.conjugate / q.normsq`. */
  function Reciprocal(q: Quat): (r: Result<Quat>)
    ensures r.Err? <==> q == Zero
    ensures r.Err? ==> r.error == ZeroDivisionError
  {
    NormSqSign(q);
    DivScalar(Conjugate(q), NormSq(q))
  }

  /** `q / r` for a quaternion `r`, that is `q * r.reciprocal`. */
  function Div(q: Quat, r: Quat): (d: Result<Quat>)
    ensures d.Err? <==> r == Zero
    ensures d.Err? ==> d.error == ZeroDivisionError
    ensures d.Ok? ==> d.value == Mul(q, Reciprocal(r).value)
  {
    var inv := Reciprocal(r);
    if inv.Err? then Err(inv.error) else Ok(Mul(q, inv.value))
  }

  // ---------------------------------------------------------------------
  // Algebraic laws of the operators above.

  /**
   * Each operator returns `Quaternion(number, vector)`, the constructor's
   * first form, so none of them can fail the constructor's asserts.
   */
  lemma OperatorsPassConstructor(q: Quat, r: Quat, k: real)
    ensures Construct(Number(q.s + r.s), Vector(V.Add(q.v, r.v))) == Ok(Add(q, r))
    ensures Construct(Number(q.s - r.s), Vector(V.Sub(q.v, r.v))) == Ok(Sub(q, r))
    ensures Construct(Number(q.s * k), Vector(V.Scale(q.v, k))) == Ok(Scale(q, k))
    ensures Construct(Number(q.s), Vector(V.Neg(q.v))) == Ok(Conjugate(q))
    ensures var m := Mul(q, r); Construct(Number(m.s), Vector(m.v)) == Ok(m)
    ensures k != 0.0 ==> var d := DivScalar(q, k).value; Construct(Number(d.s), Vector(d.v)) == Ok(d)
  {
    var p := Scale(q, k);
    assert p == Quat(q.s * k, V.Scale(q.v, k));
    assert Construct(Number(p.s), Vector(p.v)) == Ok(p);
  }

  /** `Quaternion()` with its own defaults fails: `x = 0` is not a vector. */
  lemma DefaultConstructionFails()
    ensures Construct() == Err(AssertionError)
    ensures Construct(Number(1.0), Number(0.0), Number(0.0), Number(0.0)) == Ok(Identity)
  {
  }

  /** `q.normsq` is never negative, and positive exactly for non-zero quaternions. */
  lemma NormSqSign(q: Quat)
    ensures NormSq(q) >= 0.0
    ensures NormSq(q) > 0.0 <==> q != Zero
  {
    NormSqIsSum(q);
    ZeroIffComponents(q);
    SumOfSquaresArith(q.s, q.v.x, q.v.y, q.v.z, NormSq(q));
  }

  lemma AddSubRoundTrip(q: Quat, r: Quat)
    ensures Sub(Add(q, r), r) == q
    ensures Add(Sub(q, r), r) == q
  {
  }

  lemma ScaleDivRoundTrip(q: Quat, k: real)
    requires k != 0.0
    ensures DivScalar(Scale(q, k), k) == Ok(q)
  {
    var p := Scale(q, k);
    MulDivCancel(q.s, k, p.s);
    MulDivCancel(q.v.x, k, p.v.x);
    MulDivCancel(q.v.y, k, p.v.y);
    MulDivCancel(q.v.z, k, p.v.z);
  }

  lemma IdentityIsUnit(q: Quat)
    ensures Mul(Identity, q) == q
    ensures Mul(q, Identity) == q
  {
  }

  lemma ConjugateInvolution(q: Quat)
    ensures Conjugate(Conjugate(q)) == q
  {
  }

  lemma ConjugateKeepsNormSq(q: Quat)
    ensures NormSq(Conjugate(q)) == NormSq(q)
  {
  }

  /** `q * q.conjugate` and `q.conjugate * q` are the real quaternion `q.normsq`. */
  lemma MulConjugate(q: Quat)
    ensures Mul(q, Conjugate(q)) == Quat(NormSq(q), V.Origin)
    ensures Mul(Conjugate(q), q) == Quat(NormSq(q), V.Origin)
  {
    var c := Conjugate(q);
    var m1, m2 := Mul(q, c), Mul(c, q);
    MulIsProduct(q, c);
    MulIsProduct(c, q);
    NormSqIsSum(q);
    ConjugateProductArith(q.s, q.v.x, q.v.y, q.v.z, c.s, c.v.x, c.v.y, c.v.z, NormSq(q),
                          m1.s, m1.v.x, m1.v.y, m1.v.z, m2.s, m2.v.x, m2.v.y, m2.v.z);
  }

  /** `q * q.reciprocal == 1 == q.reciprocal * q` whenever `q.normsq != 0`. */
  lemma ReciprocalIsInverse(q: Quat)
    requires q != Zero
    ensures Reciprocal(q).Ok?
    ensures Mul(q, Reciprocal(q).value) == Identity
    ensures Mul(Reciprocal(q).value, q) == Identity
  {
    var n := NormSq(q);
    NormSqSign(q);
    NormSqIsSum(q);
    var inv := Reciprocal(q).value;
    var m1, m2 := Mul(q, inv), Mul(inv, q);
    MulIsProduct(q, inv);
    MulIsProduct(inv, q);
    InverseArith(q.s, q.v.x, q.v.y, q.v.z, n, inv.s, inv.v.x, inv.v.y, inv.v.z,
                 m1.s, m1.v.x, m1.v.y, m1.v.z, m2.s, m2.v.x, m2.v.y, m2.v.z);
    IdentityByComponents(m1);
    IdentityByComponents(m2);
  }

  /** The Hamilton product is associative. */
  lemma MulAssociative(p: Quat, q: Quat, r: Quat)
    ensures Mul(Mul(p, q), r) == Mul(p, Mul(q, r))
  {
    var pq, qr := Mul(p, q), Mul(q, r);
    var lhs, rhs := Mul(pq, r), Mul(p, qr);
    MulIsProduct(p, q);
    MulIsProduct(q, r);
    MulIsProduct(pq, r);
    MulIsProduct(p, qr);
    AssociativeArith(p.s, p.v.x, p.v.y, p.v.z, q.s, q.v.x, q.v.y, q.v.z, r.s, r.v.x, r.v.y, r.v.z,
                     pq.s, pq.v.x, pq.v.y, pq.v.z, qr.s, qr.v.x, qr.v.y, qr.v.z,
                     lhs.s, lhs.v.x, lhs.v.y, lhs.v.z, rhs.s, rhs.v.x, rhs.v.y, rhs.v.z);
  }

  /** `(q * r).conjugate == r.conjugate * q.conjugate` */
  lemma ConjugateOfProduct(q: Quat, r: Quat)
    ensures Conjugate(Mul(q, r)) == Mul(Conjugate(r), Conjugate(q))
  {
    var qr, cc := Mul(q, r), Mul(Conjugate(r), Conjugate(q));
    MulIsProduct(q, r);
    MulIsProduct(Conjugate(r), Conjugate(q));
    ConjugateOfProductArith(q.s, q.v.x, q.v.y, q.v.z, r.s, r.v.x, r.v.y, r.v.z,
                            qr.s, qr.v.x, qr.v.y, qr.v.z, cc.s, cc.v.x, cc.v.y, cc.v.z);
  }

  /** `(q * r).normsq == q.normsq * r.normsq` (the four-square identity). */
  lemma NormSqMultiplicative(q: Quat, r: Quat)
    ensures NormSq(Mul(q, r)) == NormSq(q) * NormSq(r)
  {
    var m := Mul(q, r);
    MulIsProduct(q, r);
    NormSqIsSum(q);
    NormSqIsSum(r);
    NormSqIsSum(m);
    FourSquareArith(q.s, q.v.x, q.v.y, q.v.z, r.s, r.v.x, r.v.y, r.v.z, m.s, m.v.x, m.v.y, m.v.z,
                    NormSq(q), NormSq(r), NormSq(m));
  }

  /** Dividing by `r` undoes multiplying by `r`, and the other way round. */
  lemma DivUndoesMul(q: Quat, r: Quat)
    requires r != Zero
    ensures Div(Mul(q, r), r) == Ok(q)
    ensures Mul(Div(q, r).value, r) == q
  {
    var inv := Reciprocal(r).value;
    ReciprocalIsInverse(r);
    MulAssociative(q, r, inv);
    MulAssociative(q, inv, r);
    IdentityIsUnit(q);
  }

  // ---------------------------------------------------------------------
  // Component views used to hand the algebra to the lemmas of RealArith.

  lemma MulIsProduct(q: Quat, r: Quat)
    ensures var m := Mul(q, r);
            Product(q.s, q.v.x, q.v.y, q.v.z, r.s, r.v.x, r.v.y, r.v.z, m.s, m.v.x, m.v.y, m.v.z)
  {
    MulScalarPart(q, r);
    MulVectorPart(q, r);
  }

  lemma MulScalarPart(q: Quat, r: Quat)
    ensures Mul(q, r).s == q.s * r.s - (q.v.x * r.v.x + q.v.y * r.v.y + q.v.z * r.v.z)
  {
  }

  lemma MulVectorPart(q: Quat, r: Quat)
    ensures Mul(q, r).v.x == r.v.x * q.s + q.v.x * r.s + (q.v.y * r.v.z - q.v.z * r.v.y)
    ensures Mul(q, r).v.y == r.v.y * q.s + q.v.y * r.s + (q.v.z * r.v.x - q.v.x * r.v.z)
    ensures Mul(q, r).v.z == r.v.z * q.s + q.v.z * r.s + (q.v.x * r.v.y - q.v.y * r.v.x)
  {
  }

  lemma NormSqIsSum(q: Quat)
    ensures NormSq(q) == q.s * q.s + (q.v.x * q.v.x + q.v.y * q.v.y + q.v.z * q.v.z)
  {
  }

  lemma ZeroIffComponents(q: Quat)
    ensures q == Zero <==> q.s == 0.0 && q.v.x == 0.0 && q.v.y == 0.0 && q.v.z == 0.0
  {
  }

  lemma IdentityByComponents(m: Quat)
    requires m.s == 1.0 && m.v.x == 0.0 && m.v.y == 0.0 && m.v.z == 0.0
    ensures m == Identity
  {
  }
}
