/** Multiples of a point, and the double-and-add loop that computes them. */
module Multiples {
  import opened Options
  import opened Modular
  import opened EllipticCurve
  import opened Jacobian

  /** k times q, by adding it k times. */
  function Scalar(c: Curve, k: nat, q: Point): Point
    requires c.p > 1
  {
    if k == 0 then Infinity else Sum(c, q, Scalar(c, k - 1, q))
  }

  /** Addition on the curve is associative: assumed wherever it is needed. */
  ghost predicate Associative(c: Curve)
    requires c.p > 1
  {
    forall q, r, s :: On(c, q) && On(c, r) && On(c, s) ==> Sum(c, Sum(c, q, r), s) == Sum(c, q, Sum(c, r, s))
  }

  lemma Assoc(c: Curve, q: Point, r: Point, s: Point)
    requires c.p > 1 && Associative(c) && On(c, q) && On(c, r) && On(c, s)
    ensures Sum(c, Sum(c, q, r), s) == Sum(c, q, Sum(c, r, s))
  {
  }

  lemma {:induction false} ScalarOn(c: Curve, k: nat, q: Point)
    requires ValidCurve(c) && On(c, q)
    ensures On(c, Scalar(c, k, q))
  {
    if k > 0 {
      ScalarOn(c, k - 1, q);
      Closed(c, q, Scalar(c, k - 1, q));
    }
  }

  lemma {:induction false} ScalarPlus(c: Curve, k: nat, l: nat, q: Point)
    requires ValidCurve(c) && Associative(c) && On(c, q)
    ensures Scalar(c, k + l, q) == Sum(c, Scalar(c, k, q), Scalar(c, l, q))
  {
    hide On, Third, Chord, Tangent;
    if k > 0 {
      ScalarPlus(c, k - 1, l, q);
      ScalarOn(c, k - 1, q);
      ScalarOn(c, l, q);
      Assoc(c, q, Scalar(c, k - 1, q), Scalar(c, l, q));
    }
  }

  lemma {:induction false} ScalarTimes(c: Curve, k: nat, l: nat, q: Point)
    requires ValidCurve(c) && Associative(c) && On(c, q)
    ensures Scalar(c, k, Scalar(c, l, q)) == Scalar(c, k * l, q)
  {
    hide On, Sum, Associative;
    if k == 0 {
      assert k * l == 0;
    } else {
      ScalarTimes(c, k - 1, l, q);
      assert k * l == l + (k - 1) * l && (k - 1) * l >= 0;
      ScalarPlus(c, l, (k - 1) * l, q);
    }
  }

  lemma {:induction false} ScalarInfinity(c: Curve, k: nat)
    requires c.p > 1
    ensures Scalar(c, k, Infinity) == Infinity
  {
    if k > 0 {
      ScalarInfinity(c, k - 1);
    }
  }

  /** Doubling the point halves the factor. */
  lemma {:induction false} ScalarEven(c: Curve, m: nat, q: Point)
    requires ValidCurve(c) && Associative(c) && On(c, q)
    ensures Scalar(c, 2 * m, q) == Scalar(c, m, Sum(c, q, q))
  {
    assert Scalar(c, 2, q) == Sum(c, q, Scalar(c, 1, q)) && Scalar(c, 1, q) == Sum(c, q, Infinity) == q;
    hide Sum, On, Associative;
    ScalarTimes(c, m, 2, q);
    assert m * 2 == 2 * m;
  }

  // ------------------------------------------------------------- double-and-add

  /** `_affine`: the point at infinity has no coordinates. */
  function Affine(c: Curve, j: Jac): Option<(int, int)>
    requires c.p > 1
  {
    if j.z == 0 then None
    else
      var zinv := Inverse(j.z, c.p);
      Some((j.x * zinv * zinv % c.p, j.y * zinv * zinv * zinv % c.p))
  }

  function Coordinates(q: Point): Option<(int, int)> { if q.At? then Some((q.x, q.y)) else None }

  lemma AffineIs(c: Curve, j: Jac, q: Point)
    requires ValidCurve(c) && Stands(c, j, q) && On(c, q)
    ensures Affine(c, j) == Coordinates(q)
  {
    if q.At? {
      var p, z, i := c.p, j.z, Inverse(j.z, c.p);
      SmallRemainder(z, p);
      PrimeInverse(z, p);
      InverseWorks(z, p);
      Residue(p, j.x * i * i);
      Residue(p, j.y * i * i * i);
      hide Red, Inverse, Invertible;
      Unscale(p, j.x, q.x, z, i);
      Unscale3(p, j.y, q.y, z, i);
      Unique(p, j.x * i * i % p, q.x);
      Unique(p, j.y * i * i * i % p, q.y);
    }
  }

  lemma Unscale(p: int, x: int, u: int, z: int, i: int)
    requires p > 1 && Cong(p, x, u * (z * z)) && Cong(p, z * i, 1)
    ensures Cong(p, x * i * i, u)
  {
    hide Red;
    Times(p, x, u * (z * z), i * i, i * i);
    assert x * (i * i) == x * i * i && u * (z * z) * (i * i) == u * ((z * i) * (z * i));
    Times(p, z * i, 1, z * i, 1);
    Times(p, u, u, (z * i) * (z * i), 1);
  }

  lemma Unscale3(p: int, y: int, v: int, z: int, i: int)
    requires p > 1 && Cong(p, y, v * (z * z * z)) && Cong(p, z * i, 1)
    ensures Cong(p, y * i * i * i, v)
  {
    hide Red;
    var f := z * i;
    Times(p, y, v * (z * z * z), i * i * i, i * i * i);
    assert y * (i * i * i) == y * i * i * i;
    CubeOf(v, z, i);
    Times(p, f, 1, f, 1);
    Times(p, f * f, 1, f, 1);
    Times(p, v, v, f * f * f, 1);
  }

  lemma CubeOf(v: int, z: int, i: int)
    ensures v * (z * z * z) * (i * i * i) == v * ((z * i) * (z * i) * (z * i))
  {
    assert (z * i) * (z * i) * (z * i) == (z * z * z) * (i * i * i);
  }

  /** `multiply`: the bits of k from the lowest, doubling the addend. */
  method Multiply(c: Curve, k: nat, x: int, y: int) returns (xy: Option<(int, int)>)
    requires c.p > 1
    ensures ValidCurve(c) && Associative(c) && On(c, At(x, y)) ==> xy == Coordinates(Scalar(c, k, At(x, y)))
  {
    var result, addend, left := ZERO, Jac(x, y, 1), k;
    ghost var good := ValidCurve(c) && Associative(c) && On(c, At(x, y));
    ghost var r, d := Infinity, At(x, y);
    while left != 0
      invariant good ==> ValidCurve(c) && Associative(c) && On(c, r) && On(c, d)
      invariant good ==> Stands(c, result, r) && Stands(c, addend, d)
      invariant good ==> Sum(c, r, Scalar(c, left, d)) == Scalar(c, k, At(x, y))
    {
      if good {
        Halve(c, r, d, left);
        AddStands(c, result, addend, r, d);
        DoubleStands(c, addend, d);
        Closed(c, r, d);
        Closed(c, d, d);
      }
      if left % 2 == 1 {
        result := Add(c, result, addend);
        r := Sum(c, r, d);
      }
      addend := Double(c, addend);
      d := Sum(c, d, d);
      left := left / 2;
    }
    if good {
      AffineIs(c, result, r);
    }
    return Affine(c, result);
  }

  lemma ScalarStep(c: Curve, k: nat, q: Point)
    requires c.p > 1 && k > 0
    ensures Scalar(c, k, q) == Sum(c, q, Scalar(c, k - 1, q))
  {
  }

  /** One round of the loop keeps r + left*d. */
  lemma {:induction false} Halve(c: Curve, r: Point, d: Point, left: nat)
    requires ValidCurve(c) && Associative(c) && On(c, r) && On(c, d) && left > 0
    ensures Sum(c, if left % 2 == 1 then Sum(c, r, d) else r, Scalar(c, left / 2, Sum(c, d, d))) ==
      Sum(c, r, Scalar(c, left, d))
  {
    hide Sum, On, Associative, Scalar;
    var m := left / 2;
    ScalarEven(c, m, d);
    if left % 2 == 1 {
      ScalarStep(c, left, d);
      ScalarOn(c, 2 * m, d);
      Assoc(c, r, d, Scalar(c, 2 * m, d));
    }
  }
}
