/** The Jacobian formulas of the signing code: (x, y, z) stands for (x/z^2, y/z^3). */
module Jacobian {
  import opened Modular
  import opened EllipticCurve

  datatype Jac = Jac(x: int, y: int, z: int)

  const ZERO := Jac(0, 1, 0)

  function Double(c: Curve, j: Jac): Jac
    requires c.p > 1
  {
    var p := c.p;
    if j.y == 0 then ZERO
    else
      var ysq := j.y * j.y % p;
      var s := 4 * j.x * ysq % p;
      var m := (3 * j.x * j.x + c.a * (j.z * j.z * j.z * j.z % p)) % p;
      var nx := (m * m - 2 * s) % p;
      Jac(nx, (m * (s - nx) - 8 * ysq * ysq) % p, 2 * j.y * j.z % p)
  }

  function Add(c: Curve, j: Jac, k: Jac): Jac
    requires c.p > 1
  {
    var p := c.p;
    if j.z == 0 then k
    else if k.z == 0 then j
    else
      var z1z1, z2z2 := j.z * j.z % p, k.z * k.z % p;
      var u1, u2 := j.x * z2z2 % p, k.x * z1z1 % p;
      var s1, s2 := j.y * k.z * z2z2 % p, k.y * j.z * z1z1 % p;
      if u1 == u2 then (if s1 == s2 then Double(c, j) else ZERO)
      else
        var h, r := (u2 - u1) % p, (s2 - s1) % p;
        var h2 := h * h % p;
        var h3 := h * h2 % p;
        var u1h2 := u1 * h2 % p;
        var nx := (r * r - h3 - 2 * u1h2) % p;
        Jac(nx, (r * (u1h2 - nx) - s1 * h3) % p, h * j.z * k.z % p)
  }

  predicate InRange(p: int, j: Jac) { 0 <= j.x < p && 0 <= j.y < p && 0 <= j.z < p }

  /** j stands for the point q. */
  ghost predicate Stands(c: Curve, j: Jac, q: Point)
    requires c.p > 1
  {
    && InRange(c.p, j) && (q.Infinity? <==> j.z == 0)
    && (q.At? ==> Cong(c.p, j.x, q.x * (j.z * j.z)) && Cong(c.p, j.y, q.y * (j.z * j.z * j.z)))
  }

  // ------------------------------------------------------------- the shared last step

  /** Both formulas end the same way: with w for the new z, the new x is the third
      abscissa times w^2, and the new y mirrors it through a known point. */
  lemma ThirdStands(c: Curve, l: int, q: Point, x: int, w: int, m: int, s: int, t: int, j: Jac)
    requires ValidCurve(c) && q.At? && InRange(c.p, j) && w % c.p != 0
    requires Cong(c.p, j.z, w) && Cong(c.p, m, l * w) && Cong(c.p, s, q.x * (w * w)) && Cong(c.p, t, q.y * (w * w * w))
    requires Cong(c.p, j.x, (l * l - q.x - x) * (w * w)) && Cong(c.p, j.y, m * (s - j.x) - t)
    ensures Stands(c, j, Third(c, l, q, x))
  {
    var p := c.p;
    var nx := Third(c, l, q, x).x;
    var ny := Third(c, l, q, x).y;
    NotZero(p, j.z, w);
    Residue(p, l * l - q.x - x);
    Residue(p, l * (q.x - nx) - q.y);
    hide Red;
    // powers of the new z
    Times(p, j.z, w, j.z, w);
    Times(p, j.z * j.z, w * w, j.z, w);
    // the new x
    Times(p, nx, l * l - q.x - x, j.z * j.z, w * w);
    // the new y
    Times(p, nx, l * l - q.x - x, w * w, w * w);
    Plus(p, s, q.x * (w * w), j.x, nx * (w * w));
    Times(p, m, l * w, s - j.x, q.x * (w * w) - nx * (w * w));
    Plus(p, m * (s - j.x), l * w * (q.x * (w * w) - nx * (w * w)), t, q.y * (w * w * w));
    MirrorFactor(l, q.x, nx, q.y, w);
    Times(p, ny, l * (q.x - nx) - q.y, j.z * j.z * j.z, w * w * w);
  }

  lemma MirrorFactor(l: int, x: int, nx: int, y: int, w: int)
    ensures l * w * (x * (w * w) - nx * (w * w)) - y * (w * w * w) == (l * (x - nx) - y) * (w * w * w)
  {
    assert x * (w * w) - nx * (w * w) == (x - nx) * (w * w);
    assert l * w * ((x - nx) * (w * w)) == l * (x - nx) * (w * w * w);
  }

  lemma NotZero(p: int, z: int, w: int)
    requires p > 1 && Cong(p, z, w) && w % p != 0 && 0 <= z < p
    ensures z != 0
  {
  }

  // ------------------------------------------------------------- doubling

  /** A finite point's z and its powers are not 0, and y is 0 exactly where the point is
      its own mirror. */
  lemma MirrorPoint(c: Curve, j: Jac, q: Point)
    requires ValidCurve(c) && Stands(c, j, q) && On(c, q) && q.At?
    ensures j.y == 0 <==> q.y == 0
    ensures j.z % c.p != 0 && (j.z * j.z * j.z) % c.p != 0
  {
    var p := c.p;
    SmallRemainder(j.z, p);
    hide Solves;
    NonZero(p, j.z, j.z);
    NonZero(p, j.z * j.z, j.z);
    ScaledZero(p, j.y, q.y, j.z * j.z * j.z);
  }

  lemma ScaledZero(p: int, y: int, v: int, k: int)
    requires IsPrime(p) && k % p != 0 && 0 <= y < p && 0 <= v < p && Cong(p, y, v * k)
    ensures y == 0 <==> v == 0
  {
    if y != 0 {
      SmallRemainder(y, p);
    }
    if v != 0 {
      SmallRemainder(v, p);
      NonZero(p, v, k);
    }
  }

  lemma DoubleTerms(p: int, a: int, x: int, y: int, z: int, u: int, v: int, l: int, w: int, ysq: int, s: int, m: int)
    requires p > 1 && Cong(p, x, u * (z * z)) && Cong(p, y, v * (z * z * z)) && w == 2 * v * (z * z * z) * z
    requires Cong(p, l * (2 * v), 3 * u * u + a)
    requires Cong(p, ysq, y * y) && Cong(p, s, 4 * x * ysq) && Cong(p, m, 3 * x * x + a * (z * z * z * z))
    ensures Cong(p, 2 * y * z, w) && Cong(p, s, u * (w * w)) && Cong(p, m, l * w)
    ensures Cong(p, 8 * ysq * ysq, v * (w * w * w))
  {
    hide Red;
    var t := v * (z * z * z);
    assert w == 2 * t * z;
    TermZ(p, y, z, t);
    Times(p, y, t, y, t);
    TermS(p, x, u, z, t, ysq, s);
    TermM(p, a, x, z, u, v, l, m);
    TermY(p, v, z, t, ysq);
  }

  lemma TermZ(p: int, y: int, z: int, t: int)
    requires p > 1 && Cong(p, y, t)
    ensures Cong(p, 2 * y * z, 2 * t * z)
  {
    hide Red;
    Times(p, 2 * z, 2 * z, y, t);
    assert 2 * z * y == 2 * y * z && 2 * z * t == 2 * t * z;
  }

  lemma TermS(p: int, x: int, u: int, z: int, t: int, ysq: int, s: int)
    requires p > 1 && Cong(p, x, u * (z * z)) && Cong(p, ysq, t * t) && Cong(p, s, 4 * x * ysq)
    ensures Cong(p, s, u * ((2 * t * z) * (2 * t * z)))
  {
    hide Red;
    Times(p, 4, 4, x, u * (z * z));
    Times(p, 4 * x, 4 * (u * (z * z)), ysq, t * t);
    FourSquares(u, t, z);
  }

  lemma TermM(p: int, a: int, x: int, z: int, u: int, v: int, l: int, m: int)
    requires p > 1 && Cong(p, x, u * (z * z)) && Cong(p, l * (2 * v), 3 * u * u + a)
    requires Cong(p, m, 3 * x * x + a * (z * z * z * z))
    ensures Cong(p, m, l * (2 * v * (z * z * z) * z))
  {
    hide Red;
    var f := z * z * z * z;
    Times(p, x, u * (z * z), x, u * (z * z));
    Times(p, 3, 3, x * x, u * (z * z) * (u * (z * z)));
    assert 3 * (x * x) == 3 * x * x;
    Plus(p, 3 * x * x, 3 * (u * (z * z) * (u * (z * z))), a * f, a * f);
    SlopeFactor(a, u, z);
    Times(p, l * (2 * v), 3 * u * u + a, f, f);
    Shuffle(l, v, z);
  }

  lemma TermY(p: int, v: int, z: int, t: int, ysq: int)
    requires p > 1 && t == v * (z * z * z) && Cong(p, ysq, t * t)
    ensures Cong(p, 8 * ysq * ysq, v * ((2 * t * z) * (2 * t * z) * (2 * t * z)))
  {
    hide Red;
    Times(p, 8, 8, ysq, t * t);
    Times(p, 8 * ysq, 8 * (t * t), ysq, t * t);
    EightFourths(v, z, t);
  }

  lemma FourSquares(u: int, t: int, z: int)
    ensures 4 * (u * (z * z)) * (t * t) == u * ((2 * t * z) * (2 * t * z))
  {
    assert (2 * t * z) * (2 * t * z) == 4 * (z * z) * (t * t);
  }

  lemma SlopeFactor(a: int, u: int, z: int)
    ensures 3 * (u * (z * z) * (u * (z * z))) + a * (z * z * z * z) == (3 * u * u + a) * (z * z * z * z)
  {
    assert u * (z * z) * (u * (z * z)) == u * u * (z * z * z * z);
  }

  lemma Shuffle(l: int, v: int, z: int)
    ensures l * (2 * v) * (z * z * z * z) == l * (2 * v * (z * z * z) * z)
  {
  }

  lemma EightFourths(v: int, z: int, t: int)
    requires t == v * (z * z * z)
    ensures 8 * (t * t) * (t * t) == v * ((2 * t * z) * (2 * t * z) * (2 * t * z))
  {
    assert (2 * t * z) * (2 * t * z) * (2 * t * z) == 8 * (t * t * t) * (z * z * z);
    assert v * (8 * (t * t * t) * (z * z * z)) == 8 * (t * t * t) * t;
  }

  lemma DoubleStands(c: Curve, j: Jac, q: Point)
    requires ValidCurve(c) && Stands(c, j, q) && On(c, q)
    ensures Stands(c, Double(c, j), Sum(c, q, q))
  {
    if q.At? {
      MirrorPoint(c, j, q);
      if q.y != 0 {
        DoubleAt(c, j, q);
      }
    }
  }

  lemma DoubleAt(c: Curve, j: Jac, q: Point)
    requires ValidCurve(c) && Stands(c, j, q) && On(c, q) && q.At? && q.y != 0 && j.y != 0
    requires j.z % c.p != 0 && (j.z * j.z * j.z) % c.p != 0
    ensures Stands(c, Double(c, j), Third(c, Tangent(c, q), q, q.x))
  {
    var p, x, y, z, u, v, l := c.p, j.x, j.y, j.z, q.x, q.y, Tangent(c, q);
    var z4 := z * z * z * z % p;
    var ysq := y * y % p;
    var s := 4 * x * ysq % p;
    var m := (3 * x * x + c.a * z4) % p;
    var d := Double(c, j);
    var w := 2 * v * (z * z * z) * z;
    SmallRemainder(2, p);
    SmallRemainder(v, p);
    NonZero(p, 2, v);
    NonZero(p, 2 * v, z * z * z);
    NonZero(p, 2 * v * (z * z * z), z);
    TangentSlope(c, q);
    Residue(p, z * z * z * z);
    Residue(p, y * y);
    Residue(p, 4 * x * ysq);
    Residue(p, 3 * x * x + c.a * z4);
    Residue(p, m * m - 2 * s);
    Residue(p, m * (s - d.x) - 8 * ysq * ysq);
    Residue(p, 2 * y * z);
    hide Red, Tangent, Third;
    Times(p, c.a, c.a, z4, z * z * z * z);
    Plus(p, 3 * x * x, 3 * x * x, c.a * z4, c.a * (z * z * z * z));
    DoubleTerms(p, c.a, x, y, z, u, v, l, w, ysq, s, m);
    Times(p, m, l * w, m, l * w);
    Times(p, 2, 2, s, u * (w * w));
    Plus(p, m * m, l * w * (l * w), 2 * s, 2 * (u * (w * w)));
    assert l * w * (l * w) - 2 * (u * (w * w)) == (l * l - u - u) * (w * w) by { TangentThird(l, u, w); }
    ThirdStands(c, l, q, u, w, m, s, 8 * ysq * ysq, d);
  }

  lemma TangentThird(l: int, u: int, w: int)
    ensures l * w * (l * w) - 2 * (u * (w * w)) == (l * l - u - u) * (w * w)
  {
  }

  // ------------------------------------------------------------- adding

  /** With both points over the common w0 = z1*z2, the compared values are the coordinates
      times w0^2 and w0^3. */
  lemma Scaled(p: int, x: int, y: int, z: int, u: int, v: int, zo: int, zz: int, us: int, ss: int)
    requires p > 1 && Cong(p, x, u * (z * z)) && Cong(p, y, v * (z * z * z)) && Cong(p, zz, zo * zo)
    requires Cong(p, us, x * zz) && Cong(p, ss, y * zo * zz)
    ensures Cong(p, us, u * ((z * zo) * (z * zo)))
    ensures Cong(p, ss, v * ((z * zo) * (z * zo) * (z * zo)))
  {
    hide Red;
    Times(p, x, u * (z * z), zz, zo * zo);
    assert u * (z * z) * (zo * zo) == u * ((z * zo) * (z * zo));
    Times(p, y, v * (z * z * z), zo, zo);
    Times(p, y * zo, v * (z * z * z) * zo, zz, zo * zo);
    Regroup(v, z, zo);
  }

  lemma Regroup(v: int, z: int, zo: int)
    ensures v * (z * z * z) * zo * (zo * zo) == v * ((z * zo) * (z * zo) * (z * zo))
  {
    assert (z * zo) * (z * zo) * (z * zo) == (z * z * z) * (zo * zo * zo);
  }

  /** Scaling by what is not 0 keeps different residues different. */
  lemma SameScaled(p: int, u: int, v: int, s: int, t: int, k: int)
    requires IsPrime(p) && k % p != 0 && 0 <= u < p && 0 <= v < p && 0 <= s < p && 0 <= t < p
    requires Cong(p, s, u * k) && Cong(p, t, v * k)
    ensures s == t <==> u == v
  {
    if s == t {
      PrimeInverse(k, p);
      hide Invertible;
      assert u * k == k * u && v * k == k * v;
      Cancel(p, k, u, v);
      Unique(p, u, v);
    } else if u == v {
      Unique(p, s, t);
    }
  }

  lemma AddTerms(p: int, u1: int, u2: int, s1: int, s2: int, a: int, b: int, d: int, e: int, w0: int, l: int, w: int,
                 h: int, r: int, h2: int, h3: int, uh: int)
    requires p > 1 && w == d * (w0 * w0 * w0)
    requires Cong(p, u1, a * (w0 * w0)) && Cong(p, u2, (a + d) * (w0 * w0))
    requires Cong(p, s1, b * (w0 * w0 * w0)) && Cong(p, s2, (b + e) * (w0 * w0 * w0))
    requires Cong(p, l * d, e)
    requires Cong(p, h, u2 - u1) && Cong(p, r, s2 - s1) && Cong(p, h2, h * h) && Cong(p, h3, h * h2) &&
      Cong(p, uh, u1 * h2)
    ensures Cong(p, h, d * (w0 * w0)) && Cong(p, r, l * w) && Cong(p, h3, d * (w * w))
    ensures Cong(p, uh, a * (w * w)) && Cong(p, s1 * h3, b * (w * w * w))
  {
    hide Red;
    var k := w0 * w0;
    var f := d * k;
    Plus(p, u2, (a + d) * k, u1, a * k);
    assert (a + d) * k - a * k == f;
    var g := w0 * w0 * w0;
    Plus(p, s2, (b + e) * g, s1, b * g);
    assert (b + e) * g - b * g == e * g;
    Times(p, l * d, e, g, g);
    assert l * d * g == l * w;
    Times(p, h, f, h, f);
    Times(p, h, f, h2, f * f);
    Cube(d, w0, w);
    Times(p, u1, a * k, h2, f * f);
    SquareOf(a, d, w0, w);
    Times(p, s1, b * g, h3, d * (w * w));
    assert b * g * (d * (w * w)) == b * (w * w * w) by {
      assert g * d == w;
      assert b * g * (d * (w * w)) == b * (g * d * (w * w));
    }
  }

  lemma Cube(d: int, w0: int, w: int)
    requires w == d * (w0 * w0 * w0)
    ensures d * (w0 * w0) * (d * (w0 * w0) * (d * (w0 * w0))) == d * (w * w)
  {
    assert w * w == d * d * (w0 * w0 * w0 * w0 * w0 * w0);
  }

  lemma SquareOf(a: int, d: int, w0: int, w: int)
    requires w == d * (w0 * w0 * w0)
    ensures a * (w0 * w0) * (d * (w0 * w0) * (d * (w0 * w0))) == a * (w * w)
  {
    assert w * w == d * d * (w0 * w0 * w0 * w0 * w0 * w0);
  }

  lemma ChordThird(l: int, d: int, a: int, w: int)
    ensures l * w * (l * w) - d * (w * w) - 2 * (a * (w * w)) == (l * l - a - (a + d)) * (w * w)
  {
  }

  lemma AddStands(c: Curve, j: Jac, k: Jac, q: Point, r: Point)
    requires ValidCurve(c) && Stands(c, j, q) && Stands(c, k, r) && On(c, q) && On(c, r)
    ensures Stands(c, Add(c, j, k), Sum(c, q, r))
  {
    if q.At? && r.At? {
      var p := c.p;
      var z1z1, z2z2 := j.z * j.z % p, k.z * k.z % p;
      var u1, u2 := j.x * z2z2 % p, k.x * z1z1 % p;
      var s1, s2 := j.y * k.z * z2z2 % p, k.y * j.z * z1z1 % p;
      var w0 := j.z * k.z;
      AddScaled(c, j, k, q, r, z1z1, z2z2, u1, u2, s1, s2);
      if u1 != u2 {
        AddAt(c, j, k, q, r, u1, u2, s1, s2);
      } else if s1 == s2 {
        DoubleStands(c, j, q);
      }
    }
  }

  lemma AddScaled(c: Curve, j: Jac, k: Jac, q: Point, r: Point, z1z1: int, z2z2: int, u1: int, u2: int, s1: int,
    s2: int)
    requires ValidCurve(c) && Stands(c, j, q) && Stands(c, k, r) && On(c, q) && On(c, r) && q.At? && r.At?
    requires z1z1 == j.z * j.z % c.p && z2z2 == k.z * k.z % c.p
    requires u1 == j.x * z2z2 % c.p && u2 == k.x * z1z1 % c.p
    requires s1 == j.y * k.z * z2z2 % c.p && s2 == k.y * j.z * z1z1 % c.p
    ensures var w0 := j.z * k.z;
      && w0 % c.p != 0 && (w0 * w0) % c.p != 0 && (w0 * w0 * w0) % c.p != 0
      && Cong(c.p, u1, q.x * (w0 * w0)) && Cong(c.p, u2, r.x * (w0 * w0))
      && Cong(c.p, s1, q.y * (w0 * w0 * w0)) && Cong(c.p, s2, r.y * (w0 * w0 * w0))
    ensures u1 == u2 <==> q.x == r.x
    ensures s1 == s2 <==> q.y == r.y
  {
    var p, w0 := c.p, j.z * k.z;
    SmallRemainder(j.z, p);
    SmallRemainder(k.z, p);
    NonZero(p, j.z, k.z);
    NonZero(p, w0, w0);
    NonZero(p, w0 * w0, w0);
    Residue(p, j.z * j.z);
    Residue(p, k.z * k.z);
    Residue(p, j.x * z2z2);
    Residue(p, k.x * z1z1);
    Residue(p, j.y * k.z * z2z2);
    Residue(p, k.y * j.z * z1z1);
    hide Red, Solves;
    Scaled(p, j.x, j.y, j.z, q.x, q.y, k.z, z2z2, u1, s1);
    Scaled(p, k.x, k.y, k.z, r.x, r.y, j.z, z1z1, u2, s2);
    assert k.z * j.z == w0;
    SameScaled(p, q.x, r.x, u1, u2, w0 * w0);
    SameScaled(p, q.y, r.y, s1, s2, w0 * w0 * w0);
  }

  lemma AddAt(c: Curve, j: Jac, k: Jac, q: Point, r: Point, u1: int, u2: int, s1: int, s2: int)
    requires ValidCurve(c) && Stands(c, j, q) && Stands(c, k, r) && On(c, q) && On(c, r) && q.At? && r.At? && q.x != r.x
    requires u1 == j.x * (k.z * k.z % c.p) % c.p && u2 == k.x * (j.z * j.z % c.p) % c.p && u1 != u2
    requires s1 == j.y * k.z * (k.z * k.z % c.p) % c.p && s2 == k.y * j.z * (j.z * j.z % c.p) % c.p
    requires var w0 := j.z * k.z;
      && w0 % c.p != 0 && (w0 * w0) % c.p != 0 && (w0 * w0 * w0) % c.p != 0
      && Cong(c.p, u1, q.x * (w0 * w0)) && Cong(c.p, u2, r.x * (w0 * w0))
      && Cong(c.p, s1, q.y * (w0 * w0 * w0)) && Cong(c.p, s2, r.y * (w0 * w0 * w0))
    ensures Stands(c, Add(c, j, k), Third(c, Chord(c, q, r), q, r.x))
  {
    var p, l, d, e, w0 := c.p, Chord(c, q, r), r.x - q.x, r.y - q.y, j.z * k.z;
    var t := Add(c, j, k);
    var h, g := (u2 - u1) % p, (s2 - s1) % p;
    var h2 := h * h % p;
    var h3 := h * h2 % p;
    var uh := u1 * h2 % p;
    var w := d * (w0 * w0 * w0);
    assert t == Jac((g * g - h3 - 2 * uh) % p, (g * (uh - t.x) - s1 * h3) % p, h * j.z * k.z % p);
    Residue(p, u2 - u1);
    Residue(p, s2 - s1);
    Residue(p, h * h);
    Residue(p, h * h2);
    Residue(p, u1 * h2);
    Residue(p, g * g - h3 - 2 * uh);
    Residue(p, g * (uh - t.x) - s1 * h3);
    Residue(p, h * j.z * k.z);
    ChordSlope(c, q, r);
    if d % p == 0 {
      Quotes(p, d);
    }
    NonZero(p, d, w0 * w0 * w0);
    AddFinish(c, q, r, l, w0, u1, u2, s1, s2, h, g, h2, h3, uh, j.z, k.z, t);
  }

  lemma AddFinish(c: Curve, q: Point, r: Point, l: int, w0: int, u1: int, u2: int, s1: int, s2: int,
                  h: int, g: int, h2: int, h3: int, uh: int, z: int, zo: int, t: Jac)
    requires ValidCurve(c) && q.At? && r.At? && w0 == z * zo && InRange(c.p, t)
    requires ((r.x - q.x) * (w0 * w0 * w0)) % c.p != 0
    requires Cong(c.p, u1, q.x * (w0 * w0)) && Cong(c.p, u2, r.x * (w0 * w0))
    requires Cong(c.p, s1, q.y * (w0 * w0 * w0)) && Cong(c.p, s2, r.y * (w0 * w0 * w0))
    requires Cong(c.p, l * (r.x - q.x), r.y - q.y)
    requires Cong(c.p, h, u2 - u1) && Cong(c.p, g, s2 - s1) && Cong(c.p, h2, h * h)
    requires Cong(c.p, h3, h * h2) && Cong(c.p, uh, u1 * h2)
    requires Cong(c.p, t.x, g * g - h3 - 2 * uh) && Cong(c.p, t.y, g * (uh - t.x) - s1 * h3) &&
      Cong(c.p, t.z, h * z * zo)
    ensures Stands(c, t, Third(c, l, q, r.x))
  {
    var p, d, e := c.p, r.x - q.x, r.y - q.y;
    var w := d * (w0 * w0 * w0);
    hide Red, Third, Stands, IsPrime;
    AddTerms(p, u1, u2, s1, s2, q.x, q.y, d, e, w0, l, w, h, g, h2, h3, uh);
    NewZ(p, h, z, zo, d, w0, w, t.z);
    NewX(p, g, h3, uh, l, w, d, q.x, t.x);
    assert l * l - q.x - (q.x + d) == l * l - q.x - r.x;
    ThirdStands(c, l, q, r.x, w, g, uh, s1 * h3, t);
  }

  lemma NewZ(p: int, h: int, z: int, zo: int, d: int, w0: int, w: int, t: int)
    requires p > 1 && w0 == z * zo && w == d * (w0 * w0 * w0) && Cong(p, h, d * (w0 * w0)) && Cong(p, t, h * z * zo)
    ensures Cong(p, t, w)
  {
    hide Red;
    Times(p, h, d * (w0 * w0), w0, w0);
    assert h * w0 == h * z * zo && d * (w0 * w0) * w0 == w;
  }

  lemma NewX(p: int, g: int, h3: int, uh: int, l: int, w: int, d: int, a: int, x: int)
    requires p > 1 && Cong(p, g, l * w) && Cong(p, h3, d * (w * w)) && Cong(p, uh, a * (w * w))
    requires Cong(p, x, g * g - h3 - 2 * uh)
    ensures Cong(p, x, (l * l - a - (a + d)) * (w * w))
  {
    hide Red;
    Times(p, g, l * w, g, l * w);
    Times(p, 2, 2, uh, a * (w * w));
    Plus(p, g * g, l * w * (l * w), h3, d * (w * w));
    Plus(p, g * g - h3, l * w * (l * w) - d * (w * w), 2 * uh, 2 * (a * (w * w)));
    ChordThird(l, d, a, w);
  }
}
