/** Points of y^2 = x^3 + a*x + b modulo a prime, with chord-and-tangent addition. */
module EllipticCurve {
  import opened Modular

  datatype Curve = Curve(p: int, a: int, b: int)

  datatype Point = Infinity | At(x: int, y: int)

  ghost predicate ValidCurve(c: Curve) { IsPrime(c.p) && c.p > 2 }

  ghost predicate Solves(c: Curve, x: int, y: int)
    requires c.p > 1
  {
    Cong(c.p, y * y, x * x * x + c.a * x + c.b)
  }

  ghost predicate On(c: Curve, q: Point)
    requires c.p > 1
  {
    q.At? ==> 0 <= q.x < c.p && 0 <= q.y < c.p && Solves(c, q.x, q.y)
  }

  // ------------------------------------------------------------- the affine law

  function Chord(c: Curve, q: Point, r: Point): int
    requires c.p > 1 && q.At? && r.At?
  {
    (r.y - q.y) * Inverse(r.x - q.x, c.p)
  }

  function Tangent(c: Curve, q: Point): int
    requires c.p > 1 && q.At?
  {
    (3 * q.x * q.x + c.a) * Inverse(2 * q.y, c.p)
  }

  /** The third point on the line of slope l through q and a point of abscissa x, mirrored. */
  function Third(c: Curve, l: int, q: Point, x: int): Point
    requires c.p > 1 && q.At?
  {
    var nx := (l * l - q.x - x) % c.p;
    At(nx, (l * (q.x - nx) - q.y) % c.p)
  }

  function Sum(c: Curve, q: Point, r: Point): Point
    requires c.p > 1
  {
    if q.Infinity? then r
    else if r.Infinity? then q
    else if q.x != r.x then Third(c, Chord(c, q, r), q, r.x)
    else if q.y == r.y && q.y != 0 then Third(c, Tangent(c, q), q, q.x)
    else Infinity
  }

  // ------------------------------------------------------------- slopes

  lemma ChordSlope(c: Curve, q: Point, r: Point)
    requires ValidCurve(c) && q.At? && r.At? && On(c, q) && On(c, r) && q.x != r.x
    ensures Cong(c.p, Chord(c, q, r) * (r.x - q.x), r.y - q.y) && Invertible(r.x - q.x, c.p)
  {
    var d := r.x - q.x;
    if d % c.p == 0 {
      Quotes(c.p, d);
    }
    PrimeInverse(d, c.p);
    Divides(c.p, r.y - q.y, d);
  }

  /** Two different residues are not congruent. */
  lemma Quotes(p: int, d: int)
    requires p > 1 && -p < d < p && d % p == 0
    ensures d == 0
  {
  }

  lemma Divides(p: int, n: int, d: int)
    requires p > 1 && Invertible(d, p)
    ensures Cong(p, n * Inverse(d, p) * d, n)
  {
    hide Red, Inverse;
    InverseWorks(d, p);
    Times(p, n, n, d * Inverse(d, p), 1);
    assert n * (d * Inverse(d, p)) == n * Inverse(d, p) * d;
  }

  lemma TangentSlope(c: Curve, q: Point)
    requires ValidCurve(c) && q.At? && On(c, q) && q.y != 0
    ensures Cong(c.p, Tangent(c, q) * (2 * q.y), 3 * q.x * q.x + c.a) && Invertible(2 * q.y, c.p)
  {
    SmallRemainder(2, c.p);
    SmallRemainder(q.y, c.p);
    hide Inverse, Invertible, Solves, Red;
    NonZero(c.p, 2, q.y);
    PrimeInverse(2 * q.y, c.p);
    Divides(c.p, 3 * q.x * q.x + c.a, 2 * q.y);
  }

  // ------------------------------------------------------------- closure

  /** The curve's equation along the line of slope l through (u, v), at abscissa x. */
  function Gap(c: Curve, l: int, u: int, v: int, x: int): int {
    x * x * x + c.a * x + c.b - (l * (x - u) + v) * (l * (x - u) + v)
  }

  /** What is left of it once the root u is divided out. */
  function Rest(c: Curve, l: int, u: int, v: int, x: int): int {
    x * x + x * u + u * u + c.a - l * l * (x - u) - 2 * l * v
  }

  lemma Cubes(x: int, u: int)
    ensures x * x * x == u * u * u + (x - u) * (x * x + x * u + u * u)
  {
  }

  lemma Square(l: int, d: int, v: int)
    ensures (l * d + v) * (l * d + v) == d * (l * l * d) + d * (2 * l * v) + v * v
  {
  }

  lemma Spread(d: int, r: int, s: int, t: int, w: int)
    ensures d * (r + s - t - w) == d * r + d * s - d * t - d * w
  {
  }

  lemma GapFactor(c: Curve, l: int, u: int, v: int, x: int)
    ensures Gap(c, l, u, v, x) == (u * u * u + c.a * u + c.b - v * v) + (x - u) * Rest(c, l, u, v, x)
  {
    var d := x - u;
    Cubes(x, u);
    Square(l, d, v);
    Spread(d, x * x + x * u + u * u, c.a, l * l * d, 2 * l * v);
    assert d * c.a == c.a * x - c.a * u;
  }

  lemma RestFactor(c: Curve, l: int, u: int, v: int, x: int, y: int)
    ensures Rest(c, l, u, v, y) == Rest(c, l, u, v, x) + (y - x) * (y + x + u - l * l)
  {
  }

  /** If the line meets the curve at u and again at x, then its third meeting is on the
      curve: the three abscissas sum to the square of the slope. */
  lemma ThirdOn(c: Curve, l: int, q: Point, x: int)
    requires ValidCurve(c) && q.At? && Solves(c, q.x, q.y)
    requires Cong(c.p, Rest(c, l, q.x, q.y, x), 0)
    ensures On(c, Third(c, l, q, x))
  {
    var p, u, v := c.p, q.x, q.y;
    var t := Third(c, l, q, x);
    Residue(p, l * l - u - x);
    Residue(p, l * (u - t.x) - v);
    hide Red, Rest, Gap;
    // the other factor vanishes at t.x too
    Plus(p, t.x, l * l - u - x, x + u - l * l, x + u - l * l);
    assert t.x + (x + u - l * l) == t.x + x + u - l * l && l * l - u - x + (x + u - l * l) == 0;
    Times(p, t.x - x, t.x - x, t.x + x + u - l * l, 0);
    RestFactor(c, l, u, v, x, t.x);
    Plus(p, Rest(c, l, u, v, x), 0, (t.x - x) * (t.x + x + u - l * l), (t.x - x) * 0);
    // so does the whole
    Times(p, t.x - u, t.x - u, Rest(c, l, u, v, t.x), 0);
    GapFactor(c, l, u, v, t.x);
    Plus(p, u * u * u + c.a * u + c.b, u * u * u + c.a * u + c.b, v * v, u * u * u + c.a * u + c.b);
    Plus(p, u * u * u + c.a * u + c.b - v * v, 0, (t.x - u) * Rest(c, l, u, v, t.x), (t.x - u) * 0);
    MirrorSolves(c, l, u, v, t.x, t.y);
  }

  lemma MirrorSolves(c: Curve, l: int, u: int, v: int, x: int, y: int)
    requires c.p > 1 && Cong(c.p, Gap(c, l, u, v, x), 0) && Cong(c.p, y, l * (u - x) - v)
    ensures Solves(c, x, y)
  {
    var p, w := c.p, l * (x - u) + v;
    hide Red;
    assert l * (u - x) - v == -w;
    Times(p, y, -w, y, -w);
    assert (-w) * (-w) == w * w;
    Plus(p, Gap(c, l, u, v, x), 0, w * w, w * w);
  }

  lemma {:induction false} Closed(c: Curve, q: Point, r: Point)
    requires ValidCurve(c) && On(c, q) && On(c, r)
    ensures On(c, Sum(c, q, r))
  {
    if q.At? && r.At? && q.x != r.x {
      ChordRest(c, q, r);
      ThirdOn(c, Chord(c, q, r), q, r.x);
    } else if q.At? && r.At? && q.y == r.y && q.y != 0 {
      TangentRest(c, q);
      ThirdOn(c, Tangent(c, q), q, q.x);
    }
  }

  lemma ChordRest(c: Curve, q: Point, r: Point)
    requires ValidCurve(c) && q.At? && r.At? && On(c, q) && On(c, r) && q.x != r.x
    ensures Cong(c.p, Rest(c, Chord(c, q, r), q.x, q.y, r.x), 0)
  {
    var p, l, u, v, x, y := c.p, Chord(c, q, r), q.x, q.y, r.x, r.y;
    ChordSlope(c, q, r);
    hide Red, Chord, Rest, Gap;
    Plus(p, l * (x - u), y - v, v, v);
    assert y - v + v == y;
    var w := l * (x - u) + v;
    Times(p, w, y, w, y);
    Plus(p, x * x * x + c.a * x + c.b, y * y, w * w, y * y);
    GapIs(c, l, u, v, x);
    GapFactor(c, l, u, v, x);
    var f := u * u * u + c.a * u + c.b;
    Plus(p, f, v * v, v * v, v * v);
    Plus(p, Gap(c, l, u, v, x), 0, f - v * v, 0);
    assert (x - u) * 0 == 0;
    Cancel(p, x - u, Rest(c, l, u, v, x), 0);
  }

  lemma GapIs(c: Curve, l: int, u: int, v: int, x: int)
    ensures Gap(c, l, u, v, x) == (x * x * x + c.a * x + c.b) - (l * (x - u) + v) * (l * (x - u) + v)
  {
  }

  lemma TangentRest(c: Curve, q: Point)
    requires ValidCurve(c) && q.At? && On(c, q) && q.y != 0
    ensures Cong(c.p, Rest(c, Tangent(c, q), q.x, q.y, q.x), 0)
  {
    var p, l, u, v := c.p, Tangent(c, q), q.x, q.y;
    TangentSlope(c, q);
    assert Rest(c, l, u, v, u) == (3 * u * u + c.a) - l * (2 * v);
    hide Red, Tangent, Rest;
    Plus(p, 3 * u * u + c.a, 3 * u * u + c.a, l * (2 * v), 3 * u * u + c.a);
  }

  // ------------------------------------------------------------- order of the operands

  lemma Commutes(c: Curve, q: Point, r: Point)
    requires ValidCurve(c) && On(c, q) && On(c, r)
    ensures Sum(c, q, r) == Sum(c, r, q)
  {
    if q.At? && r.At? && q.x != r.x {
      ChordCommutes(c, q, r);
    }
  }

  lemma ChordCommutes(c: Curve, q: Point, r: Point)
    requires ValidCurve(c) && q.At? && r.At? && On(c, q) && On(c, r) && q.x != r.x
    ensures Sum(c, q, r) == Sum(c, r, q)
  {
    var p, l, m := c.p, Chord(c, q, r), Chord(c, r, q);
    ChordSlope(c, q, r);
    ChordSlope(c, r, q);
    SameSlope(p, l, m, r.x - q.x, r.y - q.y, q.x - r.x, q.y - r.y);
    var t, t' := Third(c, l, q, r.x), Third(c, m, r, q.x);
    SameThird(p, l, m, q, r, t.x, t'.x);
    Residue(p, l * l - q.x - r.x);
    Residue(p, m * m - r.x - q.x);
    Unique(p, t.x, t'.x);
    SameMirror(p, l, m, q, r, t.x);
    Residue(p, l * (q.x - t.x) - q.y);
    Residue(p, m * (r.x - t.x) - r.y);
    Unique(p, t.y, t'.y);
  }

  lemma SameSlope(p: int, l: int, m: int, d: int, e: int, d': int, e': int)
    requires p > 1 && Invertible(d, p) && Cong(p, l * d, e) && Cong(p, m * d', e') && d' == -d && e' == -e
    ensures Cong(p, l, m)
  {
    hide Red, Invertible;
    Times(p, m * d', e', -1, -1);
    assert m * d' * -1 == d * m && e' * -1 == e && l * d == d * l;
    Cancel(p, d, l, m);
  }

  lemma SameThird(p: int, l: int, m: int, q: Point, r: Point, x: int, x': int)
    requires p > 1 && q.At? && r.At? && Cong(p, l, m)
    requires x == (l * l - q.x - r.x) % p && x' == (m * m - r.x - q.x) % p
    ensures x == x'
  {
    Times(p, l, m, l, m);
    Plus(p, l * l, m * m, q.x + r.x, q.x + r.x);
    assert l * l - (q.x + r.x) == l * l - q.x - r.x && m * m - (q.x + r.x) == m * m - r.x - q.x;
  }

  lemma SameMirror(p: int, l: int, m: int, q: Point, r: Point, x: int)
    requires p > 1 && q.At? && r.At? && Cong(p, l, m) && Cong(p, l * (r.x - q.x), r.y - q.y)
    ensures Cong(p, l * (q.x - x) - q.y, m * (r.x - x) - r.y)
  {
    hide Red;
    Times(p, l, m, r.x - x, r.x - x);
    Plus(p, l * (r.x - x), m * (r.x - x), l * (r.x - q.x), r.y - q.y);
    assert l * (r.x - x) - l * (r.x - q.x) == l * (q.x - x);
    Plus(p, l * (r.x - x) - l * (r.x - q.x), m * (r.x - x) - (r.y - q.y), q.y, q.y);
    assert m * (r.x - x) - (r.y - q.y) - q.y == m * (r.x - x) - r.y;
  }
}
