/** Signing and verifying on NIST P-256. SHA-256 and the RFC 6979 generator are parameters:
    a digest read as an integer, and the nonces tried in turn. */
module Ecdsa {
  import opened Options
  import opened Modular
  import opened EllipticCurve
  import opened Jacobian
  import opened Multiples
  import opened Nist
  import BaseOrder

  // ------------------------------------------------------------- a group of prime order

  datatype Domain = Domain(c: Curve, n: int, g: Point)

  /** What domain parameters are to be (SEC 1, section 3.1.1): both moduli prime, addition
      associative, and the base point on the curve and of order n. */
  ghost predicate Group(m: Domain) {
    && ValidCurve(m.c) && IsPrime(m.n) && Associative(m.c)
    && m.g.At? && On(m.c, m.g) && Scalar(m.c, m.n, m.g) == Infinity
  }

  lemma SumInfinity(c: Curve, q: Point)
    requires c.p > 1
    ensures Sum(c, Infinity, q) == q && Sum(c, q, Infinity) == q
  {
  }

  /** Multiples of the base point only depend on the factor modulo n. */
  lemma {:induction false} ScalarModN(m: Domain, k: nat)
    requires Group(m)
    ensures Scalar(m.c, k, m.g) == Scalar(m.c, k % m.n, m.g)
  {
    hide *;
    GroupFacts(m);
    WholePart(k, m.n);
    WholeTurns(m.c, m.g, m.n, k / m.n, k % m.n);
  }

  lemma WholePart(k: nat, n: nat)
    requires n > 0
    ensures k == k / n * n + k % n && k / n * n >= 0
  {
  }

  lemma WholeTurns(c: Curve, g: Point, n: nat, q: nat, r: nat)
    requires ValidCurve(c) && Associative(c) && On(c, g) && Scalar(c, n, g) == Infinity && q * n >= 0
    ensures Scalar(c, q * n + r, g) == Scalar(c, r, g)
  {
    hide Sum, On, Associative, Scalar;
    ScalarTimes(c, q, n, g);
    ScalarInfinity(c, q);
    ScalarPlus(c, q * n, r, g);
    SumInfinity(c, Scalar(c, r, g));
  }

  /** Below n, no multiple of the base point vanishes. */
  lemma {:induction false} ScalarNonZero(m: Domain, k: nat)
    requires Group(m) && k % m.n != 0
    ensures Scalar(m.c, k, m.g).At?
  {
    PrimeInverse(k, m.n);
    InverseWorks(k, m.n);
    OneIs(m.n, k * Inverse(k, m.n));
    BackToBase(m, k, Inverse(k, m.n));
  }

  lemma GroupFacts(m: Domain)
    requires Group(m)
    ensures ValidCurve(m.c) && m.c.p > 1 && Associative(m.c) && m.g.At? && On(m.c, m.g)
    ensures m.n > 1 && Scalar(m.c, m.n, m.g) == Infinity
  {
    hide Associative, On, Scalar;
  }

  lemma {:induction false} BackToBase(m: Domain, k: nat, v: nat)
    requires Group(m) && (k * v) % m.n == 1
    ensures Scalar(m.c, k, m.g).At?
  {
    hide *;
    GroupFacts(m);
    ScalarOne(m.c, m.g);
    ScalarInfinity(m.c, v);
    ScalarTimes(m.c, v, k, m.g);
    assert k * v == v * k;
    ScalarModN(m, v * k);
  }

  lemma OneIs(n: int, a: int)
    requires n > 1 && Cong(n, a, 1)
    ensures a % n == 1
  {
    SmallRemainder(1, n);
  }

  lemma {:induction false} ScalarOne(c: Curve, g: Point)
    requires c.p > 1
    ensures Scalar(c, 1, g) == g
  {
    assert Scalar(c, 0, g) == Infinity;
  }

  // ------------------------------------------------------------- sign and verify, as SEC 1 has them

  /** (r, s) is the signature of digest e by the key d with nonce k: section 4.1.3. */
  ghost predicate Signs(m: Domain, d: int, e: int, k: nat, r: int, s: int)
    requires m.c.p > 1 && m.n > 1
  {
    && Scalar(m.c, k, m.g).At? && r == Scalar(m.c, k, m.g).x % m.n && r != 0
    && s == Inverse(k, m.n) * (e + r * d) % m.n && s != 0
  }

  /** The two factors of a verification: e/s and r/s. */
  function Factor(m: Domain, e: int, s: int): nat
    requires m.n > 1
  {
    e * Inverse(s, m.n) % m.n
  }

  /** (r, s) is accepted for digest e and public key q: section 4.1.4. */
  ghost predicate Accepts(m: Domain, q: Point, e: int, r: int, s: int)
    requires m.c.p > 1 && m.n > 1
  {
    && 1 <= r < m.n && 1 <= s < m.n
    && var t := Sum(m.c, Scalar(m.c, Factor(m, e, s), m.g), Scalar(m.c, Factor(m, r, s), q)); t.At? && t.x % m.n == r
  }

  /** What is signed is accepted; and the first factor vanishes exactly with the digest. */
  lemma {:induction false} SignedIsAccepted(m: Domain, d: nat, e: int, k: nat, r: int, s: int)
    requires Group(m) && 1 <= d < m.n && 0 <= e < m.n && 1 <= k < m.n && Signs(m, d, e, k, r, s)
    ensures Accepts(m, Scalar(m.c, d, m.g), e, r, s)
    ensures Factor(m, e, s) == 0 <==> e == 0
    ensures Scalar(m.c, Factor(m, r, s), Scalar(m.c, d, m.g)).At?
  {
    var u1, u2 := Factor(m, e, s), Factor(m, r, s);
    FactorsMeet(m.n, d, e, k, r, s, u1, u2);
    assert u2 * d >= 0;
    hide Sum, On, Associative, IsPrime, Inverse, ValidCurve;
    TotalIsNonce(m, u1, u2, d, k);
  }

  lemma {:induction false} TotalIsNonce(m: Domain, u1: nat, u2: nat, d: nat, k: nat)
    requires Group(m) && u2 * d >= 0 && (u1 + u2 * d) % m.n == k && (u2 * d) % m.n != 0
    ensures Sum(m.c, Scalar(m.c, u1, m.g), Scalar(m.c, u2, Scalar(m.c, d, m.g))) == Scalar(m.c, k, m.g)
    ensures Scalar(m.c, u2, Scalar(m.c, d, m.g)).At?
  {
    hide Sum, On, Associative, IsPrime, ValidCurve, Scalar;
    ScalarTimes(m.c, u2, d, m.g);
    ScalarPlus(m.c, u1, u2 * d, m.g);
    ScalarModN(m, u1 + u2 * d);
    ScalarNonZero(m, u2 * d);
  }

  /** u1 + u2*d is the nonce, modulo n. */
  lemma FactorsMeet(n: int, d: int, e: int, k: int, r: int, s: int, u1: int, u2: int)
    requires IsPrime(n) && 0 <= e < n && 0 < k < n && 0 < d < n && 0 < r < n && 0 < s < n
    requires s == Inverse(k, n) * (e + r * d) % n
    requires u1 == e * Inverse(s, n) % n && u2 == r * Inverse(s, n) % n
    ensures (u1 + u2 * d) % n == k && u2 % n != 0 && (u2 * d) % n != 0
    ensures u1 == 0 <==> e == 0
  {
    var w, i, f := Inverse(s, n), Inverse(k, n), e + r * d;
    SmallRemainder(s, n);
    SmallRemainder(k, n);
    PrimeInverse(s, n);
    PrimeInverse(k, n);
    InverseWorks(s, n);
    InverseWorks(k, n);
    Residue(n, i * f);
    Residue(n, e * w);
    Residue(n, r * w);
    Residue(n, u1 + u2 * d);
    Vanish(n, d, e, r, s, w);
    hide Red, Inverse, Invertible, IsPrime;
    Combine(n, d, e, k, r, s, u1, u2, w, i, f);
    Unique(n, (u1 + u2 * d) % n, k);
  }

  lemma Combine(n: int, d: int, e: int, k: int, r: int, s: int, u1: int, u2: int, w: int, i: int, f: int)
    requires n > 1 && f == e + r * d && Cong(n, s, i * f) && Cong(n, k * i, 1) && Cong(n, s * w, 1)
    requires Cong(n, u1, e * w) && Cong(n, u2, r * w)
    ensures Cong(n, u1 + u2 * d, k)
  {
    hide Red;
    // k*s is f, hence w*f is k
    Times(n, k, k, s, i * f);
    Times(n, k * i, 1, f, f);
    assert k * (i * f) == (k * i) * f;
    Times(n, w, w, k * s, f);
    Times(n, k, k, s * w, 1);
    assert w * (k * s) == k * (s * w);
    // and u1 + u2*d is w*f
    Times(n, u2, r * w, d, d);
    Plus(n, u1, e * w, u2 * d, r * w * d);
    assert e * w + r * w * d == w * f;
  }

  /** What is not 0 stays so through the products. */
  lemma Vanish(n: int, d: int, e: int, r: int, s: int, w: int)
    requires IsPrime(n) && 0 <= e < n && 0 < d < n && 0 < r < n && Cong(n, s * w, 1)
    ensures (e * w) % n == 0 <==> e == 0
    ensures (r * w) % n % n != 0 && (r * w % n * d) % n != 0
  {
    InverseNonZero(n, s, w);
    SmallRemainder(r, n);
    SmallRemainder(d, n);
    NonZero(n, r, w);
    NonZero(n, r * w % n, d);
    if e != 0 {
      SmallRemainder(e, n);
      NonZero(n, e, w);
    }
  }

  lemma InverseNonZero(n: int, s: int, w: int)
    requires n > 1 && Cong(n, s * w, 1)
    ensures w % n != 0
  {
    SmallRemainder(1, n);
    if w % n == 0 {
      Times(n, s, s, w, 0);
    }
  }

  // ------------------------------------------------------------- the module's own functions

  const DOMAIN := Domain(P256, N, G)

  /** All that is taken for granted of P-256: the order of its base point is proved. */
  ghost predicate Assumed() {
    IsPrime(P) && IsPrime(N) && Associative(P256)
  }

  lemma P256Group()
    requires Assumed()
    ensures Group(DOMAIN)
  {
    hide IsPrime, Associative, On, Scalar;
    BaseOn();
    assert ValidCurve(P256);
    BaseOrder.BeforeN();
    BaseOrder.MirrorEnds(P256, G, N);
  }

  /** `on_curve`, of coordinates that need not be reduced. */
  predicate OnCurve(c: Curve, x: int, y: int)
    requires c.p > 1
  {
    (y * y - (x * x * x + c.a * x + c.b)) % c.p == 0
  }

  lemma OnCurveIs(c: Curve, x: int, y: int)
    requires c.p > 1
    ensures OnCurve(c, x, y) <==> Solves(c, x, y)
  {
    ZeroIsCong(c.p, y * y, x * x * x + c.a * x + c.b);
  }

  /** `sign`: the first nonce that gives neither a zero r nor a zero s. */
  method Sign(d: int, digest: nat, nonces: seq<nat>) returns (sig: Option<(int, int)>)
    requires Assumed() && 1 <= d < N && forall i :: 0 <= i < |nonces| ==> 1 <= nonces[i] < N
    ensures sig.Some? ==>
      exists i :: 0 <= i < |nonces| && Signs(DOMAIN, d, digest % N, nonces[i], sig.value.0, sig.value.1)
    ensures sig.None? ==> forall i :: 0 <= i < |nonces| ==>
      forall r, s :: !Signs(DOMAIN, d, digest % N, nonces[i], r, s)
  {
    P256Group();
    var e := digest % N;
    for n := 0 to |nonces|
      invariant forall i :: 0 <= i < n ==> forall r, s :: !Signs(DOMAIN, d, e, nonces[i], r, s)
    {
      var k := nonces[n];
      SmallRemainder(k, N);
      ScalarNonZero(DOMAIN, k);
      var xy := Multiply(P256, k, GX, GY);
      assert xy == Coordinates(Scalar(P256, k, G));
      var r := xy.value.0 % N;
      if r == 0 {
        continue;
      }
      var s := Inverse(k, N) * (e + r * d) % N;
      if s != 0 {
        assert Signs(DOMAIN, d, e, nonces[n], r, s);
        return Some((r, s));
      }
    }
    return None;
  }

  datatype Answer = Says(valid: bool) | Raises

  /** `verify`: the standard's answer, but for a factor whose multiple has no coordinates:
      there it raises. */
  method Verify(x: int, y: int, digest: nat, r: int, s: int) returns (a: Answer)
    requires Assumed()
    ensures !(1 <= r < N && 1 <= s < N) || !OnCurve(P256, x, y) ==> a == Says(false)
    ensures 1 <= r < N && 1 <= s < N && On(P256, At(x, y)) ==>
      var q := At(x, y);
      if Factor(DOMAIN, digest % N, s) == 0 || Scalar(P256, Factor(DOMAIN, r, s), q) == Infinity then a == Raises
      else a == Says(Accepts(DOMAIN, q, digest % N, r, s))
  {
    P256Group();
    OnCurveIs(P256, x, y);
    if !(1 <= r < N && 1 <= s < N) || !OnCurve(P256, x, y) {
      return Says(false);
    }
    ghost var good := On(P256, At(x, y));
    var u1, u2 := Factor(DOMAIN, digest % N, s), Factor(DOMAIN, r, s);
    var left := Multiply(P256, u1, GX, GY);
    VanishesWith(u1);
    if left.None? {
      return Raises;
    }
    var right := Multiply(P256, u2, x, y);
    if right.None? {
      return Raises;
    }
    var j, k := Jac(left.value.0, left.value.1, 1), Jac(right.value.0, right.value.1, 1);
    var total := Add(P256, j, k);
    if good {
      TotalIs(u1, u2, At(x, y), j, k);
    }
    var xy := Affine(P256, total);
    if total.z == 0 {
      return Says(false);
    }
    return Says(xy.value.0 % N == r);
  }

  lemma {:induction false} VanishesWith(u: nat)
    requires Group(DOMAIN) && u < N
    ensures Scalar(P256, u, G) == Infinity <==> u == 0
  {
    if u != 0 {
      SmallRemainder(u, N);
      ScalarNonZero(DOMAIN, u);
    }
  }

  lemma {:induction false} TotalIs(u1: nat, u2: nat, q: Point, j: Jac, k: Jac)
    requires Group(DOMAIN) && On(P256, q) && Scalar(P256, u1, G).At? && Scalar(P256, u2, q).At?
    requires j == Jac(Scalar(P256, u1, G).x, Scalar(P256, u1, G).y, 1)
    requires k == Jac(Scalar(P256, u2, q).x, Scalar(P256, u2, q).y, 1)
    ensures var t := Sum(P256, Scalar(P256, u1, G), Scalar(P256, u2, q));
      Affine(P256, Add(P256, j, k)) == Coordinates(t) && (Add(P256, j, k).z == 0 <==> t == Infinity)
  {
    ScalarOn(P256, u1, G);
    ScalarOn(P256, u2, q);
    AddAffine(P256, j, k, Scalar(P256, u1, G), Scalar(P256, u2, q));
  }

  lemma AddAffine(c: Curve, j: Jac, k: Jac, a: Point, b: Point)
    requires ValidCurve(c) && On(c, a) && On(c, b) && a.At? && b.At?
    requires j == Jac(a.x, a.y, 1) && k == Jac(b.x, b.y, 1)
    ensures Affine(c, Add(c, j, k)) == Coordinates(Sum(c, a, b))
    ensures Add(c, j, k).z == 0 <==> Sum(c, a, b) == Infinity
  {
    hide Sum, Add, Solves, Affine;
    AddStands(c, j, k, a, b);
    Closed(c, a, b);
    AffineIs(c, Add(c, j, k), Sum(c, a, b));
  }

  /** Sign, then verify with the public key: accepted, whatever the key and the message -
      except that a digest of 0 modulo N makes `verify` raise. */
  method SignThenVerify(d: nat, digest: nat, nonces: seq<nat>) returns (sig: Option<(int, int)>, a: Answer)
    requires Assumed() && 1 <= d < N && forall i :: 0 <= i < |nonces| ==> 1 <= nonces[i] < N
    ensures sig.Some? ==> (a == if digest % N == 0 then Raises else Says(true))
  {
    P256Group();
    SmallRemainder(d, N);
    ScalarNonZero(DOMAIN, d);
    ScalarOn(P256, d, G);
    var key := Multiply(P256, d, GX, GY);
    sig := Sign(d, digest, nonces);
    a := Raises;
    if sig.Some? {
      var (r, s) := sig.value;
      ghost var i :| 0 <= i < |nonces| && Signs(DOMAIN, d, digest % N, nonces[i], r, s);
      SignedIsAccepted(DOMAIN, d, digest % N, nonces[i], r, s);
      a := Verify(key.value.0, key.value.1, digest, r, s);
    }
  }
}
