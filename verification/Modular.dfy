/** Integers modulo p: congruence as a relation to calculate with, and inverses. */
module Modular {

  /** The residue of a. Calculations below use it through its laws only. */
  function Red(p: int, a: int): int
    requires p > 1
  {
    a % p
  }

  /** p divides a - b. */
  ghost predicate Cong(p: int, a: int, b: int)
    requires p > 1
  {
    Red(p, a) == Red(p, b)
  }

  lemma SmallMultiple(k: int, p: int)
    requires p > 0
    ensures k > 0 ==> k * p >= p
    ensures k < 0 ==> k * p <= -p
  {
  }

  /** The quotient and the remainder are what they should be. */
  lemma Division(q: int, r: int, p: int)
    requires 0 <= r < p
    ensures (q * p + r) / p == q && (q * p + r) % p == r
  {
    var x := q * p + r;
    assert x == x / p * p + x % p;
    Difference(q, x / p, p);
    SmallMultiple(q - x / p, p);
  }

  lemma Difference(k: int, l: int, p: int)
    ensures (k - l) * p == k * p - l * p && (k + l) * p == k * p + l * p
  {
  }

  /** A multiple of p does not change the remainder. */
  lemma Shift(p: int, b: int, k: int)
    requires p > 0
    ensures (b + k * p) % p == b % p
  {
    assert b == b / p * p + b % p;
    Difference(b / p, k, p);
    Division(b / p + k, b % p, p);
  }

  lemma Quotient(p: int, a: int, b: int) returns (k: int)
    requires p > 1 && Cong(p, a, b)
    ensures a == b + k * p
  {
    k := a / p - b / p;
    assert a == a / p * p + a % p && b == b / p * p + b % p;
    Difference(a / p, b / p, p);
  }

  lemma FromQuotient(p: int, a: int, b: int, k: int)
    requires p > 1 && a == b + k * p
    ensures Cong(p, a, b)
  {
    Shift(p, b, k);
  }

  lemma Residue(p: int, a: int)
    requires p > 1
    ensures Cong(p, a % p, a) && 0 <= a % p < p
  {
  }

  /** Residues are congruent only when equal. */
  lemma Unique(p: int, a: int, b: int)
    requires p > 1 && Cong(p, a, b) && 0 <= a < p && 0 <= b < p
    ensures a == b
  {
  }

  lemma Plus(p: int, a: int, a': int, b: int, b': int)
    requires p > 1 && Cong(p, a, a') && Cong(p, b, b')
    ensures Cong(p, a + b, a' + b') && Cong(p, a - b, a' - b')
  {
    hide Red;
    var k := Quotient(p, a, a');
    var l := Quotient(p, b, b');
    Difference(k, l, p);
    FromQuotient(p, a + b, a' + b', k + l);
    FromQuotient(p, a - b, a' - b', k - l);
  }

  /** p divides the difference exactly when the two are congruent. */
  lemma ZeroIsCong(p: int, a: int, b: int)
    requires p > 1
    ensures (a - b) % p == 0 <==> Cong(p, a, b)
  {
    if (a - b) % p == 0 {
      Plus(p, a - b, 0, b, b);
    } else if Cong(p, a, b) {
      Plus(p, a, b, b, b);
    }
  }

  lemma Times(p: int, a: int, a': int, b: int, b': int)
    requires p > 1 && Cong(p, a, a') && Cong(p, b, b')
    ensures Cong(p, a * b, a' * b')
  {
    hide Red;
    var k := Quotient(p, a, a');
    var l := Quotient(p, b, b');
    ProductOfShifts(p, a', b', k, l);
    FromQuotient(p, a * b, a' * b', k * b' + l * a' + k * l * p);
  }

  lemma ProductOfShifts(p: int, a: int, b: int, k: int, l: int)
    ensures (a + k * p) * (b + l * p) == a * b + (k * b + l * a + k * l * p) * p
  {
  }

  // ------------------------------------------------------------- inverses

  ghost predicate IsPrime(p: int) { p > 1 && forall d :: 1 < d < p ==> p % d != 0 }

  /** s and t with s*a + t*b = g, the greatest common divisor of a and b. */
  function Bezout(a: nat, b: nat): (r: (nat, int, int))
    ensures r.1 * a + r.2 * b == r.0
    decreases b
  {
    if b == 0 then (a, 1, 0)
    else
      var (g, s, t) := Bezout(b, a % b);
      BezoutStep(a, b, s, t);
      (g, t, s - t * (a / b))
  }

  lemma BezoutStep(a: nat, b: nat, s: int, t: int)
    requires b > 0
    ensures t * a + (s - t * (a / b)) * b == s * b + t * (a % b)
  {
    var q, r := a / b, a % b;
    assert a == q * b + r;
    assert t * (q * b + r) == t * q * b + t * r;
  }

  lemma {:induction false} BezoutDivides(a: nat, b: nat)
    requires a > 0 || b > 0
    ensures Bezout(a, b).0 > 0 && a % Bezout(a, b).0 == 0 && b % Bezout(a, b).0 == 0
    decreases b
  {
    if b > 0 {
      BezoutDivides(b, a % b);
      var g, q, r := Bezout(b, a % b).0, a / b, a % b;
      assert a == q * b + r;
      CommonMultiple(g, b, r, q);
      assert Bezout(a, b).0 == g;
    }
  }

  lemma CommonMultiple(g: nat, b: nat, c: nat, k: nat)
    requires g > 0 && b % g == 0 && c % g == 0
    ensures (k * b + c) % g == 0
  {
    var l, m := b / g, c / g;
    assert b == l * g && c == m * g;
    assert k * (l * g) == (k * l) * g;
    Difference(k * l, m, g);
    Division(k * l + m, 0, g);
  }

  /** `pow(value, -1, modulus)`, where it does not raise. */
  function Inverse(v: int, m: int): int
    requires m > 1
  {
    Bezout(v % m, m).1 % m
  }

  predicate Invertible(v: int, m: int)
    requires m > 1
  {
    Bezout(v % m, m).0 == 1
  }

  lemma InverseWorks(v: int, m: int)
    requires m > 1 && Invertible(v, m)
    ensures Cong(m, v * Inverse(v, m), 1) && 0 <= Inverse(v, m) < m
  {
    var u, s, t := v % m, Bezout(v % m, m).1, Bezout(v % m, m).2;
    hide Red, Bezout;
    Residue(m, v);
    Residue(m, s);
    assert u * s == 1 + (-t) * m by { assert s * u + t * m == 1; }
    FromQuotient(m, u * s, 1, -t);
    Times(m, v, u, s % m, s);
  }

  /** Modulo a prime, everything but 0 has an inverse. */
  lemma PrimeInverse(v: int, p: int)
    requires IsPrime(p) && v % p != 0
    ensures Invertible(v, p)
  {
    var g := Bezout(v % p, p).0;
    BezoutDivides(v % p, p);
    if g >= p {
      SmallRemainder(v % p, g);
    }
  }

  lemma SmallRemainder(a: nat, g: nat)
    requires 0 < a < g
    ensures a % g == a
  {
  }

  /** What can be inverted can be cancelled. */
  lemma Cancel(p: int, v: int, a: int, b: int)
    requires p > 1 && Invertible(v, p) && Cong(p, v * a, v * b)
    ensures Cong(p, a, b)
  {
    var w := Inverse(v, p);
    InverseWorks(v, p);
    Times(p, w, w, v * a, v * b);
    Times(p, v * w, 1, a, a);
    Times(p, v * w, 1, b, b);
    assert w * (v * a) == (v * w) * a && w * (v * b) == (v * w) * b;
  }

  /** A product is 0 modulo a prime only if a factor is. */
  lemma NoZeroDivisors(p: int, a: int, b: int)
    requires IsPrime(p) && Cong(p, a * b, 0)
    ensures a % p == 0 || b % p == 0
  {
    if a % p != 0 {
      PrimeInverse(a, p);
      Cancel(p, a, b, 0);
    }
  }

  /** Products of what is not 0 are not 0. */
  lemma NonZero(p: int, a: int, b: int)
    requires IsPrime(p) && a % p != 0 && b % p != 0
    ensures (a * b) % p != 0
  {
    if (a * b) % p == 0 {
      NoZeroDivisors(p, a, b);
    }
  }
}
