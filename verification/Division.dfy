/** Facts about integer division that the solver does not find on its own. */
module Division {

  /** A multiple of d that lies above -d is a non-negative multiple. */
  lemma MultipleAbove(d: int, k: int)
    requires d > 0 && d * k > -d
    ensures k >= 0
  {
    assert k <= -1 ==> d * k <= -d;
  }

  /** Division with remainder is unique. */
  lemma RemainderIs(v: nat, d: nat, q: nat, r: nat)
    requires d > 0 && v == d * q + r && r < d
    ensures v % d == r && v / d == q
  {
    var q', r' := v / d, v % d;
    assert d * (q - q') == r' - r;
    MultipleAbove(d, q - q');
    assert d * (q' - q) == r - r';
    MultipleAbove(d, q' - q);
  }

  /** Whatever fits into n d times is at most the quotient. */
  lemma QuotientIsLargest(n: nat, d: nat, q: nat)
    requires d > 0
    ensures d * q <= n <==> q <= n / d
  {
    var p, r := n / d, n % d;
    assert n == d * p + r;
    assert q <= p ==> d * (p - q) >= 0;
    if d * q <= n {
      assert d * (p - q) == n - r - d * q;
      MultipleAbove(d, p - q);
    }
  }

  /** A bigger divisor never gives a bigger quotient. */
  lemma DivAntitone(n: nat, d: nat, e: nat)
    requires 0 < d <= e
    ensures n / e <= n / d
  {
    var q := n / e;
    QuotientIsLargest(n, e, q);
    assert (e - d) * q >= 0;
    QuotientIsLargest(n, d, q);
  }

  /** Dividing n by its quotient by d gives d back exactly when the remainder stays below
      that quotient, and at least d in every case. */
  lemma DivideTwice(n: nat, d: nat)
    requires 0 < d <= n
    ensures 1 <= n / d <= n
    ensures d <= n / (n / d)
    ensures n / (n / d) == d <==> n % d < n / d
  {
    QuotientIsLargest(n, d, 1);
    var t, r := n / d, n % d;
    assert n == d * t + r;
    BackAgain(n, d, t, r);
  }

  lemma BackAgain(n: nat, d: nat, t: nat, r: nat)
    requires d > 0 && t > 0 && n == d * t + r
    ensures t <= n && d <= n / t && (n / t == d <==> r < t)
  {
    var k := n / t;
    Commute(t, d);
    QuotientIsLargest(n, t, d);
    Commute(t, d + 1);
    QuotientIsLargest(n, t, d + 1);
    QuotientIsLargest(n, d, t);
    QuotientIsLargest(n, 1, t);
  }

  lemma Commute(a: nat, b: nat)
    ensures a * b == b * a && (b >= 1 ==> a * b >= a)
    ensures (b + 1) * a == b * a + a
  {
    assert b >= 1 ==> a * (b - 1) >= 0;
  }

  /** Up to the square root of n the remainder does stay below. */
  lemma RemainderBelowRoot(n: nat, d: nat)
    requires 0 < d && d * d <= n
    ensures n % d < n / d
  {
    QuotientIsLargest(n, d, d);
  }

  /** Dividing as reals: never less than the integer quotient, equal to it when nothing is
      left over, and flooring to it always. */
  lemma FloorOfQuotient(a: nat, b: nat)
    requires b > 0
    ensures var x := a as real / b as real;
            x >= (a / b) as real && x.Floor == a / b && (x == (a / b) as real <==> a % b == 0)
  {
    var q, r := a / b, a % b;
    assert a == b * q + r;
    var x, y := a as real / b as real, r as real / b as real;
    assert y * b as real == r as real;
    assert x == q as real + y by {
      assert a as real == b as real * q as real + r as real;
      assert (q as real + y) * b as real == a as real;
      QuotientUnique(a as real, b as real, q as real + y);
    }
    assert 0.0 <= y < 1.0 by {
      PositiveQuotient(y, b as real, r as real);
    }
  }

  lemma QuotientUnique(a: real, b: real, x: real)
    requires b > 0.0 && x * b == a
    ensures x == a / b
  {
  }

  lemma PositiveQuotient(y: real, b: real, r: real)
    requires y * b == r && b > 0.0 && 0.0 <= r < b
    ensures 0.0 <= y < 1.0 && (y == 0.0 <==> r == 0.0)
  {
    assert (y - 1.0) * b == r - b;
    assert y < 0.0 ==> y * b < 0.0;
    assert y >= 1.0 ==> (y - 1.0) * b >= 0.0;
  }

  lemma DivisionIdentity(a: nat, d: nat)
    requires d > 0
    ensures a == d * (a / d) + a % d && a % d < d
  {
  }

  lemma Divide(a: nat, d: nat) returns (q: nat, r: nat)
    requires d > 0
    ensures a == d * q + r && r < d && r == a % d
  {
    q, r := a / d, a % d;
  }

  /** A residue taken of what is left of a multiple. */
  lemma NestedRemainder(a: nat, p: nat, m: nat, q: nat, r: nat, s: nat, t: nat)
    requires a == (p * m) * q + r && r == p * s + t && t < p
    ensures a % p == t
  {
    Associate(p, m, q);
    Distribute(p, m * q, s);
    RemainderIs(a, p, m * q + s, t);
  }

  lemma Associate(a: int, b: int, c: int)
    ensures (a * b) * c == a * (b * c)
  {
  }

  lemma Distribute(a: int, b: int, c: int)
    ensures a * (b + c) == a * b + a * c
  {
  }

  lemma NestedQuotientIs(v: nat, a: nat, b: nat, q: nat, r: nat, p: nat, s: nat)
    requires v == a * q + r && r < a && q == b * p + s && s < b
    ensures a * b > 0 && v / (a * b) == p
  {
    Associate(a, b, p);
    Distribute(a, b * p, s);
    Distribute(a, b - 1 - s, s);
    Distribute(a, b - 1, 1);
    BelowProduct(a, b, r, s);
    RemainderIs(v, a * b, p, a * s + r);
  }

  lemma BelowProduct(a: nat, b: nat, r: nat, s: nat)
    requires r < a && s < b
    ensures 0 <= a * s + r < a * b
  {
    Distribute(a, b - 1 - s, s + 1);
    Distribute(a, s, 1);
    assert a * (b - 1 - s) >= 0;
  }

  /** Dividing twice is dividing by the product. */
  lemma NestedQuotient(v: nat, a: nat, b: nat)
    requires a > 0 && b > 0
    ensures a * b > 0 && v / a / b == v / (a * b)
  {
    var q, r := Divide(v, a);
    var p, s := Divide(q, b);
    NestedQuotientIs(v, a, b, q, r, p, s);
    RemainderIs(v, a, q, r);
    RemainderIs(q, b, p, s);
  }
}
