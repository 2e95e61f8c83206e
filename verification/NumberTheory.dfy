/**
  Greatest common divisors, congruences and one prime, for the modules that hash and divide.

  Everything is built up from division with remainder: `Gcd` by Euclid's algorithm, `Bezout` with
  the coefficients it runs through, and from these that a coprime factor cancels, has an inverse,
  and divides a product only by dividing the other factor. Nonlinear steps have lemmas of their own.
 */
module NumberTheory {

  /** `math.gcd` on non-negative arguments. */
  function Gcd(a: nat, b: nat): (g: nat)
    ensures a > 0 || b > 0 ==> g > 0
    decreases b
  {
    if b == 0 then a else Gcd(b, a % b)
  }

  ghost predicate Divides(d: int, x: int) { exists k: int :: x == d * k }

  lemma DividesSum(d: int, x: int, y: int, c: int)
    requires Divides(d, x) && Divides(d, y)
    ensures Divides(d, x + c * y)
  {
    var i, j :| x == d * i && y == d * j;
    assert x + c * y == d * (i + c * j);
  }

  lemma {:induction false} GcdDivides(a: nat, b: nat)
    ensures Divides(Gcd(a, b), a) && Divides(Gcd(a, b), b)
    decreases b
  {
    if b == 0 {
      assert a == a * 1 && 0 == a * 0;
    } else {
      GcdDivides(b, a % b);
      DividesSum(Gcd(a, b), a % b, b, a / b);
    }
  }

  lemma {:induction false} Bezout(a: nat, b: nat) returns (x: int, y: int)
    ensures a * x + b * y == Gcd(a, b)
    decreases b
  {
    if b == 0 {
      x, y := 1, 0;
    } else {
      var u, v := Bezout(b, a % b);
      x, y := v, u - (a / b) * v;
    }
  }

  lemma DividesTimes(d: int, x: int, c: int)
    requires Divides(d, x)
    ensures Divides(d, c * x)
  {
    var k :| x == d * k;
    Regroup(c, d, k);
    assert c * x == d * (c * k);
  }

  lemma Regroup(c: int, d: int, k: int)
    ensures c * (d * k) == d * (c * k)
  {
    assert c * (d * k) == (c * d) * k;
    assert d * (c * k) == (d * c) * k;
  }

  lemma SmallRemainder(a: nat, b: nat)
    requires a < b
    ensures a % b == a
  {
  }

  lemma GcdSymmetric(a: nat, b: nat)
    ensures Gcd(a, b) == Gcd(b, a)
  {
    if a < b { SmallRemainder(a, b); }
    if b < a { SmallRemainder(b, a); }
  }

  // ---------------------------------------------------------------- congruences

  ghost predicate Congruent(x: int, y: int, n: int) { Divides(n, x - y) }

  lemma ModIsCongruent(x: int, n: int)
    requires n > 0
    ensures Congruent(x % n, x, n)
  {
    assert x % n - x == n * -(x / n);
  }

  lemma CongruentMod(x: int, y: int, n: int)
    requires n > 0
    ensures Congruent(x, y, n) <==> x % n == y % n
  {
    if Congruent(x, y, n) {
      var k :| x - y == n * k;
      ModUnique(x, y / n + k, y % n, n);
    }
    if x % n == y % n {
      assert x - y == n * (x / n - y / n);
    }
  }

  lemma Product(a: nat, b: nat)
    ensures a * b >= 0
  {
  }

  lemma PositiveMultiple(n: nat, d: int)
    requires d > 0
    ensures n * d >= n
  {
    Product(n, d - 1);
    assert n * d == n * (d - 1) + n;
  }

  lemma NegatedProduct(n: int, d: int)
    ensures n * -d == -(n * d)
  {
  }

  lemma NonzeroMultiple(n: nat, d: int)
    requires d != 0
    ensures n * d >= n || n * d <= 0 - n
  {
    if d > 0 {
      PositiveMultiple(n, d);
    } else {
      PositiveMultiple(n, -d);
      NegatedProduct(n, d);
    }
  }

  lemma ProductGrows(a: nat, b: nat, c: nat, d: nat)
    requires a <= c && b <= d
    ensures a * b <= c * d
  {
    Product(c - a, d);
    Product(a, d - b);
    assert c * d == (c - a) * d + a * d;
    assert a * d == a * (d - b) + a * b;
  }

  lemma ModUnique(x: int, q: int, r: int, n: int)
    requires n > 0 && x == n * q + r && 0 <= r < n
    ensures x % n == r && x / n == q
  {
    var d := q - x / n;
    assert n * d == n * q - n * (x / n);
    if d != 0 { NonzeroMultiple(n, d); }
  }

  lemma CongruentChain(x: int, y: int, z: int, n: int)
    requires Congruent(x, y, n) && Congruent(y, z, n)
    ensures Congruent(x, z, n)
  {
    DividesSum(n, x - y, y - z, 1);
  }

  lemma CongruentFlip(x: int, y: int, n: int)
    requires Congruent(x, y, n)
    ensures Congruent(y, x, n)
  {
    var k :| x - y == n * k;
    assert y - x == n * -k;
  }

  lemma CongruentTimes(x: int, y: int, c: int, n: int)
    requires Congruent(x, y, n)
    ensures Congruent(c * x, c * y, n)
  {
    DividesTimes(n, x - y, c);
    assert c * (x - y) == c * x - c * y;
  }

  lemma CongruentProduct(a: int, b: int, x: int, y: int, n: int)
    requires Congruent(a, b, n) && Congruent(x, y, n)
    ensures Congruent(a * x, b * y, n)
  {
    CongruentTimes(x, y, a, n);
    CongruentTimes(a, b, y, n);
    CongruentChain(a * x, a * y, b * y, n);
  }

  lemma CombineOne(m: int, u: int, n: int, v: int, w: int)
    requires m * u + n * v == 1
    ensures u * (m * w) + v * (n * w) == w
  {
    Regroup(u, m, w);
    Regroup(v, n, w);
    assert m * (u * w) == (m * u) * w;
    assert n * (v * w) == (n * v) * w;
    assert (m * u) * w + (n * v) * w == (m * u + n * v) * w;
  }

  /** A multiplier prime to `n` can be cancelled. */
  lemma Cancel(m: nat, x: int, y: int, n: nat)
    requires Gcd(m, n) == 1 && Congruent(m * x, m * y, n)
    ensures Congruent(x, y, n)
  {
    var u, v := Bezout(m, n);
    var w := x - y;
    assert m * w == m * x - m * y;
    DividesTimes(n, m * w, u);
    assert Divides(n, n * w);
    DividesTimes(n, n * w, v);
    DividesSum(n, u * (m * w), v * (n * w), 1);
    CombineOne(m, u, n, v, w);
  }
}
