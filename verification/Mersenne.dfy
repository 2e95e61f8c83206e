/**
  The field modulus of the mixed address scheme, 2**31 - 1, is prime.

  Modulo any divisor above 1 one base has the power 1 at the exponent 151 * 331 = 49981, and neither
  at 151 nor at 331; both are prime, so its first 49981 powers differ. Such a divisor is therefore
  above 49981, more than the square root of 2**31 - 1, and of two cofactors one would have to be
  smaller.
 */
module Mersenne {
  import opened NumberTheory

  const Prime: nat := 0x7fff_ffff

  // ---------------------------------------------------------------- powers

  function Pow(b: int, e: nat): int { if e == 0 then 1 else b * Pow(b, e - 1) }

  lemma {:induction false} PowSum(b: int, i: nat, j: nat)
    ensures Pow(b, i + j) == Pow(b, i) * Pow(b, j)
  {
    if i > 0 {
      PowSum(b, i - 1, j);
      assert b * (Pow(b, i - 1) * Pow(b, j)) == (b * Pow(b, i - 1)) * Pow(b, j);
    }
  }

  lemma {:induction false} PowProduct(b: int, i: nat, j: nat)
    ensures Pow(b, i * j) == Pow(Pow(b, i), j)
  {
    if j > 0 {
      PowProduct(b, i, j - 1);
      assert i * j == i + i * (j - 1);
      Product(i, j - 1);
      PowSum(b, i, i * (j - 1));
    } else {
      assert i * j == 0;
    }
  }

  // ---------------------------------------------------------------- exponents whose power is 1

  ghost predicate One(b: int, e: nat, r: int) { Congruent(Pow(b, e), 1, r) }

  lemma OneShift(b: int, i: nat, j: nat, r: int)
    requires One(b, i, r)
    ensures Congruent(Pow(b, i + j), Pow(b, j), r)
  {
    PowSum(b, i, j);
    CongruentTimes(Pow(b, i), 1, Pow(b, j), r);
  }

  lemma {:induction false} OneMultiple(b: int, c: nat, q: nat, d: nat, r: int)
    requires One(b, c, r)
    ensures Congruent(Pow(b, c * q + d), Pow(b, d), r)
  {
    Product(c, q);
    if q == 0 {
      assert 0 == r * 0;
      assert c * q == 0;
    } else {
      OneMultiple(b, c, q - 1, d, r);
      assert c * q == c + c * (q - 1);
      Product(c, q - 1);
      OneShift(b, c, c * (q - 1) + d, r);
      CongruentChain(Pow(b, c * q + d), Pow(b, c * (q - 1) + d), Pow(b, d), r);
    }
  }

  lemma OneRemainder(b: int, a: nat, c: nat, q: nat, d: nat, r: int)
    requires a == c * q + d && One(b, a, r) && One(b, c, r)
    ensures One(b, d, r)
  {
    OneMultiple(b, c, q, d, r);
    CongruentFlip(Pow(b, a), Pow(b, d), r);
    CongruentChain(Pow(b, d), Pow(b, a), 1, r);
  }

  lemma {:induction false} OneGcd(b: int, a: nat, c: nat, r: int)
    requires One(b, a, r) && One(b, c, r)
    ensures One(b, Gcd(a, c), r)
    decreases c
  {
    if c > 0 {
      OneRemainder(b, a, c, a / c, a % c, r);
      OneGcd(b, c, a % c, r);
    }
  }

  lemma OneDivides(b: int, g: nat, e: nat, r: int)
    requires One(b, g, r) && e > 0 && Divides(g, e)
    ensures One(b, e, r)
  {
    var k :| e == g * k;
    OneMultiple(b, g, k, 0, r);
  }

  // ---------------------------------------------------------------- 49981 = 151 * 331

  ghost predicate IsPrime(p: nat) {
    p > 1 && forall d: nat, k: nat :: p == d * k ==> d == 1 || k == 1
  }

  lemma SmallFactor(p: nat, bound: nat, d: nat, k: nat)
    requires 1 < p < bound * bound && p == d * k
    requires forall i :: 2 <= i < bound ==> p % i != 0
    ensures d == 1 || k == 1
  {
    if d >= bound && k >= bound { ProductGrows(bound, bound, d, k); }
    ModUnique(p, k, 0, d);
    ModUnique(p, d, 0, k);
  }

  lemma SmallPrime(p: nat, bound: nat)
    requires 1 < p < bound * bound
    requires forall i :: 2 <= i < bound ==> p % i != 0
    ensures IsPrime(p)
  {
    forall d: nat, k: nat | p == d * k ensures d == 1 || k == 1 {
      SmallFactor(p, bound, d, k);
    }
  }

  lemma SharedQuotient(p: nat, q: nat, t: nat, k: nat)
    requires p > 0 && IsPrime(q) && p * q == (p * t) * k && k > 1
    ensures t == 1
  {
    SameMultiple(p, q, t * k);
  }

  lemma SharedFactor(p: nat, q: nat, g: nat, k: nat)
    requires IsPrime(p) && IsPrime(q) && p * q == g * k && k > 1 && Divides(p, g)
    ensures Divides(g, p)
  {
    var t :| g == p * t;
    SharedQuotient(p, q, t, k);
    assert p == g * 1;
  }

  lemma SameMultiple(p: nat, x: int, y: int)
    requires p > 0 && p * x == p * y
    ensures x == y
  {
    ModUnique(p * x, x, 0, p);
    ModUnique(p * x, y, 0, p);
  }

  /** A divisor of a product that is prime to one factor divides the other. */
  lemma OtherFactor(p: nat, q: nat, g: nat)
    requires Gcd(p, g) == 1 && Divides(g, p * q)
    ensures Divides(g, q)
  {
    assert p * q - p * 0 == p * q;
    assert Congruent(p * q, p * 0, g);
    Cancel(p, q, 0, g);
  }

  /** A proper divisor of a product of two primes divides one of them. */
  lemma ProperDivisor(p: nat, q: nat, g: nat, k: nat)
    requires IsPrime(p) && IsPrime(q) && p * q == g * k && k > 1
    ensures Divides(g, p) || Divides(g, q)
  {
    var h := Gcd(p, g);
    GcdDivides(p, g);
    if h == 1 {
      assert Divides(g, p * q);
      OtherFactor(p, q, g);
    } else {
      var t :| p == h * t;
      assert t == 1;
      SharedFactor(p, q, g, k);
    }
  }

  lemma Quotient(g: nat, n: nat) returns (k: nat)
    requires n > 0 && Divides(g, n)
    ensures n == g * k && 0 < k && 0 < g <= n
  {
    var i :| n == g * i;
    PositiveMultiple(g, i);
    k := i;
  }

  lemma ProperGcd(n: nat, e: nat) returns (g: nat, k: nat)
    requires 0 < e < n
    ensures g == Gcd(n, e) && g > 0 && n == g * k && k > 1
  {
    g := Gcd(n, e);
    GcdDivides(n, e);
    k := Quotient(g, n);
    var l := Quotient(g, e);
  }

  /** With order `p * q`, no smaller positive power is 1. */
  lemma FullOrder(b: int, p: nat, q: nat, e: nat, r: int)
    requires IsPrime(p) && IsPrime(q) && 0 < e < p * q
    requires One(b, p * q, r) && !One(b, p, r) && !One(b, q, r)
    ensures !One(b, e, r)
  {
    if One(b, e, r) {
      var g, k := ProperGcd(p * q, e);
      OneGcd(b, p * q, e, r);
      ProperDivisor(p, q, g, k);
      if Divides(g, p) { OneDivides(b, g, p, r); } else { OneDivides(b, g, q, r); }
    }
  }

  // ---------------------------------------------------------------- counting the powers

  lemma Shortened(whole: int, long: int, short: int, r: int)
    requires Congruent(whole, 1, r) && Congruent(whole, long, r) && Congruent(long, short, r)
    ensures Congruent(short, 1, r)
  {
    CongruentChain(whole, long, short, r);
    CongruentFlip(whole, short, r);
    CongruentChain(short, whole, 1, r);
  }

  lemma LongPower(b: int, i: nat, d: nat, c: nat, n: nat, r: int)
    requires Congruent(Pow(b, i), Pow(b, i + d), r) && n == c + i
    ensures Congruent(Pow(b, n), Pow(b, n + d), r)
  {
    PowSum(b, c, i);
    PowSum(b, c, i + d);
    CongruentTimes(Pow(b, i), Pow(b, i + d), Pow(b, c), r);
  }

  lemma PowersDiffer(b: int, n: nat, i: nat, d: nat, r: int)
    requires i <= n && One(b, n, r) && !One(b, d, r)
    ensures !Congruent(Pow(b, i), Pow(b, i + d), r)
  {
    if Congruent(Pow(b, i), Pow(b, i + d), r) {
      LongPower(b, i, d, n - i, n, r);
      OneShift(b, n, d, r);
      Shortened(Pow(b, n), Pow(b, n + d), Pow(b, d), r);
    }
  }

  lemma PowerIsNotZero(b: int, n: nat, i: nat, r: int)
    requires i <= n && r > 1 && One(b, n, r)
    ensures !Congruent(Pow(b, i), 0, r)
  {
    if Congruent(Pow(b, i), 0, r) {
      CongruentTimes(Pow(b, i), 0, Pow(b, n - i), r);
      PowSum(b, n - i, i);
      CongruentFlip(Pow(b, n), 1, r);
      CongruentChain(1, Pow(b, n), 0, r);
      CongruentMod(1, 0, r);
    }
  }

  function Residues(b: int, r: nat, k: nat): set<int>
    requires r > 0
  {
    if k == 0 then {} else Residues(b, r, k - 1) + {Pow(b, k - 1) % r}
  }

  lemma {:induction false} ResiduesAre(b: int, r: nat, k: nat, x: int) returns (i: nat)
    requires r > 0 && x in Residues(b, r, k)
    ensures i < k && x == Pow(b, i) % r
  {
    if x == Pow(b, k - 1) % r { i := k - 1; } else { i := ResiduesAre(b, r, k - 1, x); }
  }

  lemma {:induction false} CountResidues(b: int, n: nat, r: nat, k: nat)
    requires r > 1 && k <= n && One(b, n, r)
    requires forall e: nat :: 0 < e < n ==> !One(b, e, r)
    ensures |Residues(b, r, k)| == k
    ensures forall x :: x in Residues(b, r, k) ==> 0 < x < r
  {
    if k > 0 {
      CountResidues(b, n, r, k - 1);
      var x := Pow(b, k - 1) % r;
      PowerIsNotZero(b, n, k - 1, r);
      CongruentMod(Pow(b, k - 1), 0, r);
      if x in Residues(b, r, k - 1) {
        var i := ResiduesAre(b, r, k - 1, x);
        CongruentMod(Pow(b, i), Pow(b, k - 1), r);
        PowersDiffer(b, n, i, k - 1 - i, r);
      }
    }
  }

  lemma {:induction false} BoundedSet(xs: set<int>, r: nat)
    requires r > 0 && forall x :: x in xs ==> 0 < x < r
    ensures |xs| < r
  {
    if r == 1 {
      assert forall x :: x !in xs;
    } else {
      BoundedSet(xs - {r - 1}, r - 1);
    }
  }

  lemma OrderBound(b: int, n: nat, r: nat)
    requires r > 1 && One(b, n, r)
    requires forall e: nat :: 0 < e < n ==> !One(b, e, r)
    ensures n < r
  {
    CountResidues(b, n, r, n);
    BoundedSet(Residues(b, r, n), r);
  }

  // ---------------------------------------------------------------- an element of order 49981

  ghost predicate Raised(b: int, e: nat, x: int) { Congruent(Pow(b, e), x, Prime) }

  lemma First(b: int, x: int) returns (e: nat)
    requires Congruent(b, x, Prime)
    ensures e == 1 && Raised(b, e, x)
  {
    e := 1;
    assert Pow(b, 1) == b * Pow(b, 0) == b;
  }

  lemma Reduce(z: int, w: int, q: int, y: int)
    requires Congruent(z, w, Prime) && w == q * Prime + y
    ensures Congruent(z, y, Prime)
  {
    assert w - y == Prime * q;
    CongruentChain(z, w, y, Prime);
  }

  lemma Square(b: int, e: nat, x: int, q: int, y: int) returns (f: nat)
    requires Raised(b, e, x) && x * x == q * Prime + y
    ensures f == 2 * e && Raised(b, f, y)
  {
    f := 2 * e;
    PowSum(b, e, e);
    CongruentProduct(Pow(b, e), x, Pow(b, e), x, Prime);
    Reduce(Pow(b, f), x * x, q, y);
  }

  lemma Once(b: int, base: int, e: nat, x: int, q: int, y: int) returns (f: nat)
    requires Congruent(b, base, Prime) && Raised(b, e, x) && x * base == q * Prime + y
    ensures f == e + 1 && Raised(b, f, y)
  {
    f := e + 1;
    CongruentProduct(b, base, Pow(b, e), x, Prime);
    Reduce(Pow(b, f), base * x, q, y);
  }

  lemma Base151(b: int) returns (e: nat)
    requires Congruent(b, 1143626917, Prime)
    ensures e == 151 && Raised(b, e, 1761855083)
  {
    e := First(b, 1143626917);
    e := Square(b, e, 1143626917, 609030260, 1408766669);
    e := Square(b, e, 1408766669, 924162347, 329716052);
    e := Square(b, e, 329716052, 50623284, 399029956);
    e := Once(b, 1143626917, e, 399029956, 212500523, 249478271);
    e := Square(b, e, 249478271, 28982482, 1556677587);
    e := Square(b, e, 1556677587, 1128411437, 1822871830);
    e := Once(b, 1143626917, e, 1822871830, 970757236, 1512128418);
    e := Square(b, e, 1512128418, 1064749599, 520875171);
    e := Once(b, 1143626917, e, 520875171, 277388312, 2063643943);
    e := Square(b, e, 2063643943, 1983077416, 1885571097);
    e := Once(b, 1143626917, e, 1885571097, 1004147278, 1761855083);
  }

  lemma Base331(b: int) returns (e: nat)
    requires Congruent(b, 1143626917, Prime)
    ensures e == 331 && Raised(b, e, 535044134)
  {
    e := First(b, 1143626917);
    e := Square(b, e, 1143626917, 609030260, 1408766669);
    e := Square(b, e, 1408766669, 924162347, 329716052);
    e := Once(b, 1143626917, e, 329716052, 175587903, 1730649443);
    e := Square(b, e, 1730649443, 1394724238, 1376674263);
    e := Square(b, e, 1376674263, 882536185, 1233326474);
    e := Square(b, e, 1233326474, 708314679, 1386718363);
    e := Once(b, 1143626917, e, 1386718363, 738486855, 1588016686);
    e := Square(b, e, 1588016686, 1174303235, 1232724551);
    e := Square(b, e, 1232724551, 707623464, 1464658393);
    e := Once(b, 1143626917, e, 1464658393, 779993256, 414479749);
    e := Square(b, e, 414479749, 79997564, 1841267093);
    e := Once(b, 1143626917, e, 1841267093, 980553501, 535044134);
  }

  lemma Base49981(b: int) returns (e: nat)
    requires Congruent(b, 535044134, Prime)
    ensures e == 151 && Raised(b, e, 1)
  {
    e := First(b, 535044134);
    e := Square(b, e, 535044134, 133305893, 61578185);
    e := Square(b, e, 61578185, 1765728, 862844209);
    e := Square(b, e, 862844209, 346684888, 1362809145);
    e := Once(b, 535044134, e, 1362809145, 339542999, 987968077);
    e := Square(b, e, 987968077, 454523098, 1032299523);
    e := Square(b, e, 1032299523, 496228367, 1876013080);
    e := Once(b, 535044134, e, 1876013080, 467407421, 677328333);
    e := Square(b, e, 677328333, 213633138, 372264603);
    e := Once(b, 535044134, e, 372264603, 92749480, 563235242);
    e := Square(b, e, 563235242, 147723563, 2011724303);
    e := Once(b, 535044134, e, 2011724303, 501219783, 1);
  }

  lemma NotOne(b: int, e: nat, c: int, u: int, v: int, r: int, s: int)
    requires Raised(b, e, c) && r > 1 && Prime == r * s && (c - 1) * u == v * Prime + 1
    ensures !One(b, e, r)
  {
    if One(b, e, r) {
      LowerModulus(Pow(b, e), c, r, s);
      CongruentFlip(Pow(b, e), c, r);
      CongruentChain(c, Pow(b, e), 1, r);
      DividesTimes(r, c - 1, u);
      DividesTimes(r, Prime, v);
      DividesSum(r, u * (c - 1), v * Prime, -1);
    }
  }

  lemma LowerModulus(x: int, y: int, r: int, s: int)
    requires Congruent(x, y, Prime) && Prime == r * s
    ensures Congruent(x, y, r)
  {
    var k :| x - y == Prime * k;
    assert (r * s) * k == r * (s * k);
  }

  // ---------------------------------------------------------------- the prime

  lemma ExponentsArePrime()
    ensures IsPrime(151) && IsPrime(331)
  {
    SmallPrime(151, 13);
    SmallPrime(331, 19);
  }

  lemma OrderOfProduct(b: int, p: nat, q: nat, r: nat)
    requires IsPrime(p) && IsPrime(q) && r > 1
    requires One(b, p * q, r) && !One(b, p, r) && !One(b, q, r)
    ensures p * q < r
  {
    forall d: nat | 0 < d < p * q ensures !One(b, d, r) {
      FullOrder(b, p, q, d, r);
    }
    OrderBound(b, p * q, r);
  }

  lemma Whole(b: int, q: nat, r: nat, s: nat) returns (p: nat)
    requires Raised(b, q, 535044134) && Prime == r * s
    ensures p == 151 && One(b, q * p, r)
  {
    p := Base49981(Pow(b, q));
    PowProduct(b, q, p);
    LowerModulus(Pow(b, q * p), 1, r, s);
  }

  lemma LargeFactor(b: int, r: nat, s: nat)
    requires Congruent(b, 1143626917, Prime) && r > 1 && Prime == r * s
    ensures r > 49981
  {
    var p := Base151(b);
    var q := Base331(b);
    NotOne(b, p, 1761855083, 1924809196, 1579166793, r, s);
    NotOne(b, q, 535044134, 1648395377, 410696620, r, s);
    var w := Whole(b, q, r, s);
    ExponentsArePrime();
    OrderOfProduct(b, q, p, r);
  }

  lemma PrimeIsPrime()
    ensures IsPrime(Prime)
  {
    forall d: nat, k: nat | Prime == d * k ensures d == 1 || k == 1 {
      if d > 1 && k > 1 {
        assert Congruent(1143626917, 1143626917, Prime) by { assert 0 == Prime * 0; }
        LargeFactor(1143626917, d, k);
        LargeFactor(1143626917, k, d);
        ProductGrows(49982, 49982, d, k);
      }
    }
  }

  /** So it is prime to every smaller positive number. */
  lemma PrimeToSmaller(m: nat)
    requires 0 < m < Prime
    ensures Gcd(m, Prime) == 1
  {
    var g := Gcd(m, Prime);
    GcdDivides(m, Prime);
    var k :| Prime == g * k;
    var l :| m == g * l;
    PositiveMultiple(g, l);
    PrimeIsPrime();
    assert g * 1 == g;
  }

  lemma PrimeTo(m: nat)
    ensures Gcd(m, Prime) == 1 <==> m % Prime != 0
  {
    assert Gcd(m, Prime) == Gcd(Prime, m % Prime);
    if m % Prime == 0 {
      assert Gcd(Prime, 0) == Prime;
    } else {
      GcdSymmetric(Prime, m % Prime);
      PrimeToSmaller(m % Prime);
    }
  }
}
