/** How wide the arithmetic of `address_hash.py` gets: exactly when every sum stays below 2**62. */
module AddressWidth {
  import opened Basics
  import opened NumberTheory
  import opened Mersenne
  import opened Recurrence
  import opened AddressHash

  const Bound62: nat := 0x4000_0000_0000_0000
  const TokenBound: nat := 0x8000_0000

  predicate Below31(key: seq<int>) { forall i :: 0 <= i < |key| ==> 0 <= key[i] < TokenBound }

  /** The sum that step `i` of the fold reduces. */
  function Intermediate(s: Scheme, start: int, key: seq<int>, i: nat): int
    requires Proper(s) && i < |key|
  {
    Fold(s, start, key[..i]) * s.multiplier + key[i] + s.offset
  }

  /** Every sum on the way to the address of every key of tokens below 2**31. */
  ghost predicate StaysBelow62(s: Scheme, start: int)
    requires Proper(s)
  {
    forall key: seq<nat>, i: nat | Below31(key) && i < |key| :: Intermediate(s, start, key, i) < Bound62
  }

  /** The largest address times the multiplier leaves room for a token and the offset. */
  predicate Narrow(s: Scheme, start: nat) {
    0 < s.modulus
    && Max(start, s.modulus - 1) * s.multiplier + (TokenBound - 1) + s.offset < Bound62
  }

  // ---------------------------------------------------------------- narrow schemes stay below

  lemma FoldRange(s: Scheme, start: nat, key: seq<int>)
    requires Proper(s)
    ensures 0 <= Fold(s, start, key) <= Max(start, s.modulus - 1)
  {
  }

  lemma IntermediateRange(s: Scheme, start: nat, key: seq<int>, i: nat)
    requires Proper(s) && Below31(key) && i < |key|
    ensures 0 <= Intermediate(s, start, key, i)
              <= Max(start, s.modulus - 1) * s.multiplier + (TokenBound - 1) + s.offset
  {
    FoldRange(s, start, key[..i]);
    ProductGrows(Fold(s, start, key[..i]), s.multiplier, Max(start, s.modulus - 1), s.multiplier);
    Product(Fold(s, start, key[..i]), s.multiplier);
  }

  function Wrap(x: int): int {
    (x + 0x8000_0000_0000_0000) % 0x1_0000_0000_0000_0000 - 0x8000_0000_0000_0000
  }

  // A step whose product and sums wrap as 64-bit integers do.
  function WrappedMix(s: Scheme, address: int, token: int): int
    requires Proper(s)
  {
    Wrap(Wrap(Wrap(address * s.multiplier) + token) + s.offset) % s.modulus
  }

  function WrappedFold(s: Scheme, start: int, key: seq<int>): int
    requires Proper(s)
  {
    if key == [] then start
    else WrappedMix(s, WrappedFold(s, start, key[..|key| - 1]), key[|key| - 1])
  }

  lemma WrapSmall(x: nat)
    requires x < Bound62
    ensures Wrap(x) == x
  {
  }

  lemma StepUnwrapped(s: Scheme, a: nat, t: nat)
    requires Proper(s) && a * s.multiplier + t + s.offset < Bound62
    ensures WrappedMix(s, a, t) == Mix(s, a, t)
  {
    var m := a * s.multiplier;
    Product(a, s.multiplier);
    WrapSmall(m);
    WrapSmall(m + t);
    WrapSmall(m + t + s.offset);
  }

  /** Wrapping arithmetic computes the address of a narrow scheme. */
  lemma {:induction false} WrappingChangesNothing(s: Scheme, start: nat, key: seq<int>)
    requires Narrow(s, start) && Below31(key)
    ensures WrappedFold(s, start, key) == Fold(s, start, key)
  {
    if key != [] {
      var k := |key| - 1;
      WrappingChangesNothing(s, start, key[..k]);
      IntermediateRange(s, start, key, k);
      FoldRange(s, start, key[..k]);
      StepUnwrapped(s, Fold(s, start, key[..k]), key[k]);
    }
  }

  // ---------------------------------------------------------------- wide ones do not

  // One token steers an address as far up as tokens go.
  lemma OneTokenReachesHigh(s: Scheme, start: nat) returns (t: nat)
    requires Proper(s)
    ensures t < TokenBound && Fold(s, start, [t]) >= Min(s.modulus, TokenBound) - 1
  {
    var n, c := s.modulus, start * s.multiplier + s.offset;
    var r := c % n;
    t := if r + TokenBound - 1 < n then TokenBound - 1 else Max(0, n - 1 - r);
    FoldSnoc(s, start, [], t);
    assert [] + [t] == [t];
    ModUnique(start * s.multiplier + t + s.offset, c / n, r + t, n);
  }

  function Scaled(a: nat, m: nat, k: nat): nat { if k == 0 then a else Scaled(a, m, k - 1) * m }

  lemma QuotientBetween(x: nat, m: nat, lo: nat, hi: nat)
    requires m > 0 && lo * m <= x < hi * m
    ensures lo <= x / m < hi && x / m * m + x % m == x
  {
    var q := x / m;
    if q < lo { ProductGrows(q + 1, m, lo, m); }
    if q >= hi { ProductGrows(hi, m, q, m); }
  }

  /** A key spells out an address in digits of the multiplier. */
  lemma {:induction false} DigitsReach(s: Scheme, start: nat, k: nat, x: nat) returns (key: seq<nat>)
    requires Proper(s) && s.offset == 0 && 0 < s.multiplier <= TokenBound
    requires Scaled(start, s.multiplier, k) <= x < Scaled(start + 1, s.multiplier, k)
    ensures |key| == k && Below31(key) && Congruent(Fold(s, start, key), x, s.modulus)
  {
    var m, n := s.multiplier, s.modulus;
    if k == 0 {
      key := [];
      assert start - x == n * 0;
    } else {
      QuotientBetween(x, m, Scaled(start, m, k - 1), Scaled(start + 1, m, k - 1));
      var pre := DigitsReach(s, start, k - 1, x / m);
      var a, t := Fold(s, start, pre), x % m;
      key := pre + [t];
      FoldSnoc(s, start, pre, t);
      CongruentTimes(a, x / m, m, n);
      assert m * a - m * (x / m) == a * m + t + 0 - x;
      ModIsCongruent(a * m + t + 0, n);
      CongruentChain(Fold(s, start, key), a * m + t + 0, x, n);
    }
  }

  lemma {:induction false} ScaledSpreads(a: nat, m: nat, k: nat)
    requires m >= 2
    ensures Scaled(a + 1, m, k) - Scaled(a, m, k) > k
  {
    if k > 0 {
      ScaledSpreads(a, m, k - 1);
      var d := Scaled(a + 1, m, k - 1) - Scaled(a, m, k - 1);
      ProductGrows(d, 2, d, m);
      assert Scaled(a + 1, m, k) - Scaled(a, m, k) == d * m;
    }
  }

  lemma SameBelow(x: nat, y: nat, n: nat)
    requires x < n && y < n && Congruent(x, y, n)
    ensures x == y
  {
    CongruentMod(x, y, n);
    SmallRemainder(x, n);
    SmallRemainder(y, n);
  }

  /** So with a multiplier no larger than the tokens go, the last row is reached. */
  lemma LastRowReached(s: Scheme, start: nat) returns (key: seq<nat>)
    requires Proper(s) && s.offset == 0 && 2 <= s.multiplier <= TokenBound
    ensures Below31(key) && Fold(s, start, key) == s.modulus - 1
  {
    var n := s.modulus;
    var lo: int := Scaled(start, s.multiplier, n);
    var d := (n - 1 - lo) % n;
    ScaledSpreads(start, s.multiplier, n);
    key := DigitsReach(s, start, n, lo + d);
    var last := Fold(s, start, key);
    ModIsCongruent(n - 1 - lo, n);
    assert d - (n - 1 - lo) == lo + d - (n - 1);
    CongruentChain(last, lo + d, n - 1, n);
    SameBelow(last, n - 1, n);
  }

  /** A key that comes to `address` and then meets the largest token. */
  lemma Overflows(s: Scheme, start: nat, key: seq<nat>, address: nat)
    requires Proper(s) && Below31(key) && address <= Fold(s, start, key)
    requires address * s.multiplier + (TokenBound - 1) + s.offset >= Bound62
    ensures !StaysBelow62(s, start)
  {
    var long: seq<nat> := key + [TokenBound - 1];
    assert long[..|key|] == key;
    ProductGrows(address, s.multiplier, Fold(s, start, key), s.multiplier);
    assert Intermediate(s, start, long, |key|) >= Bound62;
  }

  lemma WideOverflows(s: Scheme, start: nat)
    requires Proper(s) && !Narrow(s, start)
    requires s.multiplier >= 2 && (s.offset == 0 || s.modulus <= TokenBound)
    ensures !StaysBelow62(s, start)
  {
    if start * s.multiplier + (TokenBound - 1) + s.offset >= Bound62 {
      Overflows(s, start, [], start);
    } else if s.modulus <= TokenBound {
      var t := OneTokenReachesHigh(s, start);
      Overflows(s, start, [t], s.modulus - 1);
    } else if s.multiplier <= TokenBound {
      var key := LastRowReached(s, start);
      Overflows(s, start, key, s.modulus - 1);
    } else {
      var t := OneTokenReachesHigh(s, start);
      ProductGrows(TokenBound - 1, TokenBound + 1, TokenBound - 1, s.multiplier);
      Overflows(s, start, [t], TokenBound - 1);
    }
  }

  // ---------------------------------------------------------------- the two schemes

  /** No sum of any key exceeds 62 bits exactly if the largest address and token do not make it. */
  lemma SixtyTwoBitsExactly(n: nat, head: nat)
    requires n > 0
    ensures StaysBelow62(TokenScheme(n, head), Start(head)) <==> Narrow(TokenScheme(n, head), Start(head))
  {
    var s := TokenScheme(n, head);
    if Narrow(s, Start(head)) {
      forall key: seq<nat>, i: nat | Below31(key) && i < |key|
        ensures Intermediate(s, Start(head), key, i) < Bound62
      {
        IntermediateRange(s, Start(head), key, i);
      }
    } else {
      WideOverflows(s, Start(head));
    }
  }

  /** For v2 these are the heads up to 521984202. */
  lemma MixedIsNarrowExactly(head: nat)
    ensures Narrow(Mixed(head), Start(head)) <==> head <= 521984202
  {
    var m := MixMultiplier + 2 * head;
    if head <= 521984202 {
      ProductGrows(Max(Start(head), Prime - 1), m, Prime - 1, 2147483649);
    } else {
      ProductGrows(Prime - 1, 2147483651, Max(Start(head), Prime - 1), m);
    }
  }

  /** So with at most 2**31 rows, whatever the scheme, those heads stay below 62 bits. */
  lemma SmallTablesStayBelow(n: nat, head: nat)
    requires 0 < n <= TokenBound && head <= 521984202
    ensures StaysBelow62(TokenScheme(n, head), Start(head))
  {
    SixtyTwoBitsExactly(n, head);
    MixedIsNarrowExactly(head);
    ProductGrows(Max(Start(head), n - 1), TokenMultiplier(head), TokenBound - 1, TokenBound);
  }

  /** Where the sums stay below 62 bits, wrapping 64-bit arithmetic computes the same address. */
  lemma SixtyFourBitsSuffice(key: seq<nat>, n: nat, head: nat)
    requires n > 0 && StaysBelow62(TokenScheme(n, head), Start(head)) && Below31(key)
    ensures WrappedFold(TokenScheme(n, head), Start(head), key) == Running(key, n, head)
  {
    SixtyTwoBitsExactly(n, head);
    WrappingChangesNothing(TokenScheme(n, head), Start(head), key);
  }
}
