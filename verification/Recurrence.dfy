/**
  The recurrence behind every address: fold a key into `address * multiplier + token + offset`,
  reduced modulo a fixed modulus after each token.

  What a scheme forgets is decided by the common factor of multiplier and modulus. If there is none,
  a step can be undone and each token decides; if multiplier and modulus agree, only the last token
  does.
 */
module Recurrence {
  import opened NumberTheory

  // Multiplier, offset and modulus of one scheme.
  datatype Scheme = Scheme(multiplier: nat, offset: nat, modulus: nat)

  predicate Proper(s: Scheme) { s.modulus > 0 }

  /** Every step can be undone. */
  predicate Unit(s: Scheme) { Proper(s) && Gcd(s.multiplier, s.modulus) == 1 }

  function Mix(s: Scheme, address: int, token: int): int
    requires Proper(s)
  {
    (address * s.multiplier + token + s.offset) % s.modulus
  }

  function Fold(s: Scheme, start: int, key: seq<int>): int
    requires Proper(s)
  {
    if key == [] then start else Mix(s, Fold(s, start, key[..|key| - 1]), key[|key| - 1])
  }

  lemma FoldSnoc(s: Scheme, start: int, key: seq<int>, token: int)
    requires Proper(s)
    ensures Fold(s, start, key + [token]) == Mix(s, Fold(s, start, key), token)
  {
    assert (key + [token])[..|key|] == key;
  }

  lemma {:induction false} FoldAppend(s: Scheme, start: int, key: seq<int>, more: seq<int>)
    requires Proper(s)
    ensures Fold(s, start, key + more) == Fold(s, Fold(s, start, key), more)
  {
    if more == [] {
      assert key + more == key;
    } else {
      var k := |more| - 1;
      FoldAppend(s, start, key, more[..k]);
      assert key + more == (key + more[..k]) + [more[k]];
      FoldSnoc(s, start, key + more[..k], more[k]);
    }
  }

  /** Equal sums on one side: congruent on the other. */
  lemma MixCongruence(s: Scheme, a: int, b: int, t: int, u: int)
    requires Proper(s)
    ensures Mix(s, a, t) == Mix(s, b, u)
       <==> Congruent(a * s.multiplier + t, b * s.multiplier + u, s.modulus)
  {
    CongruentMod(a * s.multiplier + t + s.offset, b * s.multiplier + u + s.offset, s.modulus);
    var x, y := a * s.multiplier + t, b * s.multiplier + u;
    assert (x + s.offset) - (y + s.offset) == x - y;
  }

  /** From one address, different tokens part unless they are congruent. */
  lemma TokenDecides(s: Scheme, a: int, t: int, u: int)
    requires Proper(s)
    ensures Mix(s, a, t) == Mix(s, a, u) <==> t % s.modulus == u % s.modulus
  {
    MixCongruence(s, a, a, t, u);
    var c := a * s.multiplier;
    assert (c + t) - (c + u) == t - u;
    CongruentMod(t, u, s.modulus);
  }

  /** With one token, different addresses part unless they are congruent. */
  lemma AddressDecides(s: Scheme, a: int, b: int, t: int)
    requires Unit(s)
    ensures Mix(s, a, t) == Mix(s, b, t) <==> a % s.modulus == b % s.modulus
  {
    var m := s.multiplier;
    MixCongruence(s, a, b, t, t);
    assert (a * m + t) - (b * m + t) == m * a - m * b;
    CongruentMod(a, b, s.modulus);
    if Congruent(m * a, m * b, s.modulus) { Cancel(m, a, b, s.modulus); }
    if Congruent(a, b, s.modulus) { CongruentTimes(a, b, m, s.modulus); }
  }

  /** Folding a key keeps addresses apart. */
  lemma {:induction false} FoldKeepsApart(s: Scheme, a: int, b: int, key: seq<int>)
    requires Unit(s)
    ensures Fold(s, a, key) % s.modulus == Fold(s, b, key) % s.modulus
       <==> a % s.modulus == b % s.modulus
  {
    if key != [] {
      var k := |key| - 1;
      FoldKeepsApart(s, a, b, key[..k]);
      var x, y := Fold(s, a, key[..k]), Fold(s, b, key[..k]);
      AddressDecides(s, x, y, key[k]);
      ReducedTwice(s, x, key[k]);
      ReducedTwice(s, y, key[k]);
    }
  }

  lemma ReducedTwice(s: Scheme, a: int, t: int)
    requires Proper(s)
    ensures Mix(s, a, t) % s.modulus == Mix(s, a, t)
  {
    var x := Mix(s, a, t);
    ModUnique(x, 0, x, s.modulus);
  }

  /** One token of a key decides its address, wherever in the key it stands. */
  lemma OneTokenDecides(s: Scheme, start: int, pre: seq<int>, t: int, u: int, post: seq<int>)
    requires Unit(s)
    ensures Fold(s, start, pre + [t] + post) == Fold(s, start, pre + [u] + post)
       <==> t % s.modulus == u % s.modulus
  {
    var a := Fold(s, start, pre);
    FoldAppend(s, start, pre + [t], post);
    FoldAppend(s, start, pre + [u], post);
    FoldSnoc(s, start, pre, t);
    FoldSnoc(s, start, pre, u);
    var x, y := Mix(s, a, t), Mix(s, a, u);
    TokenDecides(s, a, t, u);
    FoldKeepsApart(s, x, y, post);
    ReducedTwice(s, a, t);
    ReducedTwice(s, a, u);
    if post != [] {
      var k := |post| - 1;
      ReducedTwice(s, Fold(s, x, post[..k]), post[k]);
      ReducedTwice(s, Fold(s, y, post[..k]), post[k]);
    }
  }

  /** The address a step came from. */
  lemma Undo(s: Scheme, row: nat, token: int) returns (a: nat)
    requires Unit(s) && row < s.modulus
    ensures a < s.modulus && Mix(s, a, token) == row
  {
    var m, n := s.multiplier, s.modulus;
    var w := row - token - s.offset;
    var u, v := Bezout(m, n);
    a := (u * w) % n;
    ModIsCongruent(u * w, n);
    CongruentTimes(a, u * w, m, n);
    CombineOne(m, u, n, v, w);
    Regroup(m, u, w);
    Regroup(v, n, w);
    assert m * (u * w) - w == n * -(v * w) by { NegatedProduct(n, v * w); }
    CongruentChain(m * a, m * (u * w), w, n);
    UndoneIs(s, a, token, row);
  }

  lemma UndoneIs(s: Scheme, a: int, token: int, row: nat)
    requires Proper(s) && row < s.modulus
    requires Congruent(s.multiplier * a, row - token - s.offset, s.modulus)
    ensures Mix(s, a, token) == row
  {
    var x := a * s.multiplier + token + s.offset;
    assert x - row == s.multiplier * a - (row - token - s.offset);
    CongruentMod(x, row, s.modulus);
    ModUnique(row, 0, row, s.modulus);
  }

  /** Folding any key is onto the addresses below the modulus. */
  lemma {:induction false} FoldIsOnto(s: Scheme, key: seq<int>, row: nat) returns (a: nat)
    requires Unit(s) && row < s.modulus
    ensures a < s.modulus && Fold(s, a, key) == row
  {
    if key == [] {
      a := row;
    } else {
      var k := |key| - 1;
      var before := Undo(s, row, key[k]);
      a := FoldIsOnto(s, key[..k], before);
    }
  }

  /** A token at any place of a key can steer it to any address. */
  lemma TokenReaches(s: Scheme, start: int, pre: seq<int>, post: seq<int>, row: nat)
    returns (t: nat)
    requires Unit(s) && row < s.modulus
    ensures t < s.modulus && Fold(s, start, pre + [t] + post) == row
  {
    var a := Fold(s, start, pre);
    var b := FoldIsOnto(s, post, row);
    var x := b - a * s.multiplier - s.offset;
    t := x % s.modulus;
    ModIsCongruent(x, s.modulus);
    assert (a * s.multiplier + t + s.offset) - b == t - x;
    CongruentMod(a * s.multiplier + t + s.offset, b, s.modulus);
    ModUnique(b, 0, b, s.modulus);
    FoldAppend(s, start, pre + [t], post);
    FoldSnoc(s, start, pre, t);
  }

  lemma MixShifts(s: Scheme, a: int, b: int, t: int, u: int, d: int)
    requires Proper(s) && Congruent(a * s.multiplier + t, b * s.multiplier + u + d, s.modulus)
    ensures Congruent(Mix(s, a, t), Mix(s, b, u) + d, s.modulus)
  {
    var x, y := a * s.multiplier + t + s.offset, b * s.multiplier + u + s.offset;
    assert x - (y + d) == a * s.multiplier + t - (b * s.multiplier + u + d);
    ModIsCongruent(x, s.modulus);
    ModIsCongruent(y, s.modulus);
    CongruentChain(Mix(s, a, t), x, y + d, s.modulus);
    CongruentFlip(Mix(s, b, u), y, s.modulus);
    assert y + d - (Mix(s, b, u) + d) == y - Mix(s, b, u);
    CongruentChain(Mix(s, a, t), y + d, Mix(s, b, u) + d, s.modulus);
  }

  /** Raising the last token but one by one raises the address by the multiplier. */
  lemma EarlierTokenShifts(s: Scheme, start: int, pre: seq<int>, t: int)
    requires Proper(s)
    ensures Congruent(Fold(s, start, pre + [t + 1] + [0]),
                      Fold(s, start, pre + [t] + [0]) + s.multiplier, s.modulus)
  {
    var n, m, a := s.modulus, s.multiplier, Fold(s, start, pre);
    var x, y := Mix(s, a, t + 1), Mix(s, a, t);
    FoldSnoc(s, start, pre, t);
    FoldSnoc(s, start, pre, t + 1);
    FoldSnoc(s, start, pre + [t], 0);
    FoldSnoc(s, start, pre + [t + 1], 0);
    assert a * m + (t + 1) - (a * m + t + 1) == n * 0;
    MixShifts(s, a, a, t + 1, t, 1);
    CongruentTimes(x, y + 1, m, n);
    assert m * x - m * (y + 1) == x * m + 0 - (y * m + 0 + m);
    MixShifts(s, x, y, 0, 0, m);
  }

  /** A modulus that divides the multiplier forgets all but the last token folded. */
  lemma Forgets(s: Scheme, start: int, key: seq<int>)
    requires Proper(s) && Divides(s.modulus, s.multiplier) && key != []
    ensures Fold(s, start, key) == (key[|key| - 1] + s.offset) % s.modulus
  {
    var k := |key| - 1;
    var a := Fold(s, start, key[..k]);
    DividesTimes(s.modulus, s.multiplier, a);
    CongruentMod(a * s.multiplier + key[k] + s.offset, key[k] + s.offset, s.modulus);
  }

  /** So a scheme that forgets tells keys apart by their last token alone. */
  lemma LastTokenDecides(s: Scheme, start: int, pre: seq<int>, t: int, u: int, post: seq<int>)
    requires Proper(s) && s.multiplier % s.modulus == 0
    ensures Fold(s, start, pre + [t] + post) == Fold(s, start, pre + [u] + post)
       <==> t % s.modulus == u % s.modulus || post != []
  {
    assert s.multiplier == s.modulus * (s.multiplier / s.modulus);
    Forgets(s, start, pre + [t] + post);
    Forgets(s, start, pre + [u] + post);
    if post == [] {
      assert Congruent(t, u, s.modulus) <==> Congruent(t + s.offset, u + s.offset, s.modulus) by {
        assert t + s.offset - (u + s.offset) == t - u;
      }
      CongruentMod(t, u, s.modulus);
      CongruentMod(t + s.offset, u + s.offset, s.modulus);
    }
  }

  lemma LastTokenReaches(s: Scheme, start: int, pre: seq<int>, row: nat) returns (t: nat)
    requires Proper(s) && s.multiplier % s.modulus == 0 && row < s.modulus
    ensures Fold(s, start, pre + [t]) == row
  {
    t := (row - s.offset) % s.modulus;
    assert s.multiplier == s.modulus * (s.multiplier / s.modulus);
    Forgets(s, start, pre + [t]);
    ModIsCongruent(row - s.offset, s.modulus);
    assert t + s.offset - row == t - (row - s.offset);
    CongruentMod(t + s.offset, row, s.modulus);
    ModUnique(row, 0, row, s.modulus);
  }

  /** A common factor merges two addresses whatever token follows. */
  lemma CommonFactorMerges(s: Scheme) returns (b: nat)
    requires Proper(s) && Gcd(s.multiplier, s.modulus) > 1
    ensures 0 < b < s.modulus
    ensures forall t :: Mix(s, 0, t) == Mix(s, b, t)
  {
    var m, n := s.multiplier, s.modulus;
    var g := Gcd(m, n);
    GcdDivides(m, n);
    var i :| m == g * i;
    var k :| n == g * k;
    ProductGrows(2, k, g, k);
    b := k;
    assert k * m == n * i by { Regroup(k, g, i); assert (g * k) * i == g * (k * i); }
    forall t ensures Mix(s, 0, t) == Mix(s, b, t) {
      MixCongruence(s, 0, b, t, t);
      assert (0 * m + t) - (b * m + t) == -(n * i);
      NegatedProduct(n, i);
    }
  }

  /** A step is injective on the addresses below the modulus exactly when it can be undone. */
  lemma StepIsInjective(s: Scheme)
    requires Proper(s)
    ensures Unit(s) <==>
            forall a: nat, b: nat, t: nat | a < s.modulus && b < s.modulus ::
              Mix(s, a, t) == Mix(s, b, t) ==> a == b
  {
    if Unit(s) {
      forall a: nat, b: nat, t: nat | a < s.modulus && b < s.modulus && Mix(s, a, t) == Mix(s, b, t)
        ensures a == b
      {
        AddressDecides(s, a, b, t);
        ModUnique(a, 0, a, s.modulus);
        ModUnique(b, 0, b, s.modulus);
      }
    } else {
      var b := CommonFactorMerges(s);
      assert Mix(s, 0, 0) == Mix(s, b, 0);
    }
  }
}
