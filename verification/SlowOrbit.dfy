/**
  Iteration of `x := max(0, offset + weight(x))` for weights that grow no faster than a few
  decimal digits and one bounded jump, as the lengths of self-describing records do.

  Such a step keeps order, so the orbit moves in one direction; numerals on it soon differ by one
  digit at most, so only three shapes are left, and two neighbours of the same shape are followed by
  a fixed point.
 */
module SlowOrbit {
  import opened Decimal

  // `over` marks the numbers past a threshold: the one jump that is not about digits.
  ghost predicate Tame(weight: nat -> int, over: nat -> bool) {
    forall x: nat, y: nat | x <= y :: TamePair(weight, over, x, y)
  }

  ghost predicate TamePair(weight: nat -> int, over: nat -> bool, x: nat, y: nat) {
    && (over(x) ==> over(y))
    && 0 <= weight(y) - weight(x) <= 4 * (Digits(y) - Digits(x)) + 66
    && (SameShape(over, x, y) ==> weight(x) == weight(y))
  }

  predicate SameShape(over: nat -> bool, x: nat, y: nat) {
    Digits(x) == Digits(y) && over(x) == over(y)
  }

  function Next(weight: nat -> int, offset: int, x: nat): nat {
    if offset + weight(x) >= 0 then offset + weight(x) else 0
  }

  function Orbit(weight: nat -> int, offset: int, first: nat, k: nat): nat {
    if k == 0 then first else Next(weight, offset, Orbit(weight, offset, first, k - 1))
  }

  // Tame steps keep order, and move by no more than the digits and one jump.
  lemma NextBounds(weight: nat -> int, over: nat -> bool, offset: int, x: nat, y: nat)
    requires Tame(weight, over) && x <= y
    ensures Digits(x) <= Digits(y) && (over(x) ==> over(y))
    ensures 0 <= Next(weight, offset, y) - Next(weight, offset, x)
              <= 4 * (Digits(y) - Digits(x)) + 66
    ensures SameShape(over, x, y) ==> Next(weight, offset, x) == Next(weight, offset, y)
  {
    DigitsMonotone(x, y);
    assert TamePair(weight, over, x, y);
  }

  /** The orbit moves in one direction only. */
  lemma {:induction false} OneDirection(weight: nat -> int, over: nat -> bool, offset: int,
                                        first: nat, j: nat, k: nat)
    requires Tame(weight, over) && j <= k
    ensures first <= Orbit(weight, offset, first, 1) ==>
        Orbit(weight, offset, first, j) <= Orbit(weight, offset, first, k)
    ensures first >= Orbit(weight, offset, first, 1) ==>
        Orbit(weight, offset, first, j) >= Orbit(weight, offset, first, k)
    decreases k
  {
    if j < k {
      OneDirection(weight, over, offset, first, j, k - 1);
      if k >= 2 {
        OneDirection(weight, over, offset, first, k - 2, k - 1);
        var x, y := Orbit(weight, offset, first, k - 2), Orbit(weight, offset, first, k - 1);
        if x <= y { NextBounds(weight, over, offset, x, y); }
        else { NextBounds(weight, over, offset, y, x); }
      }
    }
  }

  ghost predicate Rises(weight: nat -> int, offset: int, first: nat) {
    forall j: nat, k: nat | j <= k :: Orbit(weight, offset, first, j) <= Orbit(weight, offset, first, k)
  }

  ghost predicate Falls(weight: nat -> int, offset: int, first: nat) {
    forall j: nat, k: nat | j <= k :: Orbit(weight, offset, first, j) >= Orbit(weight, offset, first, k)
  }

  lemma RisesOrFalls(weight: nat -> int, over: nat -> bool, offset: int, first: nat)
    requires Tame(weight, over)
    ensures Rises(weight, offset, first) || Falls(weight, offset, first)
  {
    forall j: nat, k: nat | j <= k
      ensures first <= Orbit(weight, offset, first, 1) ==>
          Orbit(weight, offset, first, j) <= Orbit(weight, offset, first, k)
      ensures first >= Orbit(weight, offset, first, 1) ==>
          Orbit(weight, offset, first, j) >= Orbit(weight, offset, first, k)
    {
      OneDirection(weight, over, offset, first, j, k);
    }
  }

  // Two rounds in a row of the same shape are followed by a fixed point, for good.
  lemma {:induction false} ShapeSettles(weight: nat -> int, over: nat -> bool, offset: int,
                                        first: nat, k: nat, m: nat)
    requires Tame(weight, over) && k + 1 <= m
    requires SameShape(over, Orbit(weight, offset, first, k), Orbit(weight, offset, first, k + 1))
    ensures Orbit(weight, offset, first, m) == Orbit(weight, offset, first, k + 1)
    decreases m
  {
    if m > k + 1 {
      ShapeSettles(weight, over, offset, first, k, m - 1);
      var x, y := Orbit(weight, offset, first, k), Orbit(weight, offset, first, k + 1);
      if x <= y { NextBounds(weight, over, offset, x, y); }
      else { NextBounds(weight, over, offset, y, x); }
    }
  }

  // Of four rounds in a row that take at most three shapes, two neighbours share one.
  lemma Settle(weight: nat -> int, over: nat -> bool, offset: int, first: nat, k: nat)
    requires Tame(weight, over) && k <= 2
    requires var x := (j: nat) => Orbit(weight, offset, first, j);
      || SameShape(over, x(k), x(k + 1)) || SameShape(over, x(k + 1), x(k + 2))
      || SameShape(over, x(k + 2), x(k + 3))
    ensures Orbit(weight, offset, first, 6) == Orbit(weight, offset, first, 5)
  {
    var x := (j: nat) => Orbit(weight, offset, first, j);
    var s := if SameShape(over, x(k), x(k + 1)) then k
             else if SameShape(over, x(k + 1), x(k + 2)) then k + 1 else k + 2;
    ShapeSettles(weight, over, offset, first, s, 5);
    ShapeSettles(weight, over, offset, first, s, 6);
  }

  // A rising orbit: from the second iterate on, numerals differ by one digit at most.
  lemma {:induction false} RisingDigits(weight: nat -> int, over: nat -> bool, offset: int,
                                        first: nat, k: nat)
    requires Tame(weight, over) && first <= Orbit(weight, offset, first, 1) && k >= 2
    ensures Digits(Orbit(weight, offset, first, 2)) <= Digits(Orbit(weight, offset, first, k))
              <= Digits(Orbit(weight, offset, first, 2)) + 1
  {
    var x1, x2 := Orbit(weight, offset, first, 1), Orbit(weight, offset, first, 2);
    var xk := Orbit(weight, offset, first, k);
    OneDirection(weight, over, offset, first, 2, k);
    DigitsMonotone(x2, xk);
    if k > 2 {
      RisingDigits(weight, over, offset, first, k - 1);
      OneDirection(weight, over, offset, first, 1, k - 1);
      NextBounds(weight, over, offset, x1, Orbit(weight, offset, first, k - 1));
      NextBounds(weight, over, offset, first, x1);
      if Digits(x2) >= Digits(x1) + 2 { DigitsGap(x1, x2); }
      if Digits(xk) >= Digits(x2) + 2 { DigitsGap(x2, xk); }
    }
  }

  // A falling orbit that starts with a small drop: numerals differ by one digit at most.
  lemma {:induction false} FallingDigits(weight: nat -> int, over: nat -> bool, offset: int,
                                         first: nat, k: nat)
    requires Tame(weight, over) && k >= 1
    requires Orbit(weight, offset, first, 1) <= first <= Orbit(weight, offset, first, 1) + 24
    ensures Digits(Orbit(weight, offset, first, k)) <= Digits(Orbit(weight, offset, first, 1))
              <= Digits(Orbit(weight, offset, first, k)) + 1
  {
    var x1, xk := Orbit(weight, offset, first, 1), Orbit(weight, offset, first, k);
    OneDirection(weight, over, offset, first, 1, k);
    DigitsMonotone(xk, x1);
    if k > 1 {
      FallingDigits(weight, over, offset, first, k - 1);
      OneDirection(weight, over, offset, first, 0, k - 1);
      NextBounds(weight, over, offset, Orbit(weight, offset, first, k - 1), first);
      if Digits(first) >= Digits(x1) + 2 { DigitsGap(x1, first); }
      if Digits(x1) >= Digits(xk) + 2 { DigitsGap(xk, x1); }
    }
  }

  /** An orbit whose first step does not drop by more than 24 is at its fixed point after five. */
  lemma Converges(weight: nat -> int, over: nat -> bool, offset: int, first: nat)
    requires Tame(weight, over) && first <= Orbit(weight, offset, first, 1) + 24
    ensures Orbit(weight, offset, first, 6) == Orbit(weight, offset, first, 5)
  {
    if first <= Orbit(weight, offset, first, 1) {
      RisingShapes(weight, over, offset, first);
      Settle(weight, over, offset, first, 2);
    } else {
      FallingShapes(weight, over, offset, first);
      Settle(weight, over, offset, first, 1);
    }
  }

  lemma RisingShapes(weight: nat -> int, over: nat -> bool, offset: int, first: nat)
    requires Tame(weight, over) && first <= Orbit(weight, offset, first, 1)
    ensures var x := (j: nat) => Orbit(weight, offset, first, j);
      SameShape(over, x(2), x(3)) || SameShape(over, x(3), x(4)) || SameShape(over, x(4), x(5))
  {
    forall k | 2 <= k <= 5
      ensures Digits(Orbit(weight, offset, first, k)) <= Digits(Orbit(weight, offset, first, 2)) + 1
      ensures Digits(Orbit(weight, offset, first, k - 1)) <= Digits(Orbit(weight, offset, first, k))
      ensures over(Orbit(weight, offset, first, k - 1)) ==> over(Orbit(weight, offset, first, k))
    {
      RisingDigits(weight, over, offset, first, k);
      OneDirection(weight, over, offset, first, k - 1, k);
      NextBounds(weight, over, offset, Orbit(weight, offset, first, k - 1),
                 Orbit(weight, offset, first, k));
    }
  }

  lemma FallingShapes(weight: nat -> int, over: nat -> bool, offset: int, first: nat)
    requires Tame(weight, over)
    requires Orbit(weight, offset, first, 1) <= first <= Orbit(weight, offset, first, 1) + 24
    ensures var x := (j: nat) => Orbit(weight, offset, first, j);
      SameShape(over, x(1), x(2)) || SameShape(over, x(2), x(3)) || SameShape(over, x(3), x(4))
  {
    forall k | 1 <= k <= 4
      ensures Digits(Orbit(weight, offset, first, 1)) <= Digits(Orbit(weight, offset, first, k)) + 1
      ensures Digits(Orbit(weight, offset, first, k)) <= Digits(Orbit(weight, offset, first, k - 1))
      ensures over(Orbit(weight, offset, first, k)) ==> over(Orbit(weight, offset, first, k - 1))
    {
      FallingDigits(weight, over, offset, first, k);
      OneDirection(weight, over, offset, first, k - 1, k);
      NextBounds(weight, over, offset, Orbit(weight, offset, first, k),
                 Orbit(weight, offset, first, k - 1));
    }
  }
}
