/** Memory-table addresses of token n-grams and raw bytes: `address_hash.py`. */
module AddressHash {
  import opened Wrappers
  import opened Basics
  import opened NumberTheory
  import opened Mersenne
  import opened Recurrence

  const LegacyBase: nat := 257
  const MixModulus: nat := Prime
  const MixMultiplier: nat := 1103515245

  datatype Failure = BadTableSize | BadHead

  function TokenMultiplier(head: nat): nat { LegacyBase + 2 * head }

  predicate TokenUsesLegacy(n: nat, head: nat) { Gcd(TokenMultiplier(head), n) == 1 }

  function Legacy(n: nat, head: nat): Scheme { Recurrence.Scheme(TokenMultiplier(head), 0, n) }

  function Mixed(head: nat): Scheme { Recurrence.Scheme(MixMultiplier + 2 * head, 1, MixModulus) }

  function TokenScheme(n: nat, head: nat): Scheme {
    if TokenUsesLegacy(n, head) then Legacy(n, head) else Mixed(head)
  }

  function Start(head: nat): nat { head + 1 }

  function Running(key: seq<int>, n: nat, head: nat): int
    requires n > 0
  {
    Fold(TokenScheme(n, head), Start(head), key)
  }

  function Finish(address: int, n: nat, head: nat): int
    requires n > 0
  {
    if TokenUsesLegacy(n, head) then address else address % n
  }

  function TokenRow(key: seq<int>, n: nat, head: nat): int
    requires n > 0
  {
    Finish(Running(key, n, head), n, head)
  }

  method TokenNgramAddress(key: seq<int>, tableSize: int, head: int) returns (r: Result<int, Failure>)
    ensures head < 0 ==> r == Err(BadHead)
    ensures head >= 0 && tableSize <= 0 ==> r == Err(BadTableSize)
    ensures head >= 0 && tableSize > 0 ==> r == Ok(TokenRow(key, tableSize, head))
  {
    if head < 0 { return Err(BadHead); }
    var address := head + 1;
    // The table size is looked at by the first step, or at the latest by the reduction.
    if tableSize <= 0 { return Err(BadTableSize); }
    for i := 0 to |key|
      invariant address == Running(key[..i], tableSize, head)
    {
      FoldSnoc(TokenScheme(tableSize, head), Start(head), key[..i], key[i]);
      assert key[..i + 1] == key[..i] + [key[i]];
      if Gcd(LegacyBase + 2 * head, tableSize) == 1 {
        address := (address * (LegacyBase + 2 * head) + key[i]) % tableSize;
      } else {
        address := (address * (MixMultiplier + 2 * head) + key[i] + 1) % MixModulus;
      }
    }
    assert key[..|key|] == key;
    if Gcd(LegacyBase + 2 * head, tableSize) != 1 { address := address % tableSize; }
    r := Ok(address);
  }

  // ---------------------------------------------------------------- the legacy scheme

  /** The guard admits v1 exactly where its step loses nothing. */
  lemma LegacyIsAHashExactlyWhereUsed(n: nat, head: nat)
    requires n > 0
    ensures TokenUsesLegacy(n, head) <==>
            forall a: nat, b: nat, t: nat | a < n && b < n ::
              Mix(Legacy(n, head), a, t) == Mix(Legacy(n, head), b, t) ==> a == b
  {
    StepIsInjective(Legacy(n, head));
  }

  /** Where v1 is used, keys that differ in one token share a row only if the tokens do. */
  lemma LegacyKeysCollide(n: nat, head: nat, pre: seq<int>, t: int, u: int, post: seq<int>)
    requires n > 0 && TokenUsesLegacy(n, head)
    ensures TokenRow(pre + [t] + post, n, head) == TokenRow(pre + [u] + post, n, head)
       <==> t % n == u % n
  {
    OneTokenDecides(Legacy(n, head), Start(head), pre, t, u, post);
  }

  /** Where v1 is used, folding a key permutes the rows. */
  lemma LegacyFoldIsBijective(n: nat, head: nat, key: seq<int>, row: nat) returns (a: nat)
    requires n > 0 && TokenUsesLegacy(n, head) && row < n
    ensures a < n && Fold(Legacy(n, head), a, key) == row
    ensures forall b: nat | b < n && Fold(Legacy(n, head), b, key) == row :: b == a
  {
    var s := Legacy(n, head);
    a := FoldIsOnto(s, key, row);
    forall b: nat | b < n && Fold(s, b, key) == row ensures b == a {
      FoldKeepsApart(s, a, b, key);
      ModUnique(a, 0, a, n);
      ModUnique(b, 0, b, n);
    }
  }

  /** Where the table size divides the multiplier, v1 would read the oldest token alone. */
  lemma LegacyWouldReadOneToken(n: nat, head: nat, key: seq<int>)
    requires n > 0 && Divides(n, TokenMultiplier(head)) && key != []
    ensures Fold(Legacy(n, head), Start(head), key) == key[|key| - 1] % n
  {
    Forgets(Legacy(n, head), Start(head), key);
  }

  // ---------------------------------------------------------------- the mixed scheme

  /** The multiplier is prime to the modulus unless the modulus divides it. */
  lemma MixedStepLosesNothing(head: nat)
    ensures Unit(Mixed(head)) <==> (MixMultiplier + 2 * head) % MixModulus != 0
  {
    PrimeTo(MixMultiplier + 2 * head);
  }

  /** Every head below 521984201 mixes. */
  lemma SmallHeadsMix(head: nat)
    requires head < 521984201
    ensures Unit(Mixed(head))
  {
    PrimeToSmaller(MixMultiplier + 2 * head);
  }

  /** And 521984201 itself does not: its running address is the last token folded, plus one. */
  lemma FirstHeadThatForgets(key: seq<int>)
    requires key != []
    ensures Fold(Mixed(521984201), Start(521984201), key) == (key[|key| - 1] + 1) % MixModulus
  {
    assert MixModulus * 1 == MixMultiplier + 2 * 521984201;
    Forgets(Mixed(521984201), Start(521984201), key);
  }

  /**
    Before the reduction, keys that differ in one token collide only if the tokens do, or if the
    head forgets and a later token follows.
   */
  lemma MixedKeysCollide(n: nat, head: nat, pre: seq<int>, t: int, u: int, post: seq<int>)
    requires n > 0 && !TokenUsesLegacy(n, head)
    ensures Running(pre + [t] + post, n, head) == Running(pre + [u] + post, n, head)
       <==> t % MixModulus == u % MixModulus
            || ((MixMultiplier + 2 * head) % MixModulus == 0 && post != [])
  {
    MixedStepLosesNothing(head);
    if Unit(Mixed(head)) {
      OneTokenDecides(Mixed(head), Start(head), pre, t, u, post);
    } else {
      LastTokenDecides(Mixed(head), Start(head), pre, t, u, post);
    }
  }

  /** The rows that a token with `post` after it can steer a key to. */
  predicate Steers(n: nat, head: nat, post: seq<int>, row: nat)
    requires n > 0
  {
    || TokenUsesLegacy(n, head)
    || (if (MixMultiplier + 2 * head) % MixModulus == 0 && post != []
        then row == (post[|post| - 1] + 1) % MixModulus % n
        else row < MixModulus)
  }

  lemma Steer(n: nat, head: nat, pre: seq<int>, post: seq<int>, row: nat) returns (t: nat)
    requires row < n && Steers(n, head, post, row)
    ensures TokenRow(pre + [t] + post, n, head) == row
  {
    var s := TokenScheme(n, head);
    MixedStepLosesNothing(head);
    if Unit(s) {
      t := TokenReaches(s, Start(head), pre, post, row);
    } else if post == [] {
      t := LastTokenReaches(s, Start(head), pre, row);
      assert pre + [t] + post == pre + [t];
    } else {
      t := 0;
      LastTokenRow(n, head, pre + [t] + post);
    }
    ModUnique(row, 0, row, n);
  }

  /** A head that forgets reads the last token alone. */
  lemma LastTokenRow(n: nat, head: nat, key: seq<int>)
    requires n > 0 && !TokenUsesLegacy(n, head) && key != []
    requires (MixMultiplier + 2 * head) % MixModulus == 0
    ensures TokenRow(key, n, head) == (key[|key| - 1] + 1) % MixModulus % n
  {
    assert MixMultiplier + 2 * head == MixModulus * ((MixMultiplier + 2 * head) / MixModulus);
    Forgets(Mixed(head), Start(head), key);
  }

  /**
    A token at any place of a key can steer it to every row: under v1 always, under v2 to the rows
    below the modulus, unless the head forgets and a later token fixes the row.
   */
  lemma PlaceReachesExactly(n: nat, head: nat, pre: seq<int>, post: seq<int>, row: nat)
    requires row < n
    ensures (exists t: nat :: TokenRow(pre + [t] + post, n, head) == row)
       <==> Steers(n, head, post, row)
  {
    if Steers(n, head, post, row) {
      var t := Steer(n, head, pre, post, row);
    } else {
      forall t: nat ensures TokenRow(pre + [t] + post, n, head) != row {
        var key := pre + [t] + post;
        var address := Running(key, n, head);
        ModUnique(address, 0, address, MixModulus);
        if post != [] && (MixMultiplier + 2 * head) % MixModulus == 0 {
          LastTokenRow(n, head, key);
          assert key[|key| - 1] == post[|post| - 1];
        }
      }
    }
  }

  // ---------------------------------------------------------------- rows

  /** Rows lie in the table, but for an empty key under v1. */
  lemma RowInTable(key: seq<int>, n: nat, head: nat)
    requires n > 0
    ensures 0 <= TokenRow(key, n, head) < n
       <==> key != [] || !TokenUsesLegacy(n, head) || head + 1 < n
  {
  }

  /** A one-row table: its only v1 row is 0, the empty key gets 1. */
  lemma EmptyKeyLeavesTheTable()
    ensures TokenRow([], 1, 0) == 1
  {
    assert Gcd(257, 1) == Gcd(1, 0) == 1;
  }

  // ---------------------------------------------------------------- the mixed byte address

  function ByteMix(): Scheme { Mixed(0) }

  /** The address of a byte string before it is reduced to a row. */
  function MixedBytes(value: seq<Byte>): int { Fold(ByteMix(), 1, value) * MixMultiplier % MixModulus }

  method MixedByteAddress(value: seq<Byte>, tableSize: int) returns (r: Result<int, Failure>)
    ensures tableSize <= 0 ==> r == Err(BadTableSize)
    ensures tableSize > 0 ==> r == Ok(MixedBytes(value) % tableSize)
  {
    if tableSize <= 0 { return Err(BadTableSize); }
    var address := 1;
    for i := 0 to |value|
      invariant address == Fold(ByteMix(), 1, value[..i])
    {
      FoldSnoc(ByteMix(), 1, value[..i], value[i]);
      assert value[..i + 1] == value[..i] + [value[i]];
      address := (address * MixMultiplier + value[i] + 1) % MixModulus;
    }
    assert value[..|value|] == value;
    address := (address * MixMultiplier) % MixModulus;
    r := Ok(address % tableSize);
  }

  /** The terminal step keeps addresses apart. */
  lemma TerminalStep(x: int, y: int, m: nat, n: nat)
    requires n > 0 && Gcd(m, n) == 1
    ensures x * m % n == y * m % n <==> x % n == y % n
  {
    CongruentMod(x * m, y * m, n);
    CongruentMod(x, y, n);
    if Congruent(x, y, n) { CongruentTimes(x, y, m, n); }
    if Congruent(x * m, y * m, n) { Cancel(m, x, y, n); }
  }

  lemma RunningBytesDiffer(pre: seq<int>, b: Byte, c: Byte, post: seq<int>)
    requires b != c
    ensures Fold(ByteMix(), 1, pre + [b] + post) != Fold(ByteMix(), 1, pre + [c] + post)
  {
    SmallHeadsMix(0);
    OneTokenDecides(ByteMix(), 1, pre, b, c, post);
  }

  /** Strings that differ in one byte never share a mixed address before the reduction. */
  lemma MixedBytesDiffer(pre: seq<Byte>, b: Byte, c: Byte, post: seq<Byte>)
    requires b != c
    ensures MixedBytes(pre + [b] + post) != MixedBytes(pre + [c] + post)
  {
    var s := ByteMix();
    RunningBytesDiffer(pre, b, c, post);
    TerminalDiffers(Fold(s, 1, pre + [b] + post), Fold(s, 1, pre + [c] + post));
  }

  lemma TerminalDiffers(x: nat, y: nat)
    requires x < MixModulus && y < MixModulus && x != y
    ensures x * MixMultiplier % MixModulus != y * MixMultiplier % MixModulus
  {
    PrimeToSmaller(MixMultiplier);
    TerminalStep(x, y, MixMultiplier, MixModulus);
    SmallRemainder(x, MixModulus);
    SmallRemainder(y, MixModulus);
  }
}
