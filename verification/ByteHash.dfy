/** Raw-byte table addresses: `hash_bytes` and `table_address` of `data/byte_hash.py`. */
module ByteHash {
  import opened Wrappers
  import opened Basics
  import opened NumberTheory
  import opened Recurrence
  import opened AddressHash

  const Base: nat := 257

  function Horner(value: seq<Byte>): nat {
    if value == [] then 0
    else Horner(value[..|value| - 1]) * Base + value[|value| - 1] + 1
  }

  function HashBytes(value: seq<Byte>): nat { Horner(value) * Base }

  predicate ByteUsesLegacy(n: nat) { Gcd(LegacyBase, n) == 1 }

  function TableRow(value: seq<Byte>, n: nat): int
    requires n > 0
  {
    if ByteUsesLegacy(n) then HashBytes(value) % n else MixedBytes(value) % n
  }

  method ComputeHash(value: seq<Byte>) returns (result: nat)
    ensures result == HashBytes(value)
  {
    result := 0;
    for i := 0 to |value|
      invariant result == Horner(value[..i])
    {
      assert value[..i + 1][..i] == value[..i];
      result := result * Base + value[i] + 1;
    }
    assert value[..|value|] == value;
    result := result * Base;
  }

  method TableAddress(value: seq<Byte>, tableSize: int) returns (r: Result<int, Failure>)
    ensures tableSize <= 0 ==> r == Err(BadTableSize)
    ensures tableSize > 0 ==> r == Ok(TableRow(value, tableSize))
  {
    if tableSize <= 0 { return Err(BadTableSize); }
    if Gcd(LegacyBase, tableSize) != 1 {
      r := MixedByteAddress(value, tableSize);
    } else {
      var h := ComputeHash(value);
      r := Ok(h % tableSize);
    }
  }

  /** Base 257 with digits 1 to 256: no two byte strings, of whatever lengths, share a hash. */
  lemma {:induction false} HashIsInjective(u: seq<Byte>, v: seq<Byte>)
    ensures HashBytes(u) == HashBytes(v) <==> u == v
  {
    if Horner(u) == Horner(v) && (u != [] || v != []) {
      assert u != [] && v != [];
      var i, j := |u| - 1, |v| - 1;
      HashIsInjective(u[..i], v[..j]);
      assert u == u[..i] + [u[i]];
      assert v == v[..j] + [v[j]];
    }
  }

  /** Reducing once at the end is reducing at every step. */
  lemma {:induction false} HornerIsFold(value: seq<Byte>, n: nat)
    requires n > 0
    ensures Congruent(Horner(value), Fold(Recurrence.Scheme(Base, 1, n), 0, value), n)
  {
    var s := Recurrence.Scheme(Base, 1, n);
    if value == [] {
      assert 0 == n * 0;
    } else {
      var k := |value| - 1;
      var x, y := Horner(value[..k]), Fold(s, 0, value[..k]);
      HornerIsFold(value[..k], n);
      CongruentTimes(x, y, Base, n);
      assert (x * Base + value[k] + 1) - (y * Base + value[k] + 1) == Base * x - Base * y;
      var z := y * Base + value[k] + 1;
      ModIsCongruent(z, n);
      CongruentFlip(z % n, z, n);
      CongruentChain(Horner(value), z, z % n, n);
    }
  }

  /** Under v1, strings that differ in one byte share a row only if the table size divides the
      difference. */
  lemma LegacyBytesCollide(n: nat, pre: seq<Byte>, b: Byte, c: Byte, post: seq<Byte>)
    requires n > 0 && ByteUsesLegacy(n)
    ensures TableRow(pre + [b] + post, n) == TableRow(pre + [c] + post, n) <==> b % n == c % n
  {
    var s := Recurrence.Scheme(Base, 1, n);
    var u, v := pre + [b] + post, pre + [c] + post;
    OneTokenDecides(s, 0, pre, b, c, post);
    TerminalStep(Horner(u), Horner(v), Base, n);
    HornerIsFold(u, n);
    HornerIsFold(v, n);
    CongruentMod(Horner(u), Fold(s, 0, u), n);
    CongruentMod(Horner(v), Fold(s, 0, v), n);
    ModUnique(Fold(s, 0, u), 0, Fold(s, 0, u), n);
    ModUnique(Fold(s, 0, v), 0, Fold(s, 0, v), n);
  }

  /** v1 would send every string to row 0 exactly for table sizes that divide 257; the comment in
      the source says so of every multiple of 257. */
  lemma LegacyWouldUseRowZero(n: nat)
    requires n > 0
    ensures (forall value: seq<Byte> :: HashBytes(value) % n == 0) <==> Base % n == 0
  {
    if Base % n == 0 {
      forall value: seq<Byte> ensures HashBytes(value) % n == 0 {
        assert Base == n * (Base / n);
        DividesTimes(n, Base, Horner(value));
        CongruentMod(HashBytes(value), 0, n);
      }
    } else {
      assert Horner([]) == 0;
      assert HashBytes([0]) == 257;
    }
  }

  /** For a multiple of 257 it would at any rate use every 257th row at most. */
  lemma LegacyWouldUseFewRows(n: nat, value: seq<Byte>)
    requires n > 0 && n % Base == 0
    ensures HashBytes(value) % n % Base == 0
  {
    var h := HashBytes(value);
    var k, q := n / Base, h / n;
    assert h == n * q + h % n;
    assert n * q == Base * (k * q) by { assert (Base * k) * q == Base * (k * q); }
    ModUnique(h % n, Horner(value) - k * q, 0, Base);
  }
}
