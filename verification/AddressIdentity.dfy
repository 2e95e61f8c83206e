/** The markers of `address_hash.py` that name the schemes in use, and what they tell. */
module AddressIdentity {
  import opened Wrappers
  import opened Basics
  import opened NumberTheory
  import opened Mersenne
  import opened Recurrence
  import opened AddressHash
  import opened ByteHash

  datatype Version = V1 | V2
  datatype Kind = NoMemory | ByteMemory | PortableMemory | NgramMemory | OtherMemory

  // A field that is absent or not an integer is None.
  datatype Model = Model(kind: Kind, tableSize: Option<int>, hashHeads: Option<int>)

  datatype Schemes = Empty | ByteField(version: Version) | TokenField(versions: seq<Version>)

  function Get(field: Option<int>, default: int): int {
    match field case Some(v) => v case None => default
  }

  function TableSize(model: Model): int { Get(model.tableSize, 0) }

  function Heads(model: Model): nat {
    var h := Get(model.hashHeads, 1);
    if h > 1 then h else 1
  }

  function TokenVersion(n: nat, head: nat): Version { if TokenUsesLegacy(n, head) then V1 else V2 }

  function ByteVersion(n: nat): Version { if ByteUsesLegacy(n) then V1 else V2 }

  function Versions(n: nat, heads: nat, legacy: bool): seq<Version> {
    seq(heads, (head: nat) => if legacy then V1 else TokenVersion(n, head))
  }

  function MemorySchemes(model: Model, legacy: bool): Schemes {
    var n := TableSize(model);
    if model.kind == NoMemory || n <= 0 then Empty
    else match model.kind
      case ByteMemory | PortableMemory => ByteField(if legacy then V1 else ByteVersion(n))
      case NgramMemory => TokenField(Versions(n, Heads(model), legacy))
      case _ => Empty
  }

  function AddressingIdentity(model: Model): Option<Schemes> {
    var current := MemorySchemes(model, false);
    if current != MemorySchemes(model, true) then Some(current) else None
  }

  /** None stands for the empty dictionary. */
  function AddressingMarker(n: nat, hashHeads: int): Option<seq<Version>>
    requires n > 0
  {
    var schemes := Versions(n, if hashHeads > 1 then hashHeads else 1, false);
    if forall v :: v in schemes ==> v == V1 then None else Some(schemes)
  }

  // ---------------------------------------------------------------- what the old code computed

  function OldTokenRow(key: seq<int>, n: nat, head: nat): int
    requires n > 0
  {
    Fold(Legacy(n, head), Start(head), key)
  }

  /** The keys of a table: as many tokens as its order, out of the vocabulary. */
  predicate Reads(key: seq<nat>, order: nat, vocab: nat) {
    |key| == order && forall i :: 0 <= i < |key| ==> key[i] < vocab
  }

  ghost predicate TokensUnchanged(n: nat, head: nat, order: nat, vocab: nat)
    requires n > 0
  {
    forall key: seq<nat> | Reads(key, order, vocab) ::
      TokenRow(key, n, head) == OldTokenRow(key, n, head)
  }

  ghost predicate BytesUnchanged(n: nat, length: nat)
    requires n > 0
  {
    forall value: seq<Byte> | |value| == length :: TableRow(value, n) == HashBytes(value) % n
  }

  /** Every row that the model's tables, one set for each order, use is the row the old code used. */
  ghost predicate AddressesUnchanged(model: Model, orders: seq<nat>, vocab: nat) {
    var n := TableSize(model);
    n > 0 ==>
      forall order: nat :: order in orders ==>
        match model.kind
        case ByteMemory | PortableMemory => BytesUnchanged(n, order)
        case NgramMemory =>
          forall head: nat :: head < Heads(model) ==> TokensUnchanged(n, head, order, vocab)
        case _ => true
  }

  // ---------------------------------------------------------------- token tables

  /** Below this head, 259 steps of the mixed multiplier neither all wrap nor all do not. */
  const HeadLimit: nat := 517838480

  /** Fewer than 260 multiples of anything as large as this are below the modulus. */
  const LargeFactor: nat := 8291443

  function Zeros(k: nat): seq<nat> { seq(k, (i: nat) => 0) }

  /** A key of zeros but for its last token but one. */
  function Probe(order: nat, t: nat): seq<nat>
    requires order >= 2
  {
    Zeros(order - 2) + [t] + [0]
  }

  function Address(head: nat, order: nat, t: nat): int
    requires order >= 2
  {
    Fold(Mixed(head), Start(head), Probe(order, t))
  }

  lemma AddressShifts(head: nat, order: nat, t: nat)
    requires order >= 2
    ensures 0 <= Address(head, order, t) < MixModulus
    ensures Congruent(Address(head, order, t + 1), Address(head, order, t) + Mixed(head).multiplier,
                      MixModulus)
  {
    EarlierTokenShifts(Mixed(head), Start(head), Zeros(order - 2), t);
    FoldSnoc(Mixed(head), Start(head), Zeros(order - 2) + [t], 0);
  }

  /** Where nothing changed, the address moves by the legacy multiplier too. */
  lemma RowShifts(n: nat, head: nat, order: nat, vocab: nat, t: nat)
    requires n > 0 && !TokenUsesLegacy(n, head) && order >= 2 && t + 1 < vocab
    requires TokensUnchanged(n, head, order, vocab)
    ensures Congruent(Address(head, order, t + 1), Address(head, order, t) + TokenMultiplier(head), n)
  {
    var x, y, m := Address(head, order, t + 1), Address(head, order, t), TokenMultiplier(head);
    var k, l := Probe(order, t + 1), Probe(order, t);
    assert Reads(k, order, vocab) && Reads(l, order, vocab);
    EarlierTokenShifts(Legacy(n, head), Start(head), Zeros(order - 2), t);
    assert x % n == OldTokenRow(k, n, head) && y % n == OldTokenRow(l, n, head);
    ModIsCongruent(x, n);
    ModIsCongruent(y, n);
    CongruentFlip(x % n, x, n);
    CongruentChain(x, x % n, y % n + m, n);
    assert y % n + m - (y + m) == y % n - y;
    CongruentChain(x, y % n + m, y + m, n);
  }

  lemma TwoWays(x: int, y: int, m: int, p: nat)
    requires 0 <= x < p && 0 <= y < p && 0 < m < p && Congruent(x, y + m, p)
    ensures x == y + m || x == y + m - p
  {
    CongruentMod(x, y + m, p);
    ModUnique(x, 0, x, p);
    if y + m < p { ModUnique(y + m, 0, y + m, p); } else { ModUnique(y + m, 1, y + m - p, p); }
  }

  lemma {:induction false} Climbs(head: nat, order: nat, step: int, k: nat)
    requires order >= 2
    requires forall t: nat | t < k :: Address(head, order, t + 1) == Address(head, order, t) + step
    ensures Address(head, order, k) == Address(head, order, 0) + k * step
  {
    if k > 0 {
      Climbs(head, order, step, k - 1);
      assert k * step == (k - 1) * step + step;
    }
  }

  /** The mixed multiplier as far as it moves an address. */
  function Stride(head: nat): nat { (MixMultiplier + 2 * head) % MixModulus }

  lemma StepsTwoWays(head: nat, order: nat, t: nat)
    requires Stride(head) > 0 && order >= 2
    ensures var x, y := Address(head, order, t + 1), Address(head, order, t);
            0 <= y < MixModulus && (x == y + Stride(head) || x == y + (Stride(head) - MixModulus))
  {
    var x, y, m := Address(head, order, t + 1), Address(head, order, t), Mixed(head).multiplier;
    AddressShifts(head, order, t);
    AddressShifts(head, order, t + 1);
    ModIsCongruent(m, MixModulus);
    CongruentFlip(Stride(head), m, MixModulus);
    assert m - Stride(head) == y + m - (y + Stride(head));
    CongruentChain(x, y + m, y + Stride(head), MixModulus);
    TwoWays(x, y, Stride(head), MixModulus);
  }

  // Not all of 259 steps are of one kind.
  lemma StepIsNot(head: nat, order: nat, step: int) returns (t: nat)
    requires Stride(head) > 0 && order >= 2
    requires 259 * step >= MixModulus || 259 * step + MixModulus <= 0
    ensures t < 259 && Address(head, order, t + 1) != Address(head, order, t) + step
  {
    StepsTwoWays(head, order, 0);
    StepsTwoWays(head, order, 259);
    if forall t: nat | t < 259 :: Address(head, order, t + 1) == Address(head, order, t) + step {
      Climbs(head, order, step, 259);
    }
    t :| t < 259 && Address(head, order, t + 1) != Address(head, order, t) + step;
  }

  /** The two ways differ by the modulus, so the table size divides it. */
  lemma FewTokensSuffice(n: nat, head: nat, order: nat, vocab: nat)
    requires n > 0 && !TokenUsesLegacy(n, head) && order >= 2 && vocab >= 260 && head < HeadLimit
    requires TokensUnchanged(n, head, order, vocab)
    ensures Divides(n, MixModulus)
  {
    var m, d := TokenMultiplier(head), Stride(head);
    SmallRemainder(Mixed(head).multiplier, MixModulus);
    var t := StepIsNot(head, order, d);
    var u := StepIsNot(head, order, d - MixModulus);
    StepsTwoWays(head, order, t);
    StepsTwoWays(head, order, u);
    RowShifts(n, head, order, vocab, t);
    RowShifts(n, head, order, vocab, u);
    var x, y := Address(head, order, t + 1), Address(head, order, t);
    assert x - (y + m) == d - MixModulus - m;
    var v, w := Address(head, order, u + 1), Address(head, order, u);
    assert v - (w + m) == d - m;
    DividesSum(n, d - m, d - MixModulus - m, -1);
  }

  // ---- a large common factor

  lemma NotDivided(x: int, p: int)
    requires p > 0 && x % p != 0
    ensures !Divides(p, x)
  {
    SmallRemainder(0, p);
    CongruentMod(x, 0, p);
    assert x - 0 == x;
  }

  lemma DividesPrime(n: nat)
    requires n > 0 && Divides(n, Prime)
    ensures n == 1 || n == Prime
  {
    PrimeIsPrime();
    var k :| Prime == n * k;
  }

  lemma NotBoth(g: nat, d: nat)
    requires g > 1 && 0 < d < MixModulus
    ensures !(Divides(g, d) && Divides(g, d - MixModulus))
  {
    SmallRemainder(d, MixModulus);
    NotDivided(d, MixModulus);
    if Divides(g, d) && Divides(g, d - MixModulus) {
      DividesSum(g, d, d - MixModulus, -1);
      DividesPrime(g);
    }
  }

  lemma LargeMultiple(g: nat, d: nat)
    requires g >= LargeFactor && d > 0 && Divides(g, d)
    ensures 259 * d >= MixModulus
  {
    var k: int :| d == g * k;
    if k < 0 { NegatedProduct(g, -k); Product(g, -k); }
    if k > 0 { PositiveMultiple(g, k); }
  }

  /** No large factor divides the addresses of all of 260 probes. */
  lemma SomeProbe(head: nat, order: nat, g: nat) returns (t: nat)
    requires g >= LargeFactor && order >= 2
    ensures t < 260 && !Divides(g, Address(head, order, t))
  {
    var d := Stride(head);
    if d == 0 {
      assert Mixed(head).multiplier == MixModulus * (Mixed(head).multiplier / MixModulus);
      Forgets(Mixed(head), Start(head), Probe(order, 0));
      SmallRemainder(1, g);
      NotDivided(1, g);
      t := 0;
    } else {
      NotBoth(g, d);
      var u := 0;
      if Divides(g, d) {
        LargeMultiple(g, d);
        u := StepIsNot(head, order, d);
      } else if Divides(g, d - MixModulus) {
        DividesTimes(g, d - MixModulus, -1);
        LargeMultiple(g, MixModulus - d);
        u := StepIsNot(head, order, d - MixModulus);
      }
      var x, y := Address(head, order, u + 1), Address(head, order, u);
      StepsTwoWays(head, order, u);
      if Divides(g, x) && Divides(g, y) { DividesSum(g, x, y, -1); }
      t := if Divides(g, y) then u + 1 else u;
    }
  }

  lemma DividesThrough(d: int, n: int, x: int, y: int)
    requires Divides(d, n) && Divides(d, y) && Congruent(x, y, n)
    ensures Divides(d, x)
  {
    var k: int :| x - y == n * k;
    DividesTimes(d, n, k);
    assert k * n == n * k;
    DividesSum(d, k * n, y, 1);
  }

  // A common factor of table size and legacy multiplier divides every legacy row of a probe.
  lemma OldRowVanishes(n: nat, head: nat, order: nat, t: nat, g: nat)
    requires n > 0 && order >= 2 && Divides(g, n) && Divides(g, TokenMultiplier(head))
    requires Address(head, order, t) % n == OldTokenRow(Probe(order, t), n, head)
    ensures Divides(g, Address(head, order, t))
  {
    var s, x, m := Legacy(n, head), Address(head, order, t), TokenMultiplier(head);
    var a := Fold(s, Start(head), Zeros(order - 2) + [t]);
    FoldSnoc(s, Start(head), Zeros(order - 2) + [t], 0);
    CongruentMod(x, a * m, n);
    DividesTimes(g, m, a);
    DividesThrough(g, n, x, a * m);
  }

  lemma LargeFactorShows(n: nat, head: nat, order: nat, vocab: nat, g: nat)
    requires n > 0 && !TokenUsesLegacy(n, head) && order >= 2 && vocab >= 260
    requires g >= LargeFactor && Divides(g, n) && Divides(g, TokenMultiplier(head))
    ensures !TokensUnchanged(n, head, order, vocab)
  {
    var t := SomeProbe(head, order, g);
    var key := Probe(order, t);
    if TokenRow(key, n, head) == OldTokenRow(key, n, head) { OldRowVanishes(n, head, order, t, g); }
    assert Reads(key, order, vocab);
  }

  // ---- more tokens than the modulus

  /** With more tokens than the modulus, two that it cannot tell apart as last ones do it. */
  lemma ManyTokensSuffice(n: nat, head: nat, order: nat, vocab: nat)
    requires n > 0 && !TokenUsesLegacy(n, head) && order >= 2 && vocab > MixModulus
    requires TokensUnchanged(n, head, order, vocab)
    ensures Divides(n, MixModulus)
  {
    var pre := Zeros(order - 1);
    var lo, hi := pre + [0], pre + [MixModulus];
    assert Reads(lo, order, vocab) && Reads(hi, order, vocab);
    var s, o := Mixed(head), Legacy(n, head);
    FoldSnoc(s, Start(head), pre, 0);
    FoldSnoc(s, Start(head), pre, MixModulus);
    FoldSnoc(o, Start(head), pre, 0);
    FoldSnoc(o, Start(head), pre, MixModulus);
    TokenDecides(s, Fold(s, Start(head), pre), 0, MixModulus);
    TokenDecides(o, Fold(o, Start(head), pre), 0, MixModulus);
    CongruentMod(MixModulus, 0, n);
    assert MixModulus - 0 == MixModulus;
  }

  /** A table as large as the modulus changes too: the two multipliers differ modulo it. */
  lemma WholeFieldDiffers(head: nat, order: nat, vocab: nat)
    requires order >= 2 && vocab >= 2
    ensures TokensUnchanged(MixModulus, head, order, vocab) ==> TokenUsesLegacy(MixModulus, head)
  {
    var p, m, d := MixModulus, TokenMultiplier(head), Mixed(head).multiplier;
    NotDivided(MixMultiplier - LegacyBase, p);
    if TokensUnchanged(p, head, order, vocab) && !TokenUsesLegacy(p, head) {
      var x, y := Address(head, order, 1), Address(head, order, 0);
      AddressShifts(head, order, 0);
      RowShifts(p, head, order, vocab, 0);
      DividesSum(p, x - (y + m), x - (y + d), -1);
    }
  }

  /**
    A head keeps v1 exactly when no row of the table's keys changes, for every order a table can
    have: with any vocabulary if the head is small or shares a large factor with the table size,
    with a full one always.
   */
  lemma TokensUnchangedExactly(n: nat, head: nat, order: nat, vocab: nat)
    requires n > 0 && order >= 2 && vocab >= 260
    requires head < HeadLimit || Gcd(TokenMultiplier(head), n) >= LargeFactor || vocab > MixModulus
    ensures TokensUnchanged(n, head, order, vocab) <==> TokenUsesLegacy(n, head)
  {
    if !TokenUsesLegacy(n, head) && TokensUnchanged(n, head, order, vocab) {
      if Gcd(TokenMultiplier(head), n) >= LargeFactor {
        GcdDivides(TokenMultiplier(head), n);
        LargeFactorShows(n, head, order, vocab, Gcd(TokenMultiplier(head), n));
      } else {
        if head < HeadLimit { FewTokensSuffice(n, head, order, vocab); }
        else { ManyTokensSuffice(n, head, order, vocab); }
        DividesPrime(n);
        WholeFieldDiffers(head, order, vocab);
      }
    }
  }

  // What the mixed scheme of head 521984282 makes of two small tokens.
  lemma MixedPair(a: nat, b: nat)
    requires a < 260 && b < 260
    ensures Fold(Mixed(521984282), Start(521984282), [a, b]) % 3 == b % 3
  {
    var s, start, x := Mixed(521984282), Start(521984282), 809591614 + a;
    var y := 162 * x + b + 1 - 61 * MixModulus;
    FoldSnoc(s, start, [], a);
    FoldSnoc(s, start, [a], b);
    assert [] + [a] == [a] && [a] + [b] == [a, b];
    ModUnique(start * s.multiplier + a + 1, 521984322, x, MixModulus);
    ModUnique(x * s.multiplier + b + 1, x + 61, y, MixModulus);
    assert y - b == 3 * (54 * x - 43665500822);
    CongruentMod(y, b, 3);
  }

  lemma OldPair(n: nat, head: nat, a: nat, b: nat)
    requires n > 0 && TokenMultiplier(head) % n == 0
    ensures OldTokenRow([a, b], n, head) == b % n
  {
    var s, m := Legacy(n, head), TokenMultiplier(head);
    var x := Fold(s, Start(head), [a]);
    FoldSnoc(s, Start(head), [a], b);
    assert [a] + [b] == [a, b] && m == n * (m / n);
    DividesTimes(n, m, x);
    assert x * m + b + 0 - b == x * m;
    CongruentMod(x * m + b + 0, b, n);
  }

  /**
    Past the limit a small vocabulary may see nothing: head 521984282 of a table of three rows
    uses v2, and no key of two out of 260 tokens has another row than under v1.
   */
  lemma LargeHeadMayAgree()
    ensures !TokenUsesLegacy(3, 521984282) && TokensUnchanged(3, 521984282, 2, 260)
  {
    var head := 521984282;
    assert Gcd(TokenMultiplier(head), 3) == Gcd(3, 0) == 3;
    assert TokenMultiplier(head) % 3 == 0;
    forall key: seq<nat> | Reads(key, 2, 260)
      ensures TokenRow(key, 3, head) == OldTokenRow(key, 3, head)
    {
      assert key == [key[0], key[1]];
      MixedPair(key[0], key[1]);
      OldPair(3, head, key[0], key[1]);
    }
  }

  // ---------------------------------------------------------------- byte tables

  lemma LegacyBaseIsPrime()
    ensures IsPrime(257)
  {
    SmallPrime(257, 17);
  }

  lemma SharedBase(n: nat)
    requires n > 0 && !ByteUsesLegacy(n)
    ensures Divides(257, n)
  {
    var g := Gcd(257, n);
    GcdDivides(257, n);
    LegacyBaseIsPrime();
    var k :| 257 == g * k;
    assert k == 1;
  }

  // Where nothing changed, 257 divides the address as it divides the hash.
  lemma OldBytesVanish(n: nat, address: int, horner: nat)
    requires n > 0 && Divides(257, n) && Congruent(address, horner * 257, n)
    ensures Divides(257, address)
  {
    assert horner * 257 == 257 * horner;
    DividesThrough(257, n, address, horner * 257);
  }

  /** Raising the last byte by one raises the mixed address by the multiplier. */
  lemma LastByteShifts(pre: seq<Byte>)
    ensures Congruent(MixedBytes(pre + [1]), MixedBytes(pre + [0]) + MixMultiplier, MixModulus)
  {
    var s, a, m, p := ByteMix(), Fold(ByteMix(), 1, pre), MixMultiplier, MixModulus;
    var x, y := Mix(s, a, 1), Mix(s, a, 0);
    FoldSnoc(s, 1, pre, 1);
    FoldSnoc(s, 1, pre, 0);
    assert a * m + 1 - (a * m + 0 + 1) == p * 0;
    MixShifts(s, a, a, 1, 0, 1);
    CongruentTimes(x, y + 1, m, p);
    ModIsCongruent(x * m, p);
    ModIsCongruent(y * m, p);
    CongruentFlip(y * m % p, y * m, p);
    assert m * x == x * m && m * (y + 1) == y * m + m;
    CongruentChain(x * m % p, x * m, y * m + m, p);
    assert y * m + m - (y * m % p + m) == y * m - y * m % p;
    CongruentChain(x * m % p, y * m + m, y * m % p + m, p);
  }

  lemma SomeByteChanges(n: nat, pre: seq<Byte>)
    requires n > 0 && Divides(257, n)
    ensures MixedBytes(pre + [0]) % n != HashBytes(pre + [0]) % n
         || MixedBytes(pre + [1]) % n != HashBytes(pre + [1]) % n
  {
    var x, y := MixedBytes(pre + [1]), MixedBytes(pre + [0]);
    NotDivided(MixMultiplier, 257);
    NotDivided(MixMultiplier - MixModulus, 257);
    CongruentMod(x, HashBytes(pre + [1]), n);
    CongruentMod(y, HashBytes(pre + [0]), n);
    if x % n == HashBytes(pre + [1]) % n && y % n == HashBytes(pre + [0]) % n {
      OldBytesVanish(n, x, Horner(pre + [1]));
      OldBytesVanish(n, y, Horner(pre + [0]));
      LastByteShifts(pre);
      TwoWays(x, y, MixMultiplier, MixModulus);
      DividesSum(257, x, y, -1);
    }
  }

  lemma EmptyChanges(n: nat)
    requires n > 0 && Divides(257, n)
    ensures MixedBytes([]) % n != HashBytes([]) % n
  {
    SmallRemainder(MixMultiplier, MixModulus);
    NotDivided(MixMultiplier, 257);
    CongruentMod(MixedBytes([]), HashBytes([]), n);
    if MixedBytes([]) % n == HashBytes([]) % n { OldBytesVanish(n, MixedBytes([]), Horner([])); }
  }

  /** Byte tables keep v1 exactly when no row of the strings of one length, whichever, changes. */
  lemma BytesUnchangedExactly(n: nat, length: nat)
    requires n > 0
    ensures BytesUnchanged(n, length) <==> ByteUsesLegacy(n)
  {
    if !ByteUsesLegacy(n) {
      SharedBase(n);
      if length == 0 {
        EmptyChanges(n);
        var empty: seq<Byte> := [];
        assert |empty| == length && TableRow(empty, n) != HashBytes(empty) % n;
      } else {
        var pre: seq<Byte> := seq(length - 1, (i: nat) => 0);
        var lo: seq<Byte>, hi: seq<Byte> := pre + [0], pre + [1];
        SomeByteChanges(n, pre);
        assert |lo| == |hi| == length;
        assert TableRow(lo, n) != HashBytes(lo) % n || TableRow(hi, n) != HashBytes(hi) % n;
      }
    }
  }

  // ---------------------------------------------------------------- the marker

  lemma CommonDividesGcd(g: nat, a: nat, b: nat)
    requires Divides(g, a) && Divides(g, b)
    ensures Divides(g, Gcd(a, b))
  {
    var x, y := Bezout(a, b);
    DividesTimes(g, a, x);
    DividesSum(g, x * a, b, y);
  }

  lemma LargeGcd(g: nat, a: nat, b: nat)
    requires b > 0 && Divides(g, a) && Divides(g, b)
    ensures Gcd(a, b) >= g
  {
    var d := Gcd(a, b);
    CommonDividesGcd(g, a, b);
    var k: int :| d == g * k;
    if k < 0 { NegatedProduct(g, -k); Product(g, -k); }
    if k > 0 { PositiveMultiple(g, k); }
  }

  lemma ReducedHead(g: nat, head: nat) returns (low: nat)
    requires g > 0 && Divides(g, TokenMultiplier(head))
    ensures low <= head && low < g && Divides(g, TokenMultiplier(low))
  {
    low := head % g;
    var q: int := head / g;
    assert head == g * q + low;
    DividesSum(g, TokenMultiplier(head), g * q, -2);
  }

  // A head that shares a factor with the table size is small, or has one below it that is or that
  // shares a large factor.
  lemma HeadBelow(n: nat, head: nat) returns (low: nat)
    requires n > 0 && !TokenUsesLegacy(n, head)
    ensures low <= head && !TokenUsesLegacy(n, low)
    ensures low < HeadLimit || Gcd(TokenMultiplier(low), n) >= LargeFactor
  {
    var g := Gcd(TokenMultiplier(head), n);
    GcdDivides(TokenMultiplier(head), n);
    low := ReducedHead(g, head);
    LargeGcd(g, TokenMultiplier(low), n);
  }

  /**
    A model gets a marker exactly when some address of its tables has changed, whatever orders its
    tables have and however small its vocabulary.
   */
  lemma MarkedExactlyWhenChanged(model: Model, orders: seq<nat>, vocab: nat)
    requires orders != [] && (forall order :: order in orders ==> order >= 2) && vocab >= 260
    ensures AddressingIdentity(model) == None <==> AddressesUnchanged(model, orders, vocab)
  {
    var n := TableSize(model);
    if n > 0 {
      assert orders[0] in orders;
      match model.kind
      case ByteMemory | PortableMemory =>
        forall order | order in orders ensures BytesUnchanged(n, order) <==> ByteUsesLegacy(n) {
          BytesUnchangedExactly(n, order);
        }
      case NgramMemory =>
        forall order | order in orders
          ensures AddressingIdentity(model) == None
             <==> forall head: nat :: head < Heads(model) ==> TokensUnchanged(n, head, order, vocab)
        {
          HeadsDecide(model, order, vocab);
        }
      case _ =>
    }
  }

  lemma HeadsDecide(model: Model, order: nat, vocab: nat)
    requires model.kind == NgramMemory && TableSize(model) > 0 && order >= 2 && vocab >= 260
    ensures AddressingIdentity(model) == None
       <==> forall head: nat :: head < Heads(model) ==>
              TokensUnchanged(TableSize(model), head, order, vocab)
  {
    var n, heads := TableSize(model), Heads(model);
    AllKeepLegacy(n, heads);
    assert MemorySchemes(model, false) == TokenField(Versions(n, heads, false));
    assert MemorySchemes(model, true) == TokenField(Versions(n, heads, true));
    HeadsShow(n, heads, order, vocab);
  }

  lemma AllKeepLegacy(n: nat, heads: nat)
    ensures Versions(n, heads, false) == Versions(n, heads, true)
       <==> forall head: nat :: head < heads ==> TokenUsesLegacy(n, head)
  {
    var now, before := Versions(n, heads, false), Versions(n, heads, true);
    if now == before {
      forall head: nat | head < heads ensures TokenUsesLegacy(n, head) {
        assert now[head] == before[head];
      }
    }
  }

  lemma HeadsShow(n: nat, heads: nat, order: nat, vocab: nat)
    requires n > 0 && order >= 2 && vocab >= 260
    ensures (forall head: nat :: head < heads ==> TokenUsesLegacy(n, head))
       <==> forall head: nat :: head < heads ==> TokensUnchanged(n, head, order, vocab)
  {
    if head: nat :| head < heads && !TokenUsesLegacy(n, head) {
      var low := HeadBelow(n, head);
      TokensUnchangedExactly(n, low, order, vocab);
    }
  }

  /** The n-gram identity and the token marker tell the same. */
  lemma MarkersAgree(model: Model)
    requires model.kind == NgramMemory && TableSize(model) > 0
    ensures AddressingIdentity(model)
         == match AddressingMarker(TableSize(model), Get(model.hashHeads, 1))
            case None => None
            case Some(versions) => Some(TokenField(versions))
  {
    var n, heads := TableSize(model), Heads(model);
    AllLegacy(n, heads);
    assert MemorySchemes(model, false) == TokenField(Versions(n, heads, false));
    assert MemorySchemes(model, true) == TokenField(Versions(n, heads, true));
  }

  lemma AllFirst(now: seq<Version>, before: seq<Version>)
    requires |now| == |before| && forall i :: 0 <= i < |before| ==> before[i] == V1
    ensures (forall v :: v in now ==> v == V1) <==> now == before
  {
    if forall v :: v in now ==> v == V1 {
      forall i | 0 <= i < |now| ensures now[i] == before[i] {
        assert now[i] in now;
      }
    }
  }

  lemma AllLegacy(n: nat, heads: nat)
    ensures (forall v :: v in Versions(n, heads, false) ==> v == V1)
       <==> Versions(n, heads, false) == Versions(n, heads, true)
  {
    AllFirst(Versions(n, heads, false), Versions(n, heads, true));
  }
}
