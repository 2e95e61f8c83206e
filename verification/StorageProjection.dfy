/**
  `_final_storage_projection` of `operational_monitor.py`: the final receipt states the workspace
  bytes that its own two encodings add, so it is rewritten until it is a fixed point, for at most
  sixteen rounds.
 */
module StorageProjection {
  import opened Wrappers
  import opened Basics
  import opened Decimal
  import opened SlowOrbit

  // Any other violation is known by its encoding, quotes included.
  datatype Violation = AddedBytes | AddedInodes | WallSeconds | Other(encoded: string)

  datatype Receipt = Receipt(
    status: Status, violations: seq<Violation>,
    peakBytes: Option<nat>, peakInodes: Option<nat>,
    finalBytes: Option<nat>, finalInodes: Option<nat>)

  // Lengths of everything else in the compact and in the indented encoding, newlines included.
  datatype Frame = Frame(compact: nat, indented: nat)

  datatype Inputs = Inputs(
    frame: Frame,
    currentBytes: nat, currentInodes: nat,      // the workspace as just sampled
    baselineBytes: nat, baselineInodes: nat,
    maxBytes: Option<nat>, maxInodes: Option<nat>)

  // ---------------------------------------------------------------- encoded lengths

  function StatusLength(s: Status): nat {
    match s
    case Complete => 8
    case FailedCommand => 6
    case Violated => 8
    case MonitorError => 13
  }

  function ViolationLength(v: Violation): nat {
    match v
    case AddedBytes => 27
    case AddedInodes => 28
    case WallSeconds => 18
    case Other(encoded) => |encoded|
  }

  function NumberLength(n: Option<nat>): nat { if n.Some? then Digits(n.value) else 4 }

  function Sum(vs: seq<Violation>): nat {
    if vs == [] then 0 else Sum(vs[..|vs| - 1]) + ViolationLength(vs[|vs| - 1])
  }

  // ["a","b"]
  function CompactList(vs: seq<Violation>): nat {
    if vs == [] then 2 else 2 + Sum(vs) + (|vs| - 1)
  }

  // One element a line, four blanks in, and the closing bracket two blanks in.
  function IndentedList(vs: seq<Violation>): nat {
    if vs == [] then 2 else 5 + Sum(vs) + 5 * |vs| + (|vs| - 1)
  }

  function Varying(r: Receipt): nat {
    StatusLength(r.status) + NumberLength(r.peakBytes) + NumberLength(r.peakInodes)
    + NumberLength(r.finalBytes) + NumberLength(r.finalInodes)
  }

  /** The bytes that recording `r` twice adds: once in the event log, once as the completion. */
  function Pending(f: Frame, r: Receipt): nat {
    (f.compact + Varying(r) + CompactList(r.violations))
    + (f.indented + Varying(r) + IndentedList(r.violations))
  }

  // ---------------------------------------------------------------- one round

  function OrZero(n: Option<nat>): nat { if n.Some? then n.value else 0 }

  predicate Exceeds(n: nat, cap: Option<nat>) { cap.Some? && n > cap.value }

  /** The violations and status the round starts from: a wall limit may have passed meanwhile. */
  function Base(result: Receipt, wallExceeded: bool): Receipt {
    var violations := if wallExceeded && WallSeconds !in result.violations
                      then result.violations + [WallSeconds] else result.violations;
    var status := if result.status.MonitorError? then MonitorError
                  else if |violations| > |result.violations| then Violated
                  else result.status;
    result.(violations := violations, status := status)
  }

  function FinalInodes(e: Inputs): nat { Max(0, e.currentInodes + 1 - e.baselineInodes) }

  /** The receipt that states `bytes` added workspace bytes. */
  function Stating(e: Inputs, base: Receipt, bytes: nat): Receipt {
    var inodes := FinalInodes(e);
    var overBytes := if Exceeds(bytes, e.maxBytes) then [AddedBytes] else [];
    var overInodes := if Exceeds(inodes, e.maxInodes) then [AddedInodes] else [];
    var violations := base.violations + overBytes + overInodes;
    Receipt(
      if base.status.MonitorError? then MonitorError
      else if |violations| > |base.violations| then Violated
      else base.status,
      violations,
      Some(Max(bytes, OrZero(base.peakBytes))), Some(Max(inodes, OrZero(base.peakInodes))),
      Some(bytes), Some(inodes))
  }

  function AddedBytesOf(e: Inputs, r: Receipt): nat {
    Max(0, e.currentBytes + Pending(e.frame, r) - e.baselineBytes)
  }

  /** One round of the loop. */
  function Round(e: Inputs, base: Receipt, candidate: Receipt): Receipt {
    Stating(e, base, AddedBytesOf(e, candidate))
  }

  // ---------------------------------------------------------------- how lengths move

  // What stating the byte count costs beyond its digits: one more violation, and perhaps a status.
  function Cost(e: Inputs, base: Receipt, bytes: nat): nat {
    var violations := Stating(e, base, bytes).violations;
    2 * StatusLength(Stating(e, base, bytes).status)
    + CompactList(violations) + IndentedList(violations)
  }

  lemma SumAppend(vs: seq<Violation>, v: Violation)
    ensures Sum(vs + [v]) == Sum(vs) + ViolationLength(v)
  {
    assert (vs + [v])[..|vs|] == vs;
  }

  lemma StatedViolations(e: Inputs, base: Receipt, bytes: nat)
    ensures var over := if Exceeds(bytes, e.maxBytes) then 1 else 0;
            var inodes := if Exceeds(FinalInodes(e), e.maxInodes) then 1 else 0;
            var vs := Stating(e, base, bytes).violations;
            && |vs| == |base.violations| + over + inodes
            && Sum(vs) == Sum(base.violations) + 27 * over + 28 * inodes
  {
    var vs := base.violations;
    SumAppend(vs, AddedBytes);
    SumAppend(vs, AddedInodes);
    SumAppend(vs + [AddedBytes], AddedInodes);
    assert vs + [] + [AddedInodes] == vs + [AddedInodes];
    assert vs + [AddedBytes] + [] == vs + [AddedBytes];
    assert vs + [] + [] == vs;
  }

  // Crossing the byte cap lengthens the receipt, by 66 bytes at most.
  lemma CostBounds(e: Inputs, base: Receipt, x: nat, y: nat)
    requires x <= y
    ensures Cost(e, base, x) <= Cost(e, base, y) <= Cost(e, base, x) + 66
    ensures Exceeds(x, e.maxBytes) == Exceeds(y, e.maxBytes) ==> Cost(e, base, x) == Cost(e, base, y)
  {
    StatedViolations(e, base, x);
    StatedViolations(e, base, y);
  }

  // Length of a receipt that states `bytes`: a constant, the cost, and two digit counts twice.
  function Weight(e: Inputs, base: Receipt, bytes: nat): int {
    Cost(e, base, bytes) + 2 * Digits(bytes) + 2 * Digits(Max(bytes, OrZero(base.peakBytes)))
  }

  function Fixed(e: Inputs, base: Receipt): int {
    e.currentBytes - e.baselineBytes + e.frame.compact + e.frame.indented
    + 2 * Digits(FinalInodes(e)) + 2 * Digits(Max(FinalInodes(e), OrZero(base.peakInodes)))
  }

  lemma PeakDigits(x: nat, y: nat, p: nat)
    requires x <= y
    ensures 0 <= Digits(Max(y, p)) - Digits(Max(x, p)) <= Digits(y) - Digits(x)
  {
    DigitsMonotone(x, y);
    DigitsMonotone(Max(x, p), Max(y, p));
    if p >= x { DigitsMonotone(x, p); }
  }

  /** Weights move with the stated bytes, and by no more than the digits and one violation. */
  lemma WeightBounds(e: Inputs, base: Receipt, x: nat, y: nat)
    requires x <= y
    ensures Digits(x) <= Digits(y)
    ensures 0 <= Weight(e, base, y) - Weight(e, base, x) <= 4 * (Digits(y) - Digits(x)) + 66
    ensures Digits(x) == Digits(y) && Exceeds(x, e.maxBytes) == Exceeds(y, e.maxBytes) ==>
        Weight(e, base, x) == Weight(e, base, y)
  {
    CostBounds(e, base, x, y);
    DigitsMonotone(x, y);
    PeakDigits(x, y, OrZero(base.peakBytes));
  }

  function WeightOf(e: Inputs, base: Receipt): nat -> int { (x: nat) => Weight(e, base, x) }

  function OverOf(e: Inputs): nat -> bool { (x: nat) => Exceeds(x, e.maxBytes) }

  lemma ReceiptsAreTame(e: Inputs, base: Receipt)
    ensures Tame(WeightOf(e, base), OverOf(e))
  {
    forall x: nat, y: nat | x <= y
      ensures TamePair(WeightOf(e, base), OverOf(e), x, y)
    {
      WeightBounds(e, base, x, y);
    }
  }

  /** The bytes stated after `k` rounds: an orbit of the weight of a receipt. */
  function Stated(e: Inputs, base: Receipt, k: nat): nat
    requires k >= 1
  {
    Orbit(WeightOf(e, base), Fixed(e, base), AddedBytesOf(e, base), k - 1)
  }

  function Candidate(e: Inputs, base: Receipt, k: nat): Receipt {
    if k == 0 then base else Stating(e, base, Stated(e, base, k))
  }

  lemma CandidateNext(e: Inputs, base: Receipt, k: nat)
    ensures Candidate(e, base, k + 1) == Round(e, base, Candidate(e, base, k))
  {
  }

  /** From round to round the stated bytes move in one direction only. */
  lemma StatedMovesOneWay(e: Inputs, base: Receipt)
    ensures (forall j: nat, k: nat | 1 <= j <= k :: Stated(e, base, j) <= Stated(e, base, k))
         || (forall j: nat, k: nat | 1 <= j <= k :: Stated(e, base, j) >= Stated(e, base, k))
  {
    ReceiptsAreTame(e, base);
    RisesOrFalls(WeightOf(e, base), OverOf(e), Fixed(e, base), AddedBytesOf(e, base));
  }

  // The base violations, plain and with either or both of the two others.
  lemma Lists(base: Receipt, vs: seq<Violation>, bytes: bool, inodes: bool)
    requires vs == base.violations + (if bytes then [AddedBytes] else [])
                     + (if inodes then [AddedInodes] else [])
    ensures CompactList(vs) >= CompactList(base.violations)
    ensures IndentedList(vs) >= IndentedList(base.violations)
  {
    SumAppend(base.violations, AddedBytes);
    SumAppend(base.violations, AddedInodes);
    SumAppend(base.violations + [AddedBytes], AddedInodes);
    assert base.violations + [] + [AddedInodes] == base.violations + [AddedInodes];
    assert base.violations + [AddedBytes] + [] == base.violations + [AddedBytes];
    assert base.violations + [] + [] == base.violations;
  }

  // The first receipt has blanks for the final sizes, so the second can be shorter, but not much.
  lemma FirstShrink(e: Inputs, base: Receipt, x: nat)
    requires base.finalBytes.None? && base.finalInodes.None?
    ensures Pending(e.frame, base) <= Pending(e.frame, Stating(e, base, x)) + 24
  {
    var r := Stating(e, base, x);
    Lists(base, r.violations, Exceeds(x, e.maxBytes), Exceeds(FinalInodes(e), e.maxInodes));
    if base.peakBytes.Some? { DigitsMonotone(base.peakBytes.value, r.peakBytes.value); }
    if base.peakInodes.Some? { DigitsMonotone(base.peakInodes.value, r.peakInodes.value); }
    assert Varying(base) <= Varying(r) + 12;
  }

  /** Whatever the inputs, the seventh round repeats the sixth. */
  lemma ReceiptConverges(e: Inputs, base: Receipt)
    requires base.finalBytes.None? && base.finalInodes.None?
    ensures Candidate(e, base, 7) == Candidate(e, base, 6)
  {
    var first := AddedBytesOf(e, base);
    ReceiptsAreTame(e, base);
    FirstShrink(e, base, first);
    Converges(WeightOf(e, base), OverOf(e), Fixed(e, base), first);
  }

  /** The receipt states exactly the bytes and the inode that recording it adds. */
  predicate Exact(e: Inputs, base: Receipt, r: Receipt) {
    && r.finalBytes == Some(Max(0, e.currentBytes + Pending(e.frame, r) - e.baselineBytes))
    && r.finalInodes == Some(Max(0, e.currentInodes + 1 - e.baselineInodes))
    && r.peakBytes == Some(Max(OrZero(r.finalBytes), OrZero(base.peakBytes)))
    && r.peakInodes == Some(Max(OrZero(r.finalInodes), OrZero(base.peakInodes)))
    && r.violations == base.violations + Added(r, e)
    && r.status == if base.status.MonitorError? then MonitorError
                   else if Added(r, e) != [] then Violated else base.status
  }

  /** The violations that the stated numbers are. */
  function Added(r: Receipt, e: Inputs): seq<Violation> {
    (if Exceeds(OrZero(r.finalBytes), e.maxBytes) then [AddedBytes] else [])
    + if Exceeds(OrZero(r.finalInodes), e.maxInodes) then [AddedInodes] else []
  }

  lemma FixedPointIsExact(e: Inputs, base: Receipt, r: Receipt)
    requires r == Round(e, base, r)
    ensures Exact(e, base, r)
  {
    var more := Added(r, e);
    assert r.violations == base.violations + more;
  }

  /** What of the result goes into the receipt, and what the passed wall limit adds to it. */
  predicate CarriesOn(e: Inputs, result: Receipt, wallExceeded: bool, r: Receipt) {
    && r.violations == result.violations
                       + (if wallExceeded && WallSeconds !in result.violations then [WallSeconds] else [])
                       + Added(r, e)
    && result.violations <= r.violations
    && (WallSeconds in r.violations <==> WallSeconds in result.violations || wallExceeded)
    && multiset(r.violations)[WallSeconds]
       == Max(multiset(result.violations)[WallSeconds], if wallExceeded then 1 else 0)
    && (r.status == MonitorError <==> result.status == MonitorError)
    && (result.status != MonitorError ==>
          r.status == if r.violations != result.violations then Violated else result.status)
    && OrZero(r.peakBytes) == Max(OrZero(r.finalBytes), OrZero(result.peakBytes))
    && OrZero(r.peakInodes) == Max(OrZero(r.finalInodes), OrZero(result.peakInodes))
  }

  // What a tail without the wall limit, and the limit itself, do to a list.
  lemma Appended(vs: seq<Violation>, wall: bool, tail: seq<Violation>, all: seq<Violation>)
    requires WallSeconds !in tail && all == vs + (if wall then [WallSeconds] else []) + tail
    ensures vs <= all && (all == vs <==> !wall && tail == [])
    ensures WallSeconds in all <==> WallSeconds in vs || wall
    ensures multiset(all)[WallSeconds] == multiset(vs)[WallSeconds] + if wall then 1 else 0
  {
    var middle := if wall then [WallSeconds] else [];
    assert multiset(all) == multiset(vs) + multiset(middle) + multiset(tail);
  }

  lemma ExactCarriesOn(e: Inputs, result: Receipt, wallExceeded: bool, r: Receipt)
    requires Exact(e, Base(result, wallExceeded), r)
    ensures CarriesOn(e, result, wallExceeded, r)
  {
    var wall := wallExceeded && WallSeconds !in result.violations;
    var tail := Added(r, e);
    assert result.violations + [] == result.violations;
    Appended(result.violations, wall, tail, r.violations);
    assert WallSeconds in result.violations <==> multiset(result.violations)[WallSeconds] > 0;
  }

  /** The loop always returns, within its sixteen rounds, an exact receipt. */
  method Project(e: Inputs, result: Receipt, wallExceeded: bool)
    returns (r: Result<Receipt, string>)
    requires result.finalBytes.None? && result.finalInodes.None?
    ensures r.Ok? && Exact(e, Base(result, wallExceeded), r.value)
    ensures CarriesOn(e, result, wallExceeded, r.value)
  {
    var base := Base(result, wallExceeded);
    var candidate := base;
    for round := 0 to 16
      invariant candidate == Candidate(e, base, round)
      invariant round <= 6
    {
      var updated := Round(e, base, candidate);
      CandidateNext(e, base, round);
      ReceiptConverges(e, base);
      if updated == candidate {
        FixedPointIsExact(e, base, updated);
        ExactCarriesOn(e, result, wallExceeded, updated);
        return Ok(updated);
      }
      candidate := updated;
    }
    r := Err("final receipt byte projection did not converge");
  }
}
