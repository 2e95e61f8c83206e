/** `host_capacity.py`: how many workers the host can carry, and running them in order. */
module HostCapacity {
  import opened Wrappers
  import opened Basics
  import opened NumberTheory

  // ---------------------------------------------------------------- the plan

  const ShaWorkerBytes: nat := 8 * 1024 * 1024

  datatype Counts = Unobserved | Counted(logical: Option<int>, physical: Option<int>)
  datatype Memory = Unmeasured | Measured(available: int, total: int)
  datatype Host = Host(counts: Counts, affinity: Option<int>, memory: Memory)
  datatype Request =
    Request(operation: string, workerMemory: int, reserve: int, operatorCap: Option<int>)
  datatype Refusal = BadArgument | MemoryUnknown | InadequateMemory

  function Positive(value: Option<int>): Option<int> {
    if value.Some? && value.value > 0 then value else None
  }

  function Or(a: Option<int>, b: Option<int>): Option<int> { if a.Some? then a else b }

  /** The processors a process may use: the fewer of its affinity and the cores, else one. */
  function CpuBound(host: Host): int {
    var cores := match host.counts
      case Unobserved => None
      case Counted(logical, physical) => Or(Positive(physical), Positive(logical));
    var affinity := Positive(host.affinity);
    if affinity.Some? && cores.Some? then Min(affinity.value, cores.value)
    else if affinity.Some? then affinity.value
    else if cores.Some? then cores.value
    else 1
  }

  /** A measured zero is known; a negative reading is not. */
  function Available(host: Host): Option<int> {
    match host.memory
    case Unmeasured => None
    case Measured(available, _) => if available >= 0 then Some(available) else None
  }

  predicate WellFormed(q: Request) {
    && q.operation != "" && q.workerMemory > 0 && q.reserve > 0
    && (q.operatorCap.Some? ==> q.operatorCap.value > 0)
  }

  function PlanWorkers(q: Request, host: Host): Result<int, Refusal> {
    var cpu := CpuBound(host);
    if !WellFormed(q) then Err(BadArgument)
    else match Available(host)
      case None =>
        if q.operation != "sha256" || q.workerMemory > ShaWorkerBytes then Err(MemoryUnknown)
        else Ok(1)
      case Some(available) =>
        var memory := (available - q.reserve) / q.workerMemory;
        if memory < 1 then Err(InadequateMemory)
        else Ok(Min(cpu, Min(memory, Or(q.operatorCap, Some(cpu)).value)))
  }

  predicate Knows(value: Option<int>) { value.Some? && value.value > 0 }

  /** No more than the processors of the affinity, nor than the cores; one if neither is known. */
  predicate WithinCpus(workers: int, host: Host) {
    var physical := host.counts.Counted? && Knows(host.counts.physical);
    var logical := host.counts.Counted? && Knows(host.counts.logical);
    && (Knows(host.affinity) ==> workers <= host.affinity.value)
    && (physical ==> workers <= host.counts.physical.value)
    && (!physical && logical ==> workers <= host.counts.logical.value)
    && (!Knows(host.affinity) && !physical && !logical ==> workers <= 1)
  }

  /** `workers` break no bound the host and the request set. */
  ghost predicate Fits(workers: int, q: Request, host: Host) {
    && 1 <= workers && WithinCpus(workers, host)
    && (q.operatorCap.Some? ==> workers <= q.operatorCap.value)
    && (if HasReading(host) then workers * q.workerMemory + q.reserve <= host.memory.available
        else workers == 1 && HashesSmall(q))
  }

  predicate HasReading(host: Host) { host.memory.Measured? && host.memory.available >= 0 }

  predicate HashesSmall(q: Request) { q.operation == "sha256" && q.workerMemory <= 8 * 1024 * 1024 }

  lemma FloorFits(space: int, size: int, workers: int)
    requires size > 0
    ensures workers <= space / size <==> workers * size <= space
  {
    var q := space / size;
    assert space == size * q + space % size;
    if workers <= q {
      Product(size, q - workers);
      assert size * (q - workers) == size * q - workers * size;
    } else {
      PositiveMultiple(size, workers - q);
      assert size * (workers - q) == workers * size - size * q;
    }
  }

  /** A plan fits, is the largest that does, and is refused only when none does. */
  lemma PlanIsLargestThatFits(q: Request, host: Host, workers: int)
    requires WellFormed(q)
    ensures PlanWorkers(q, host).Ok? && workers <= PlanWorkers(q, host).value && workers >= 1 <==>
            Fits(workers, q, host)
  {
    if Available(host).Some? {
      FloorFits(Available(host).value - q.reserve, q.workerMemory, workers);
    }
  }

  /** Each refusal is given exactly for its own reason, in this order. */
  lemma RefusalsAreExact(q: Request, host: Host)
    ensures PlanWorkers(q, host) == Err(BadArgument) <==>
            q.operation == "" || q.workerMemory <= 0 || q.reserve <= 0
            || (q.operatorCap.Some? && q.operatorCap.value <= 0)
    ensures PlanWorkers(q, host) == Err(MemoryUnknown) <==>
            WellFormed(q) && !HasReading(host) && !HashesSmall(q)
    ensures PlanWorkers(q, host) == Err(InadequateMemory) <==>
            WellFormed(q) && HasReading(host) && q.workerMemory + q.reserve > host.memory.available
  {
    if WellFormed(q) && HasReading(host) {
      FloorFits(host.memory.available - q.reserve, q.workerMemory, 1);
    }
  }

  function ShaRequest(host: Host, operatorCap: int): Request {
    var total := if host.memory.Measured? && host.memory.total > 0 then host.memory.total else 0;
    var tenth := total / 10;
    Request("sha256", ShaWorkerBytes, if tenth > 0x4000_0000 then tenth else 0x4000_0000,
            Some(operatorCap))
  }

  /** The default plan is one worker, unless 8 MiB do not fit beside a GiB and a tenth of memory. */
  lemma ShaPlanIsSerial(host: Host)
    ensures PlanWorkers(ShaRequest(host, 1), host)
         == if HasReading(host) && (host.memory.available < 1032 * 1024 * 1024
                                    || host.memory.available < 8 * 1024 * 1024 + host.memory.total / 10)
            then Err(InadequateMemory) else Ok(1)
  {
    var q := ShaRequest(host, 1);
    RefusalsAreExact(q, host);
    PlanIsLargestThatFits(q, host, 1);
    PlanIsLargestThatFits(q, host, 2);
  }
}
