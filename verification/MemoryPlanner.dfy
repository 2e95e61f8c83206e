/** `plan_memory` of `memory.py`: which settings each policy proposes, and what it may not change. */
module MemoryPlanner {
  import opened Wrappers
  import opened Basics
  import opened NumberTheory
  import opened Collections
  import opened MemoryEstimate

  datatype Setting =
    Microbatch | Checkpointing | Offload | Precision | SelectiveCheckpointing | SequenceLength
    | OptimizerChoice | StateOffload | ExpertOffload | ParameterOffload

  // A change with the peaks before and after, or a remark that nothing was changed.
  datatype Decision = Changed(what: Setting, before: nat, after: nat) | Remarked(what: Setting)

  datatype Proposal = Proposal(config: Config, decisions: seq<Decision>, estimate: Estimate)
  datatype Failure = ConfigurationRejected

  /** The changes link up: each starts from the peak the one before it left. */
  predicate Ledger(decisions: seq<Decision>, start: nat, end: nat) {
    if decisions == [] then start == end
    else
      match decisions[|decisions| - 1]
      case Remarked(_) => Ledger(decisions[..|decisions| - 1], start, end)
      case Changed(_, before, after) =>
        after == end && Ledger(decisions[..|decisions| - 1], start, before)
  }

  function Effective(c: Config): nat {
    Product(c.training.micro, c.training.accumulation);
    c.training.micro * c.training.accumulation
  }

  /** How far the given estimate exceeds the plain one. */
  function Margin(c: Config, host: Runtime, given: Estimate): nat
    requires Ready(c)
  {
    Max(0, given.peak - EstimateMemory(c, host, None).peak)
  }

  function CandidateEstimate(c: Config, host: Runtime, margin: nat): Estimate
    requires Ready(c)
  {
    var after := EstimateMemory(c, host, None);
    if margin == 0 then after
    else
      var peak := after.peak + margin;
      after.(peak := peak, headroom := after.headroom + margin,
             verdict := if after.ceiling.Some? && peak > after.ceiling.value then LikelyToExceed
                        else after.verdict)
  }

  lemma CandidateIsSound(c: Config, host: Runtime, margin: nat)
    requires Ready(c)
    ensures Sound(CandidateEstimate(c, host, margin), c, host)
    ensures CandidateEstimate(c, host, margin).peak == Peak(c) + margin
  {
    EstimateIsSound(c, host, None);
  }

  /** What every proposal has in common with the configuration it was made for. */
  ghost predicate Descends(c: Config, config: Config) {
    && Ready(c) && c.model == config.model && Effective(c) == Effective(config)
    && c.memory == config.memory.(checkpointing := c.memory.checkpointing, offload := c.memory.offload)
    && (c.training.length == config.training.length || c.training.length in config.memory.lengths)
    && (c.optimizer == config.optimizer || c.optimizer in config.memory.optimizers)
  }

  /** The schema rejects something that could be proposed. */
  ghost predicate Rejects(accepts: Config -> bool, config: Config) {
    exists c :: Descends(c, config) && !accepts(c)
  }

  /** Every setting in which the two differ is one of `named`. */
  predicate Told(named: set<Setting>, before: Config, after: Config) {
    && (after.training.micro == before.training.micro || Microbatch in named)
    && (after.training.length == before.training.length || SequenceLength in named)
    && (after.memory.checkpointing == before.memory.checkpointing || Checkpointing in named)
    && (after.memory.offload == before.memory.offload || Offload in named)
    && (after.optimizer == before.optimizer || OptimizerChoice in named)
  }

  function Changes(decisions: seq<Decision>): set<Setting> {
    set d | d in decisions && d.Changed? :: d.what
  }

  /** One more change names one more setting and goes on from the peak that was reached. */
  lemma Recorded(decisions: seq<Decision>, what: Setting, start: nat, before: nat, after: nat)
    requires Ledger(decisions, start, before)
    ensures var more := decisions + [Changed(what, before, after)];
            Ledger(more, start, after) && Changes(more) == Changes(decisions) + {what}
  {
    var more := decisions + [Changed(what, before, after)];
    assert more[..|more| - 1] == decisions;
  }

  predicate Divisor(k: nat, n: nat) { k > 0 && n % k == 0 }

  lemma MicroDivides(c: Config)
    requires Ready(c)
    ensures Divisor(c.training.micro, Effective(c)) && c.training.micro <= Effective(c)
    ensures WithMicro(c, c.training.micro, Effective(c)) == c
  {
    PositiveMultiple(c.training.micro, c.training.accumulation);
    ModUnique(Effective(c), c.training.accumulation, 0, c.training.micro);
  }

  // ---------------------------------------------------------------- what fits

  // How the planner estimates a configuration it considers.
  type Weigher = Config -> Estimate

  /** The micro-batch `k`, keeping `n` sequences an update, is estimated to fit. */
  predicate FitsAt(weigh: Weigher, c: Config, k: nat, n: nat) {
    && k > 0
    && weigh(c.(training := c.training.(micro := k, accumulation := n / k))).verdict == LikelyToFit
  }

  /** No divisor of `n` strictly between `lo` and `hi` fits. */
  ghost predicate NoneFits(weigh: Weigher, c: Config, lo: int, hi: int, n: nat) {
    forall k: nat :: lo < k < hi && Divisor(k, n) ==> !FitsAt(weigh, c, k, n)
  }

  /** The sequence length is estimated to fit. */
  predicate LengthFits(weigh: Weigher, c: Config, length: nat) {
    weigh(c.(training := c.training.(length := length))).verdict == LikelyToFit
  }

  /** Checkpointing is switched on only where the engine is known to support it. */
  function Checkpointed(c: Config, host: Runtime, enabled: bool): Config {
    if enabled && !host.isPyTorch && !host.checkpointingTested then c
    else WithCheckpointing(c, enabled)
  }

  // ---------------------------------------------------------------- the planner

  class Planner {
    const config: Config
    const host: Runtime
    const given: Estimate
    const weigh: Weigher
    const accepts: Config -> bool
    var candidate: Config
    var current: Estimate
    var decisions: seq<Decision>

    /** The current estimate is the one given, or the one made for just this candidate. */
    ghost predicate Valid()
      reads this
    {
      && Ready(config) && Descends(candidate, config) && given.peak <= weigh(config).peak
      && ((candidate == config && current == given) || current == weigh(candidate))
      && Ledger(decisions, given.peak, current.peak)
      && Told(Changes(decisions), config, candidate)
    }

    constructor (config: Config, host: Runtime, given: Estimate, weigh: Weigher,
                 accepts: Config -> bool)
      requires Ready(config) && given.peak <= weigh(config).peak
      ensures Valid() && candidate == config && current == given && decisions == []
      ensures this.config == config && this.host == host && this.given == given
      ensures this.weigh == weigh && this.accepts == accepts
    {
      this.config, this.host, this.given, this.weigh := config, host, given, weigh;
      this.accepts := accepts;
      candidate, current, decisions := config, given, [];
    }

    method Remark(what: Setting)
      requires Valid()
      modifies this`decisions
      ensures Valid() && decisions == old(decisions) + [Remarked(what)]
    {
      decisions := decisions + [Remarked(what)];
    }

    /** Adopts `proposed` with its own estimate, unless it is the candidate or the schema rejects it. */
    method Consider(what: Setting, proposed: Config) returns (ok: bool)
      requires Valid() && Descends(proposed, config) && Told({what}, candidate, proposed)
      modifies this
      ensures ok <==> proposed == old(candidate) || accepts(proposed)
      ensures Valid()
      ensures ok ==> candidate == proposed
      ensures ok && proposed == old(candidate) ==> current == old(current) && decisions == old(decisions)
      ensures ok && proposed != old(candidate) ==> current == weigh(proposed)
      ensures ok && proposed != old(candidate) ==>
                decisions == old(decisions) + [Changed(what, old(current).peak, current.peak)]
      ensures ok || Rejects(accepts, config)
    {
      if proposed == candidate { return true; }
      if !accepts(proposed) { return false; }
      var after := weigh(proposed);
      var decision := Changed(what, current.peak, after.peak);
      Recorded(decisions, what, given.peak, current.peak, after.peak);
      decisions := decisions + [decision];
      candidate, current := proposed, after;
      ok := true;
    }

    method SetCheckpointing(enabled: bool) returns (ok: bool)
      requires Valid()
      modifies this
      ensures Valid()
      ensures ok ==> candidate == Checkpointed(old(candidate), host, enabled)
      ensures ok && candidate == old(candidate) ==> current == old(current)
      ensures ok || Rejects(accepts, config)
    {
      if candidate.memory.checkpointing == enabled { return true; }
      if enabled && !host.isPyTorch && !host.checkpointingTested {
        Remark(Checkpointing);
        return true;
      }
      ok := Consider(Checkpointing, WithCheckpointing(candidate, enabled));
    }

    /** Tries one micro-batch. */
    method SetMicrobatch(k: nat) returns (ok: bool)
      requires Valid() && Divisor(k, Effective(config))
      modifies this
      ensures Valid()
      ensures ok ==> candidate == WithMicro(old(candidate), k, Effective(config))
      ensures ok && k == old(candidate).training.micro ==> current == old(current)
      ensures ok && k != old(candidate).training.micro ==> current == weigh(candidate)
      ensures ok || Rejects(accepts, config)
    {
      var effective: nat := config.training.micro * config.training.accumulation;
      MicroDivides(candidate);
      ok := Consider(Microbatch, WithMicro(candidate, k, effective));
    }

    /** The largest micro-batch above the present one that fits, if any does. */
    method GrowMicrobatch() returns (ok: bool)
      requires Valid()
      modifies this
      ensures Valid()
      ensures ok ==> candidate.training.micro >= old(candidate).training.micro
      ensures ok ==> candidate == WithMicro(old(candidate), candidate.training.micro, Effective(config))
      ensures ok ==> NoneFits(weigh, old(candidate), candidate.training.micro, Effective(config) + 1,
                              Effective(config))
      ensures ok && candidate.training.micro > old(candidate).training.micro ==>
                current.verdict == LikelyToFit
      ensures ok || Rejects(accepts, config)
    {
      var effective: nat := Effective(config);
      var start := candidate.training.micro;
      MicroDivides(candidate);
      for k := effective + 1 downto start + 1
        invariant Valid() && candidate == old(candidate)
        invariant NoneFits(weigh, candidate, k - 1, effective + 1, effective)
      {
        if effective % k == 0 {
          if weigh(WithMicro(candidate, k, effective)).verdict == LikelyToFit {
            ok := SetMicrobatch(k);
            return;
          }
        }
      }
      ok := true;
    }

    /** Recomputation and offloading off, then the largest micro-batch that fits. */
    ghost predicate Fastest()
      requires Ready(config)
      reads this
    {
      var base := WithOffload(WithCheckpointing(config, false), false);
      && candidate.training.micro >= config.training.micro
      && candidate == WithMicro(base, candidate.training.micro, Effective(config))
      && NoneFits(weigh, base, candidate.training.micro, Effective(config) + 1, Effective(config))
      && (candidate.training.micro > config.training.micro ==> current.verdict == LikelyToFit)
      && !candidate.memory.checkpointing && !candidate.memory.offload
    }

    method PlanFast() returns (ok: bool)
      requires Valid() && candidate == config
      modifies this
      ensures Valid() && (ok ==> Fastest())
      ensures ok || Rejects(accepts, config)
    {
      ok := SetCheckpointing(false);
      if !ok { return; }
      if candidate.memory.offload {
        ok := Consider(Offload, WithOffload(candidate, false));
        if !ok { return; }
      }
      ok := GrowMicrobatch();
    }

    /** Goes down the divisors of the effective batch to the first that fits. */
    method ShrinkToFit() returns (ok: bool)
      requires Valid() && current.verdict != LikelyToFit
      modifies this
      ensures Valid()
      ensures ok ==> candidate.training.micro <= old(candidate).training.micro
      ensures ok ==> candidate == WithMicro(old(candidate), candidate.training.micro, Effective(config))
      ensures ok ==> NoneFits(weigh, old(candidate), candidate.training.micro,
                              old(candidate).training.micro, Effective(config))
      ensures ok ==> current.verdict == LikelyToFit || candidate.training.micro == 1
      ensures ok && candidate == old(candidate) ==> current == old(current)
      ensures ok || Rejects(accepts, config)
    {
      var effective: nat := Effective(config);
      ghost var base := candidate;
      var start := candidate.training.micro;
      MicroDivides(candidate);
      for k := start downto 1
        invariant Valid() && k <= candidate.training.micro <= start
        invariant candidate == WithMicro(base, candidate.training.micro, effective)
        invariant NoneFits(weigh, base, k - 1, start, effective)
        invariant current.verdict != LikelyToFit && (k == 1 ==> candidate.training.micro == 1)
        invariant candidate == base ==> current == old(current)
      {
        if effective % k == 0 {
          ok := SetMicrobatch(k);
          if !ok || current.verdict == LikelyToFit { return; }
        }
      }
      ok := true;
    }

    method TryLength(length: nat) returns (ok: bool)
      requires Valid() && length in config.memory.lengths && 0 < length < candidate.training.length
      modifies this
      ensures Valid()
      ensures ok ==> candidate == WithLength(old(candidate), length) && current == weigh(candidate)
      ensures ok || Rejects(accepts, config)
    {
      ok := Consider(SequenceLength, WithLength(candidate, length));
    }

    /** Of the allowed lengths, those from the `i`-th on were too long or did not fit. */
    ghost predicate Passed(base: Config, lengths: seq<int>, i: nat) {
      forall j :: i <= j < |lengths| && 0 <= lengths[j] < base.training.length ==>
                    !LengthFits(weigh, base, lengths[j])
    }

    /** Goes down the lengths the user allows to the first that fits. */
    method ShortenToFit() returns (ok: bool)
      requires Valid() && current.verdict != LikelyToFit
      requires forall l :: l in config.memory.lengths ==> l > 0
      modifies this
      ensures Valid()
      ensures ok ==> candidate.training.length <= old(candidate).training.length
      ensures ok ==> candidate == WithLength(old(candidate), candidate.training.length)
      ensures ok ==> Shortened(weigh, old(candidate), candidate, current.verdict)
      ensures ok && candidate == old(candidate) ==> current == old(current)
      ensures ok || Rejects(accepts, config)
    {
      var lengths := Sorted(set l | l in config.memory.lengths);
      ghost var base := candidate;
      assert forall l :: l in config.memory.lengths <==> l in Elements(lengths);
      for i := |lengths| downto 0
        invariant Valid() && candidate == WithLength(base, candidate.training.length)
        invariant candidate.training.length <= base.training.length
        invariant current.verdict != LikelyToFit && Passed(base, lengths, i)
        invariant candidate == base ==> current == old(current)
        invariant forall j :: i <= j < |lengths| ==> lengths[j] >= candidate.training.length
        invariant forall j :: 0 <= j < i && lengths[j] < base.training.length ==>
                                lengths[j] < candidate.training.length
      {
        assert lengths[i] in Elements(lengths);
        if lengths[i] < candidate.training.length {
          ok := TryLength(lengths[i]);
          if !ok || current.verdict == LikelyToFit { return; }
        }
      }
      ok := true;
    }

    /** Switches only if that lowers the peak. */
    method TryOptimizer(optimizer: Optimizer) returns (ok: bool)
      requires Valid() && optimizer in config.memory.optimizers && optimizer != candidate.optimizer
      modifies this
      ensures Valid()
      ensures ok ==> candidate == WithOptimizer(old(candidate), candidate.optimizer)
      ensures ok ==> current.peak <= old(current).peak
      ensures ok ==> current.peak <= weigh(WithOptimizer(old(candidate), optimizer)).peak
      ensures ok || Rejects(accepts, config)
    {
      var proposed := WithOptimizer(candidate, optimizer);
      if !accepts(proposed) { return false; }
      if weigh(proposed).peak >= current.peak { return true; }
      ok := Consider(OptimizerChoice, proposed);
    }

    /** Unless it comes to fit, no optimizer the user allows would need less than the one it leaves. */
    method ChangeOptimizer() returns (ok: bool)
      requires Valid()
      modifies this
      ensures Valid()
      ensures ok ==> candidate == WithOptimizer(old(candidate), candidate.optimizer)
      ensures ok ==> current.peak <= old(current).peak
      ensures ok && host.isPyTorch && current.verdict != LikelyToFit ==>
                Cheapest(weigh, old(candidate), config.memory.optimizers, current.peak)
      ensures ok || Rejects(accepts, config)
    {
      ghost var base := candidate;
      for i := 0 to |config.memory.optimizers|
        invariant Valid() && candidate == WithOptimizer(base, candidate.optimizer)
        invariant current.peak <= old(current).peak
        invariant host.isPyTorch ==> Cheapest(weigh, base, config.memory.optimizers[..i], current.peak)
      {
        var optimizer := config.memory.optimizers[i];
        assert config.memory.optimizers[..i + 1] == config.memory.optimizers[..i] + [optimizer];
        if optimizer == candidate.optimizer { continue; }
        if !host.isPyTorch { Remark(OptimizerChoice); continue; }
        ok := TryOptimizer(optimizer);
        if !ok || current.verdict == LikelyToFit { return; }
      }
      assert config.memory.optimizers[..|config.memory.optimizers|] == config.memory.optimizers;
      ok := true;
    }

    /** Micro-batch first, then checkpointing if that was not enough. */
    method Reduce() returns (ok: bool)
      requires Valid() && candidate == config && current == given && given.verdict != LikelyToFit
      modifies this
      ensures Valid() && (ok ==> Reduced(weigh, config, candidate, host))
      ensures ok && candidate == config ==> current == given
      ensures ok || Rejects(accepts, config)
    {
      ok := ShrinkToFit();
      if !ok || current.verdict == LikelyToFit { return; }
      ok := SetCheckpointing(true);
    }

    method PlanLowMemory() returns (ok: bool)
      requires Valid() && candidate == config
      modifies this
      ensures Valid()
      ensures ok ==> Minimal(config, candidate, host)
      ensures ok || Rejects(accepts, config)
    {
      ok := SetMicrobatch(1);
      if !ok { return; }
      ok := SetCheckpointing(true);
      if !ok { return; }
      if candidate.memory.offload || current.verdict != LikelyToFit { Remark(Offload); }
    }

    method PlanBalanced() returns (ok: bool)
      requires Valid() && candidate == config && current == given
      modifies this
      ensures Valid()
      ensures given.verdict == LikelyToFit ==> ok && candidate == config && current == given
      ensures ok && given.verdict != LikelyToFit ==> Reduced(weigh, config, candidate, host)
      ensures ok || Rejects(accepts, config)
    {
      ok := true;
      if current.verdict != LikelyToFit {
        ok := Reduce();
        if !ok { return; }
      }
      if candidate.memory.offload { Remark(Offload); }
    }

    /** `reduced` is where the milder measures ended, `stage` where only the optimizer was left. */
    method PlanMaxFit() returns (ok: bool, ghost reduced: Config, ghost stage: Config)
      requires Valid() && candidate == config && current == given
      requires forall l :: l in config.memory.lengths ==> l > 0
      modifies this
      ensures Valid()
      ensures given.verdict == LikelyToFit ==> ok && candidate == config && current == given
      ensures ok && given.verdict != LikelyToFit ==> Reduced(weigh, config, reduced, host)
      ensures ok && given.verdict != LikelyToFit ==>
                Stretched(weigh, given, config, reduced, stage, candidate, current, host.isPyTorch)
      ensures ok || Rejects(accepts, config)
    {
      reduced, stage := config, config;
      if current.verdict == LikelyToFit {
        if candidate.memory.offload { Remark(Offload); }
        return true, reduced, stage;
      }
      Remark(Precision);
      Remark(Precision);
      ok := Reduce();
      reduced, stage := candidate, candidate;
      if !ok { return; }
      ok := Shorten();
      stage := candidate;
      if !ok { return; }
      ok := LastResort();
    }

    method Shorten() returns (ok: bool)
      requires Valid()
      requires forall l :: l in config.memory.lengths ==> l > 0
      modifies this
      ensures Valid()
      ensures ok ==> candidate.training.length <= old(candidate).training.length
      ensures ok ==> candidate == WithLength(old(candidate), candidate.training.length)
      ensures ok ==> Shortened(weigh, old(candidate), candidate, current.verdict)
      ensures ok && candidate == old(candidate) ==> current == old(current)
      ensures ok || Rejects(accepts, config)
    {
      if current.verdict == LikelyToFit { return true; }
      Remark(SelectiveCheckpointing);
      ok := ShortenToFit();
    }

    method LastResort() returns (ok: bool)
      requires Valid()
      modifies this
      ensures Valid()
      ensures ok ==> candidate == WithOptimizer(old(candidate), candidate.optimizer)
      ensures ok ==> current.peak <= old(current).peak
      ensures old(current).verdict == LikelyToFit ==>
                ok && candidate == old(candidate) && current == old(current)
      ensures ok && host.isPyTorch && current.verdict != LikelyToFit ==>
                Cheapest(weigh, old(candidate), config.memory.optimizers, current.peak)
      ensures ok || Rejects(accepts, config)
    {
      if candidate.memory.offload || current.verdict != LikelyToFit { Remark(Offload); }
      if current.verdict == LikelyToFit { return true; }
      ok := ChangeOptimizer();
      if ok && current.verdict != LikelyToFit {
        Remark(StateOffload);
        Remark(ExpertOffload);
        Remark(ParameterOffload);
      }
    }
  }

  /** The largest smaller micro-batch that fits; if none does the smallest, checkpointed. */
  ghost predicate Reduced(weigh: Weigher, before: Config, after: Config, host: Runtime) {
    Product(before.training.micro, before.training.accumulation);
    var n: nat, m := Effective(before), after.training.micro;
    && m <= before.training.micro && NoneFits(weigh, before, m, before.training.micro, n)
    && ((m > 0 && after == WithMicro(before, m, n) && FitsAt(weigh, before, m, n))
        || after == Checkpointed(WithMicro(before, 1, n), host, true))
  }

  /** Micro-batch 1, checkpointed wherever that is supported. */
  predicate Minimal(before: Config, after: Config, host: Runtime)
    requires Ready(before)
  {
    && after == Smallest(before, host) && after.training.micro == 1
    && (after.memory.checkpointing <==>
          before.memory.checkpointing || host.isPyTorch || host.checkpointingTested)
  }

  /** A shorter sequence only if nothing milder fits, another optimizer only if no length does. */
  ghost predicate Stretched(weigh: Weigher, given: Estimate, config: Config, reduced: Config,
                            stage: Config, after: Config, estimate: Estimate, isPyTorch: bool)
  {
    var staged := if stage == config then given else weigh(stage);
    && stage == WithLength(reduced, stage.training.length)
    && stage.training.length <= reduced.training.length
    && after == WithOptimizer(stage, after.optimizer)
    && Shortened(weigh, reduced, stage, staged.verdict)
    && (staged.verdict == LikelyToFit ==> after == stage)
    && estimate.peak <= weigh(stage).peak
    && (estimate.verdict != LikelyToFit && isPyTorch ==>
          Cheapest(weigh, stage, stage.memory.optimizers, estimate.peak))
  }

  /** The first allowed length, from the longest down, that fits; or else the shortest. */
  ghost predicate Shortened(weigh: Weigher, before: Config, after: Config, verdict: Verdict) {
    var lengths := before.memory.lengths;
    && (forall l :: l in lengths && after.training.length < l < before.training.length ==>
                      !LengthFits(weigh, before, l))
    && (verdict == LikelyToFit || forall l :: l in lengths ==> l >= after.training.length)
  }

  ghost predicate Cheapest(weigh: Weigher, c: Config, optimizers: seq<Optimizer>, peak: nat) {
    forall o :: o in optimizers ==> peak <= weigh(c.(optimizer := o)).peak
  }

  // ---------------------------------------------------------------- what plans do to the peak

  /** Checkpointing is all that is left to try, and costs more than it saves. */
  predicate OnlyCheckpoints(c: Config, host: Runtime) {
    && c.model.layers == 1 && c.training.micro == 1 && !c.memory.checkpointing
    && (host.isPyTorch || host.checkpointingTested)
  }

  /** Micro-batch 1 with checkpointing: all that `low_memory` does, the last that others do. */
  function Smallest(c: Config, host: Runtime): Config
    requires Ready(c)
  {
    Checkpointed(WithMicro(c, 1, Effective(c)), host, true)
  }

  lemma CheckpointedPeak(c: Config, host: Runtime)
    requires Ready(c)
    ensures Peak(Checkpointed(c, host, true)) > Peak(c) <==>
            c.model.layers == 1 && !c.memory.checkpointing
            && (host.isPyTorch || host.checkpointingTested)
  {
    CheckpointingLowersExactly(c);
    assert c == WithCheckpointing(c, c.memory.checkpointing);
  }

  /** The smallest configuration needs more than the given one exactly if it only checkpoints. */
  lemma SmallestNeedsMoreExactly(c: Config, host: Runtime)
    requires Ready(c)
    ensures Ready(Smallest(c, host))
    ensures Peak(Smallest(c, host)) > Peak(c) <==> OnlyCheckpoints(c, host)
  {
    var one := WithMicro(c, 1, Effective(c));
    SmallerBatchNeedsLess(one, c);
    CheckpointedPeak(one, host);
    if c.training.micro >= 2 && c.model.layers == 1 && Smallest(c, host).memory.checkpointing
       && !c.memory.checkpointing {
      HalfBatchPaysForCheckpointing(Smallest(c, host), c);
    }
  }

  /** So does what `balanced` reduces to. */
  lemma ReducedNeedsMore(weigh: Weigher, before: Config, after: Config, host: Runtime)
    requires Ready(before) && Ready(after) && Reduced(weigh, before, after, host)
    ensures Peak(after) > Peak(before) ==> OnlyCheckpoints(before, host)
    ensures OnlyCheckpoints(before, host) && weigh(before).verdict != LikelyToFit ==>
              Peak(after) > Peak(before)
  {
    SmallestNeedsMoreExactly(before, host);
    if after == WithMicro(before, after.training.micro, Effective(before)) {
      SmallerBatchNeedsLess(after, before);
    }
  }

  // ---------------------------------------------------------------- the plan

  function WeigherFor(config: Config, host: Runtime, given: Estimate): Weigher
    requires Ready(config)
  {
    var margin := Margin(config, host, given);
    c => if Ready(c) then CandidateEstimate(c, host, margin) else given
  }

  /** Keeps the batch, changes nothing unasked, and carries the estimate that is its own. */
  ghost predicate Justified(p: Proposal, config: Config, host: Runtime, given: Estimate)
    requires Ready(config)
  {
    && Descends(p.config, config) && Sound(p.estimate, p.config, host)
    && ((p.config == config && p.estimate == given)
        || p.estimate == CandidateEstimate(p.config, host, Margin(config, host, given)))
    && Ledger(p.decisions, given.peak, p.estimate.peak)
    && Told(Changes(p.decisions), config, p.config)
  }

  lemma GivenIsNoMore(config: Config, host: Runtime, given: Estimate)
    requires Ready(config)
    ensures given.peak <= WeigherFor(config, host, given)(config).peak
    ensures given.peak >= Peak(config) ==> given.peak == Peak(config) + Margin(config, host, given)
  {
    CandidateIsSound(config, host, Margin(config, host, given));
    EstimateIsSound(config, host, None);
  }

  /**
    What a plan does to the estimated peak. It is raised exactly where nothing but checkpointing a
    single layer is left to do; `max_fit` may then still come down again, and `fast` is free to
    grow the micro-batch as far as it fits.
   */
  predicate Spends(p: Proposal, config: Config, host: Runtime, given: Estimate) {
    match config.memory.policy
    case Fast => true
    case LowMemory => p.estimate.peak > given.peak <==> OnlyCheckpoints(config, host)
    case Balanced =>
      p.estimate.peak > given.peak <==>
      given.verdict != LikelyToFit && OnlyCheckpoints(config, host)
    case MaxFit =>
      p.estimate.peak > given.peak ==>
      given.verdict != LikelyToFit && OnlyCheckpoints(config, host)
  }

  method PlanMemory(config: Config, host: Runtime, given: Estimate, accepts: Config -> bool)
    returns (r: Result<Proposal, Failure>)
    requires Ready(config) && Sound(given, config, host)
    requires forall l :: l in config.memory.lengths ==> l > 0
    ensures r.Ok? ==> Justified(r.value, config, host, given)
    ensures r.Ok? ==> Follows(r.value, config, host, given)
    ensures r.Ok? && given.peak >= Peak(config) ==> Spends(r.value, config, host, given)
    ensures r.Ok? || Rejects(accepts, config)
  {
    var weigh := WeigherFor(config, host, given);
    GivenIsNoMore(config, host, given);
    var planner := new Planner(config, host, given, weigh, accepts);
    var ok;
    ghost var reduced, stage;
    match config.memory.policy {
      case Fast => ok := planner.PlanFast();
      case LowMemory => ok := planner.PlanLowMemory();
      case Balanced => ok := planner.PlanBalanced();
      case MaxFit => ok, reduced, stage := planner.PlanMaxFit();
    }
    if !ok { return Err(ConfigurationRejected); }
    r := Ok(Proposal(planner.candidate, planner.decisions, planner.current));
    assert Justified(r.value, config, host, given) by {
      CandidateIsSound(planner.candidate, host, Margin(config, host, given));
    }
    assert Follows(r.value, config, host, given);
    if given.peak >= Peak(config) { PeakRisesExactly(r.value, config, host, given); }
  }

  /** What each policy promises. */
  ghost predicate Follows(p: Proposal, config: Config, host: Runtime, given: Estimate)
    requires Ready(config)
  {
    var weigh := WeigherFor(config, host, given);
    var n := Effective(config);
    match config.memory.policy
    case Fast =>
      var base := WithOffload(WithCheckpointing(config, false), false);
      && p.config.training.micro >= config.training.micro
      && p.config == WithMicro(base, p.config.training.micro, n)
      && NoneFits(weigh, base, p.config.training.micro, n + 1, n)
      && (p.config.training.micro > config.training.micro ==> p.estimate.verdict == LikelyToFit)
      && !p.config.memory.checkpointing && !p.config.memory.offload
    case LowMemory => Minimal(config, p.config, host)
    case Balanced =>
      if given.verdict == LikelyToFit then p.config == config && p.estimate == given
      else Reduced(weigh, config, p.config, host)
    case MaxFit =>
      if given.verdict == LikelyToFit then p.config == config && p.estimate == given
      else exists reduced, stage :: Reduced(weigh, config, reduced, host)
             && Stretched(weigh, given, config, reduced, stage, p.config, p.estimate, host.isPyTorch)
  }

  lemma WeighedPeak(c: Config, config: Config, host: Runtime, given: Estimate)
    requires Ready(c) && Ready(config)
    ensures WeigherFor(config, host, given)(c).peak == Peak(c) + Margin(config, host, given)
  {
    CandidateIsSound(c, host, Margin(config, host, given));
  }

  lemma StretchedNeedsLess(reduced: Config, stage: Config, after: Config)
    requires Ready(after) && after == WithOptimizer(stage, after.optimizer)
    requires stage == WithLength(reduced, stage.training.length)
    requires stage.training.length <= reduced.training.length
    ensures Ready(stage) && Ready(reduced) && Peak(stage) <= Peak(reduced)
  {
    SmallerBatchNeedsLess(stage, reduced);
  }

  /** Whatever method made the plan: following its policy is enough. */
  lemma PeakRisesExactly(p: Proposal, config: Config, host: Runtime, given: Estimate)
    requires Ready(config) && Sound(given, config, host) && given.peak >= Peak(config)
    requires Justified(p, config, host, given) && Follows(p, config, host, given)
    ensures Spends(p, config, host, given)
  {
    var weigh := WeigherFor(config, host, given);
    GivenIsNoMore(config, host, given);
    WeighedPeak(p.config, config, host, given);
    CandidateIsSound(config, host, Margin(config, host, given));
    match config.memory.policy {
      case Fast =>
      case LowMemory => SmallestNeedsMoreExactly(config, host);
      case Balanced =>
        if given.verdict != LikelyToFit { ReducedNeedsMore(weigh, config, p.config, host); }
      case MaxFit =>
        if given.verdict != LikelyToFit {
          var reduced, stage :| Reduced(weigh, config, reduced, host)
            && Stretched(weigh, given, config, reduced, stage, p.config, p.estimate, host.isPyTorch);
          StretchedNeedsLess(reduced, stage, p.config);
          ReducedNeedsMore(weigh, config, reduced, host);
          WeighedPeak(stage, config, host, given);
        }
    }
  }
}
