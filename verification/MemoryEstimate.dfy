/** `estimate_memory` and the ceilings of `memory.py`, in exact arithmetic. */
module MemoryEstimate {
  import opened Wrappers
  import opened Basics
  import opened NumberTheory

  const MiB: nat := 1024 * 1024

  // ---------------------------------------------------------------- configuration and host

  datatype Tensor = Tensor(shape: seq<nat>, trainable: bool, alias: bool)
  datatype Attention = Dense | SlidingWindow | Mla(latent: nat) | BlockSparse
  datatype Feed = DenseFeed | Experts(count: nat, perToken: nat, shared: bool)
  datatype Recall = NoRecall | Ngram(orders: nat, hashHeads: nat) | OtherRecall
  datatype Optimizer = AdamW | Adafactor
  datatype Policy = Fast | Balanced | LowMemory | MaxFit

  datatype Model =
    Model(vocab: nat, hidden: nat, layers: nat, heads: nat, kvHeads: Option<nat>, feedWidth: nat,
          context: nat, attention: Attention, feed: Feed, recall: Recall, tensors: seq<Tensor>)

  datatype Training = Training(micro: nat, accumulation: nat, length: nat)

  // A floating-point fraction is a ratio of integers.
  type Denominator = n: int | n > 0 witness 1
  datatype Fraction = Fraction(num: nat, den: Denominator)

  datatype Settings =
    Settings(policy: Policy, share: Fraction, budget: Option<nat>, checkpointing: bool, offload: bool,
             lengths: seq<nat>, optimizers: seq<Optimizer>)

  datatype Config = Config(model: Model, training: Training, optimizer: Optimizer, memory: Settings)

  datatype Backend = Cpu | Discrete | Unified | UnknownBackend
  datatype Runtime =
    Runtime(backend: Backend, isPyTorch: bool, checkpointingTested: bool,
            systemTotal: Option<nat>, systemAvailable: Option<nat>,
            deviceTotal: Option<nat>, deviceFree: Option<nat>,
            deviceRecommended: Option<nat>, driverAllocated: Option<nat>)

  datatype Verdict = LikelyToFit | LikelyToExceed | Unknown

  datatype Estimate =
    Estimate(verdict: Verdict, peak: nat, ceiling: Option<nat>, weights: nat, buffers: nat,
             gradients: nat, optimizer: nat, activations: nat, attention: nat, workspace: nat,
             headroom: nat)

  /** What schema validation guarantees of the dimensions used here. */
  predicate Sized(c: Config) {
    && c.model.vocab > 0 && c.model.hidden > 0 && c.model.layers > 0 && c.model.heads > 0
    && c.model.feedWidth > 0 && c.training.micro > 0 && c.training.accumulation > 0
    && c.training.length > 0
  }

  // ---------------------------------------------------------------- the ceiling

  /** `int(fraction * total)`. */
  function Part(f: Fraction, total: nat): int { f.num * total / f.den }

  function PhysicalCeiling(c: Config, host: Runtime): Option<nat> {
    var share := c.memory.share;
    match host.backend
    case Cpu =>
      if host.systemTotal.None? || host.systemAvailable.None? then None
      else Some(Max(0, Min(Part(share, host.systemTotal.value), host.systemAvailable.value)))
    case Discrete =>
      if host.deviceTotal.None? || host.deviceFree.None? then None
      else Some(Max(0, Min(Part(share, host.deviceTotal.value), host.deviceFree.value)))
    case Unified =>
      if host.deviceRecommended.None? || host.systemAvailable.None? || host.driverAllocated.None?
      then None
      else Some(Max(0, Min(Part(share, host.deviceRecommended.value) - host.driverAllocated.value,
                           host.systemAvailable.value)))
    case UnknownBackend => None
  }

  function Ceiling(c: Config, host: Runtime): Option<nat> {
    var physical := PhysicalCeiling(c, host);
    if physical.Some? && c.memory.budget.Some? then Some(Min(physical.value, c.memory.budget.value))
    else if physical.Some? then physical
    else c.memory.budget
  }

  /** A budget can refuse a peak, but only a physical ceiling can admit one. */
  function Judge(c: Config, host: Runtime, peak: nat): Verdict {
    if PhysicalCeiling(c, host).None? then
      if c.memory.budget.Some? && peak > c.memory.budget.value then LikelyToExceed else Unknown
    else if peak <= Ceiling(c, host).value then LikelyToFit
    else LikelyToExceed
  }

  // ---------------------------------------------------------------- what does not depend on the batch

  function Numel(shape: seq<nat>): nat { if shape == [] then 1 else shape[0] * Numel(shape[1..]) }

  function Stored(tensors: seq<Tensor>): nat {
    if tensors == [] then 0
    else (if tensors[0].alias then 0 else Numel(tensors[0].shape)) + Stored(tensors[1..])
  }

  predicate Learns(tensor: Tensor) { tensor.trainable && !tensor.alias }

  function Trainable(tensors: seq<Tensor>): nat {
    if tensors == [] then 0
    else (if Learns(tensors[0]) then Numel(tensors[0].shape) else 0) + Trainable(tensors[1..])
  }

  function Steps(tensors: seq<Tensor>): nat {
    if tensors == [] then 0 else (if Learns(tensors[0]) then 1 else 0) + Steps(tensors[1..])
  }

  predicate Solid(tensor: Tensor) { forall i :: 0 <= i < |tensor.shape| ==> tensor.shape[i] > 0 }

  predicate AllSolid(tensors: seq<Tensor>) { forall i :: 0 <= i < |tensors| ==> Solid(tensors[i]) }

  /** Row and column factors of a matrix, the whole of a vector. */
  function Factors(tensor: Tensor): nat
    requires Solid(tensor)
  {
    var rank := |tensor.shape|;
    var n := Numel(tensor.shape);
    if rank >= 2 then n / tensor.shape[rank - 1] + n / tensor.shape[rank - 2] else n
  }

  function AdafactorState(tensors: seq<Tensor>): nat
    requires AllSolid(tensors)
  {
    if tensors == [] then 0
    else (if Learns(tensors[0]) then 4 * (Factors(tensors[0]) + 1) else 0)
         + AdafactorState(tensors[1..])
  }

  function OptimizerState(optimizer: Optimizer, tensors: seq<Tensor>): nat
    requires AllSolid(tensors)
  {
    match optimizer
    case AdamW => Trainable(tensors) * 8 + Steps(tensors) * 4
    case Adafactor => AdafactorState(tensors)
  }

  lemma Smaller(n: nat, k: nat)
    requires k > 0
    ensures n / k <= n
  {
    var q := n / k;
    assert n == k * q + n % k;
    if q > 0 { PositiveMultiple(q, k); }
  }

  /** Adafactor never stores more than AdamW. */
  lemma {:induction false} AdafactorStoresLess(tensors: seq<Tensor>)
    requires AllSolid(tensors)
    ensures OptimizerState(Adafactor, tensors) <= OptimizerState(AdamW, tensors)
  {
    if tensors != [] {
      var shape := tensors[0].shape;
      AdafactorStoresLess(tensors[1..]);
      if |shape| >= 2 {
        Smaller(Numel(shape), shape[|shape| - 1]);
        Smaller(Numel(shape), shape[|shape| - 2]);
      }
    }
  }

  // ---------------------------------------------------------------- what grows with it

  function Buffers(c: Config): nat
    requires Sized(c)
  {
    var head := c.model.hidden / c.model.heads;
    var mask := if c.model.attention.BlockSparse? then 0 else c.model.context * c.model.context;
    var rope := 4 * (head / 2 + c.training.length * head);
    Product(c.training.length, head);
    Product(c.model.layers, mask + rope);
    c.model.layers * (mask + rope)
  }

  /** Tokens of one micro-batch. */
  function Tokens(c: Config): nat {
    Product(c.training.micro, c.training.length);
    c.training.micro * c.training.length
  }

  function FeedPerToken(m: Model): nat {
    match m.feed
    case DenseFeed => 4 * 6 * m.hidden + 4 * 3 * m.feedWidth
    case Experts(count, perToken, shared) =>
      var direct := perToken + (if shared then 1 else 0);
      Product(m.feedWidth, direct);
      4 * 6 * m.hidden + 4 * (3 * (m.feedWidth * direct) + 2 * count)
  }

  function ProjectedWidth(m: Model): nat
    requires m.heads > 0
  {
    match m.attention
    case Mla(latent) => 2 * m.hidden + (if latent > 0 then latent else m.hidden)
    case _ =>
      var kv := if m.kvHeads.Some? && m.kvHeads.value > 0 then m.kvHeads.value else m.heads;
      Product(kv, m.hidden / m.heads);
      m.hidden + 2 * (kv * (m.hidden / m.heads))
  }

  function AttentionPerToken(c: Config): nat
    requires Sized(c)
  {
    Product(c.model.heads, c.training.length);
    4 * ProjectedWidth(c.model) + 8 * (c.model.heads * c.training.length)
  }

  function Streams(m: Model): nat {
    match m.recall
    case NoRecall => 0
    case OtherRecall => 1
    case Ngram(orders, hashHeads) =>
      Product(if orders > 0 then orders else 1, hashHeads);
      (if orders > 0 then orders else 1) * hashHeads
  }

  function OutputPerToken(m: Model): nat {
    Product(Streams(m), m.hidden);
    8 * m.vocab + 8 * (Streams(m) * m.hidden)
  }

  function Activations(c: Config): nat
    requires Sized(c)
  {
    var tokens, layers := Tokens(c), c.model.layers;
    Product(tokens, FeedPerToken(c.model));
    Product(tokens, OutputPerToken(c.model));
    Product(tokens, c.model.hidden);
    Product(layers + 1, tokens * c.model.hidden);
    Product(layers, tokens * FeedPerToken(c.model));
    if c.memory.checkpointing then
      4 * ((layers + 1) * (tokens * c.model.hidden)) + tokens * FeedPerToken(c.model)
      + tokens * OutputPerToken(c.model)
    else layers * (tokens * FeedPerToken(c.model)) + tokens * OutputPerToken(c.model)
  }

  function AttentionWorking(c: Config): nat
    requires Sized(c)
  {
    var perBlock := Tokens(c) * AttentionPerToken(c);
    Product(Tokens(c), AttentionPerToken(c));
    Product(c.model.layers, perBlock);
    if c.memory.checkpointing then perBlock else c.model.layers * perBlock
  }

  /** What `n` tokens retain in one block outside attention. */
  lemma FeedAsStated(m: Model, n: nat)
    ensures match m.feed
            case DenseFeed => n * FeedPerToken(m) == 24 * n * m.hidden + 12 * n * m.feedWidth
            case Experts(count, perToken, shared) =>
              n * FeedPerToken(m)
              == 24 * n * m.hidden + 12 * n * m.feedWidth * perToken + 8 * n * count
                 + (if shared then 12 * n * m.feedWidth else 0)
  {
    match m.feed
    case DenseFeed =>
      assert n * (24 * m.hidden + 12 * m.feedWidth) == n * (24 * m.hidden) + n * (12 * m.feedWidth);
    case Experts(count, perToken, shared) =>
      var direct := perToken + (if shared then 1 else 0);
      var w := m.feedWidth * direct;
      assert n * (24 * m.hidden + 4 * (3 * w + 2 * count))
          == n * (24 * m.hidden) + n * (12 * w) + n * (8 * count);
      assert n * w == n * m.feedWidth * perToken + (if shared then n * m.feedWidth else 0) by {
        assert n * w == n * m.feedWidth * direct;
      }
  }

  /** What they need for the logits and the streams of the memory tables. */
  lemma OutputAsStated(m: Model, n: nat)
    ensures n * OutputPerToken(m) == 8 * n * m.vocab + 8 * n * Streams(m) * m.hidden
  {
    var w := Streams(m) * m.hidden;
    assert n * (8 * m.vocab + 8 * w) == n * (8 * m.vocab) + n * (8 * w);
    assert n * w == n * Streams(m) * m.hidden;
  }

  /** What attention works with in one block. */
  lemma AttentionAsStated(c: Config)
    requires Sized(c)
    ensures Tokens(c) * AttentionPerToken(c)
         == 4 * Tokens(c) * ProjectedWidth(c.model)
            + 8 * c.training.micro * c.model.heads * c.training.length * c.training.length
  {
    var n, b, t, h := Tokens(c), c.training.micro, c.training.length, c.model.heads;
    assert n * (4 * ProjectedWidth(c.model) + 8 * (h * t))
        == n * (4 * ProjectedWidth(c.model)) + n * (8 * (h * t));
    assert n * (h * t) == b * h * t * t;
  }

  predicate Ready(c: Config) { Sized(c) && AllSolid(c.model.tensors) }

  /** Weights, gradients and optimizer state. */
  function Resident(c: Config): nat
    requires Ready(c)
  {
    Stored(c.model.tensors) * 4 + Trainable(c.model.tensors) * 4
    + OptimizerState(c.optimizer, c.model.tensors)
  }

  function Workspace(c: Config): nat
    requires Ready(c)
  {
    Product(Tokens(c), c.model.vocab);
    Max(64 * MiB, Resident(c) / 10 + 8 * (Tokens(c) * c.model.vocab))
  }

  lemma Regroup(k: nat, a: nat, b: nat)
    ensures k * (a * b) == k * a * b
  {
  }

  /** The activations, from the dimensions alone. */
  lemma ActivationsAsStated(c: Config, n: nat, d: nat, l: nat)
    requires Ready(c) && n == Tokens(c) && d == c.model.hidden && l == c.model.layers
    ensures Activations(c)
         == (if c.memory.checkpointing then 4 * (l + 1) * n * d + n * FeedPerToken(c.model)
             else l * (n * FeedPerToken(c.model)))
            + 8 * n * c.model.vocab + 8 * n * Streams(c.model) * d
  {
    OutputAsStated(c.model, n);
    Regroup(l + 1, n, d);
    Regroup(4, l + 1, n);
    Regroup(4 * (l + 1), n, d);
    Regroup(4, (l + 1) * n, d);
  }

  /** Attention and workspace, likewise. */
  lemma WorkingAsStated(c: Config, b: nat, t: nat)
    requires Ready(c) && b == c.training.micro && t == c.training.length
    ensures var perBlock := 4 * (b * t) * ProjectedWidth(c.model) + 8 * b * c.model.heads * t * t;
            AttentionWorking(c) == (if c.memory.checkpointing then perBlock
                                    else c.model.layers * perBlock)
    ensures Workspace(c) == Max(64 * MiB, Resident(c) / 10 + 8 * (b * t) * c.model.vocab)
  {
    AttentionAsStated(c);
    Regroup(8, b * t, c.model.vocab);
  }

  function Subtotal(c: Config): nat
    requires Ready(c)
  {
    Resident(c) + Buffers(c) + Activations(c) + AttentionWorking(c) + Workspace(c)
  }

  function WithHeadroom(subtotal: nat): nat { subtotal + 15 * subtotal / 100 }

  function Peak(c: Config): nat
    requires Ready(c)
  {
    WithHeadroom(Subtotal(c))
  }

  function Sum(e: Estimate): nat {
    e.weights + e.buffers + e.gradients + e.optimizer + e.activations + e.attention + e.workspace
    + e.headroom
  }

  /** Rounds up. */
  function Ceil(x: real): int { -((-x).Floor) }

  /** The peak times the larger of 1 and the multiplier, rounded up. */
  function Calibrated(peak: nat, calibration: Option<real>): (r: nat)
    ensures r >= peak
    ensures calibration.Some? ==> r as real >= peak as real * calibration.value
  {
    match calibration
    case None => peak
    case Some(m) =>
      var k := if m > 1.0 then m else 1.0;
      assert peak as real * k >= peak as real && peak as real * k >= peak as real * m;
      Ceil(peak as real * k)
  }

  function EstimateMemory(c: Config, host: Runtime, calibration: Option<real>): Estimate
    requires Ready(c)
  {
    var tensors := c.model.tensors;
    var peak := Calibrated(Peak(c), calibration);
    Estimate(Judge(c, host, peak), peak, Ceiling(c, host), Stored(tensors) * 4, Buffers(c),
             Trainable(tensors) * 4, OptimizerState(c.optimizer, tensors), Activations(c),
             AttentionWorking(c), Workspace(c), 15 * Subtotal(c) / 100 + (peak - Peak(c)))
  }

  /** The peak is the sum of the categories, and a fit is a fit in physical memory and budget. */
  ghost predicate Sound(e: Estimate, c: Config, host: Runtime) {
    && e.peak == Sum(e) && e.ceiling == Ceiling(c, host)
    && (e.verdict == LikelyToFit <==>
          PhysicalCeiling(c, host).Some? && e.peak <= PhysicalCeiling(c, host).value
          && (c.memory.budget.Some? ==> e.peak <= c.memory.budget.value))
    && (e.verdict == LikelyToExceed <==> e.ceiling.Some? && e.peak > e.ceiling.value)
  }

  lemma EstimateIsSound(c: Config, host: Runtime, calibration: Option<real>)
    requires Ready(c)
    ensures Sound(EstimateMemory(c, host, calibration), c, host)
  {
  }

  // ---------------------------------------------------------------- what a verdict means

  /** The readings that the host's kind of memory calls for are all there. */
  predicate Known(host: Runtime) {
    match host.backend
    case Cpu => host.systemTotal.Some? && host.systemAvailable.Some?
    case Discrete => host.deviceTotal.Some? && host.deviceFree.Some?
    case Unified =>
      host.deviceRecommended.Some? && host.systemAvailable.Some? && host.driverAllocated.Some?
    case UnknownBackend => false
  }

  /** The share of the total holds `peak`, and so does what is free now. */
  predicate Room(share: Fraction, host: Runtime, peak: nat)
    requires Known(host)
  {
    match host.backend
    case Cpu =>
      peak * share.den <= share.num * host.systemTotal.value && peak <= host.systemAvailable.value
    case Discrete =>
      peak * share.den <= share.num * host.deviceTotal.value && peak <= host.deviceFree.value
    case Unified =>
      && (peak + host.driverAllocated.value) * share.den <= share.num * host.deviceRecommended.value
      && peak <= host.systemAvailable.value
  }

  lemma PartHolds(f: Fraction, total: nat, x: nat)
    ensures x <= Part(f, total) <==> x * f.den <= f.num * total
  {
    var whole, d := f.num * total, f.den;
    Product(f.num, total);
    var q := whole / d;
    assert whole == d * q + whole % d;
    if x <= q { ProductGrows(x, d, q, d); } else { ProductGrows(q + 1, d, x, d); }
  }

  /** The physical ceiling is the largest peak there is room for; nothing fits below zero. */
  lemma CeilingIsRoom(c: Config, host: Runtime, peak: nat)
    requires peak > 0
    ensures PhysicalCeiling(c, host).Some? <==> Known(host)
    ensures Known(host) ==> (peak <= PhysicalCeiling(c, host).value <==> Room(c.memory.share, host, peak))
  {
    var share := c.memory.share;
    match host.backend
    case Cpu => if Known(host) { PartHolds(share, host.systemTotal.value, peak); }
    case Discrete => if Known(host) { PartHolds(share, host.deviceTotal.value, peak); }
    case Unified =>
      if Known(host) {
        PartHolds(share, host.deviceRecommended.value, peak + host.driverAllocated.value);
      }
    case UnknownBackend =>
  }

  predicate WithinBudget(budget: Option<nat>, peak: nat) { budget.Some? ==> peak <= budget.value }

  /** All three verdicts, by the host's readings and the budget. */
  lemma VerdictIsExact(c: Config, host: Runtime, calibration: Option<real>)
    requires Ready(c)
    ensures var e := EstimateMemory(c, host, calibration);
            var fits := Known(host) && Room(c.memory.share, host, e.peak);
            && (e.verdict == LikelyToFit <==> fits && WithinBudget(c.memory.budget, e.peak))
            && (e.verdict == LikelyToExceed <==>
                  (Known(host) && !fits) || !WithinBudget(c.memory.budget, e.peak))
  {
    var e := EstimateMemory(c, host, calibration);
    assert e.peak >= Peak(c) > 0;
    CeilingIsRoom(c, host, e.peak);
  }

  /** `calibration_multiplier`: a native peak over an estimate without headroom. */
  function CalibrationMultiplier(estimated: int, observed: Option<real>, native: bool): Option<real> {
    if !native || observed.None? || estimated <= 0 || observed.value < 0.0 then None
    else
      var ratio := observed.value / estimated as real;
      Some(if ratio > 1.0 then ratio else 1.0)
  }

  lemma Covers(peak: nat, s: nat, observed: real, m: Option<real>)
    requires observed >= 0.0 && peak >= s > 0
    requires m == CalibrationMultiplier(s, Some(observed), true)
    ensures Calibrated(peak, m) as real >= observed
  {
    var ratio := observed / s as real;
    assert peak as real * m.value >= ratio * s as real;
  }

  /** Calibrated by what was measured under the same settings, the peak covers the measurement. */
  lemma CalibrationCovers(c: Config, host: Runtime, observed: real, m: Option<real>)
    requires Ready(c) && observed >= 0.0
    requires m == CalibrationMultiplier(Subtotal(c), Some(observed), true)
    ensures EstimateMemory(c, host, m).peak as real >= observed
  {
    Covers(Peak(c), Subtotal(c), observed, m);
  }

  // ---------------------------------------------------------------- what changing a setting does

  function WithMicro(c: Config, micro: nat, effective: nat): Config
    requires micro > 0
  {
    c.(training := c.training.(micro := micro, accumulation := effective / micro))
  }

  function WithLength(c: Config, length: nat): Config { c.(training := c.training.(length := length)) }

  function WithCheckpointing(c: Config, enabled: bool): Config {
    c.(memory := c.memory.(checkpointing := enabled))
  }

  function WithOffload(c: Config, enabled: bool): Config { c.(memory := c.memory.(offload := enabled)) }

  function WithOptimizer(c: Config, optimizer: Optimizer): Config { c.(optimizer := optimizer) }

  lemma Grows(k: nat, a: nat, b: nat)
    requires a <= b
    ensures k * a <= k * b && a * k <= b * k
  {
    ProductGrows(k, a, k, b);
    ProductGrows(a, k, b, k);
  }

  lemma ActivationsGrow(a: Config, b: Config)
    requires Sized(a) && Sized(b) && a.model == b.model && Tokens(a) <= Tokens(b)
    requires a.memory.checkpointing == b.memory.checkpointing
    ensures Activations(a) <= Activations(b)
  {
    var m := a.model;
    Grows(FeedPerToken(m), Tokens(a), Tokens(b));
    Grows(OutputPerToken(m), Tokens(a), Tokens(b));
    Grows(m.hidden, Tokens(a), Tokens(b));
    Grows(m.layers, Tokens(a) * FeedPerToken(m), Tokens(b) * FeedPerToken(m));
    Grows(m.layers + 1, Tokens(a) * m.hidden, Tokens(b) * m.hidden);
  }

  lemma AttentionGrows(a: Config, b: Config)
    requires Sized(a) && Sized(b) && a.model == b.model && Tokens(a) <= Tokens(b)
    requires a.training.length <= b.training.length
    requires a.memory.checkpointing == b.memory.checkpointing
    ensures AttentionWorking(a) <= AttentionWorking(b)
  {
    Grows(a.model.heads, a.training.length, b.training.length);
    ProductGrows(Tokens(a), AttentionPerToken(a), Tokens(b), AttentionPerToken(b));
    Grows(a.model.layers, Tokens(a) * AttentionPerToken(a), Tokens(b) * AttentionPerToken(b));
  }

  lemma BuffersGrow(a: Config, b: Config)
    requires Sized(a) && Sized(b) && a.model == b.model && a.training.length <= b.training.length
    ensures Buffers(a) <= Buffers(b)
  {
    var m := a.model;
    var head := m.hidden / m.heads;
    var mask := if m.attention.BlockSparse? then 0 else m.context * m.context;
    Grows(head, a.training.length, b.training.length);
    Grows(m.layers, mask + 4 * (head / 2 + a.training.length * head),
          mask + 4 * (head / 2 + b.training.length * head));
  }

  /** Fewer sequences, or shorter ones, never raise the peak. */
  lemma SmallerBatchNeedsLess(a: Config, b: Config)
    requires Ready(a) && Ready(b) && a.model == b.model && a.optimizer == b.optimizer
    requires a.memory.checkpointing == b.memory.checkpointing
    requires a.training.micro <= b.training.micro && a.training.length <= b.training.length
    ensures Peak(a) <= Peak(b)
  {
    ProductGrows(a.training.micro, a.training.length, b.training.micro, b.training.length);
    ActivationsGrow(a, b);
    AttentionGrows(a, b);
    BuffersGrow(a, b);
    Grows(a.model.vocab, Tokens(a), Tokens(b));
  }

  /** A switch to Adafactor never raises the peak. */
  lemma AdafactorNeedsLess(c: Config)
    requires Ready(c)
    ensures Peak(WithOptimizer(c, Adafactor)) <= Peak(WithOptimizer(c, AdamW))
  {
    AdafactorStoresLess(c.model.tensors);
    var a, b := WithOptimizer(c, Adafactor), WithOptimizer(c, AdamW);
    assert Tokens(a) == Tokens(b) && Buffers(a) == Buffers(b);
    assert Activations(a) == Activations(b) && AttentionWorking(a) == AttentionWorking(b);
    assert Resident(a) <= Resident(b);
  }

  // What one block works with, what it takes in, and what follows the last one.
  function Block(c: Config): nat
    requires Sized(c)
  {
    Product(Tokens(c), FeedPerToken(c.model));
    Product(Tokens(c), AttentionPerToken(c));
    Tokens(c) * FeedPerToken(c.model) + Tokens(c) * AttentionPerToken(c)
  }

  function Input(c: Config): nat {
    Product(Tokens(c), c.model.hidden);
    Tokens(c) * c.model.hidden
  }

  function Output(c: Config): nat {
    Product(Tokens(c), OutputPerToken(c.model));
    Tokens(c) * OutputPerToken(c.model)
  }

  lemma Outweighs(tokens: nat, d: nat, feed: nat, attention: nat)
    requires feed >= 24 * d && attention >= 4 * d
    ensures tokens * feed + tokens * attention >= 28 * (tokens * d)
  {
    Grows(tokens, 24 * d, feed);
    Grows(tokens, 4 * d, attention);
  }

  lemma WidthAtLeastHidden(m: Model)
    requires m.heads > 0
    ensures ProjectedWidth(m) >= m.hidden && FeedPerToken(m) >= 24 * m.hidden
  {
  }

  /** Per-block tensors outweigh the block inputs that checkpointing keeps. */
  lemma BlockOutweighsInput(c: Config)
    requires Sized(c)
    ensures Block(c) >= 28 * Input(c) && Input(c) > 0
  {
    PositiveMultiple(c.training.micro, c.training.length);
    PositiveMultiple(Tokens(c), c.model.hidden);
    WidthAtLeastHidden(c.model);
    Outweighs(Tokens(c), c.model.hidden, FeedPerToken(c.model), AttentionPerToken(c));
  }

  lemma LayersOutweigh(layers: nat, block: nat, input: nat)
    requires input > 0 && block >= 28 * input && layers > 0
    ensures 4 * ((layers + 1) * input) + block < layers * block <==> layers >= 2
  {
    assert layers * block == block + (layers - 1) * block;
    assert (layers + 1) * input == 2 * input + (layers - 1) * input;
    if layers >= 2 {
      Grows(layers - 1, 28 * input, block);
      PositiveMultiple(input, layers - 1);
      assert input * (layers - 1) == (layers - 1) * input;
    }
  }

  lemma Spread(k: nat, a: nat, b: nat)
    ensures k * (a + b) == k * a + k * b
  {
  }

  /** What a configuration works with in all. */
  lemma Working(c: Config)
    requires Sized(c)
    ensures Activations(c) + AttentionWorking(c)
         == Output(c) + if c.memory.checkpointing
                        then 4 * ((c.model.layers + 1) * Input(c)) + Block(c)
                        else c.model.layers * Block(c)
  {
    Spread(c.model.layers, Tokens(c) * FeedPerToken(c.model), Tokens(c) * AttentionPerToken(c));
  }

  /** Checkpointing lowers the peak exactly for models of two or more layers, and else raises it. */
  lemma CheckpointingLowersExactly(c: Config)
    requires Ready(c)
    ensures Peak(WithCheckpointing(c, true)) < Peak(WithCheckpointing(c, false))
       <==> c.model.layers >= 2
    ensures Peak(WithCheckpointing(c, true)) > Peak(WithCheckpointing(c, false))
       <==> c.model.layers == 1
  {
    var off, on := WithCheckpointing(c, false), WithCheckpointing(c, true);
    assert Tokens(off) == Tokens(on) && AttentionPerToken(off) == AttentionPerToken(on);
    Working(off);
    Working(on);
    BlockOutweighsInput(on);
    LayersOutweigh(c.model.layers, Block(on), Input(on));
    assert Buffers(off) == Buffers(on) && Workspace(off) == Workspace(on);
    assert Resident(off) == Resident(on);
  }

  lemma TwiceTheProduct(t: nat, u: nat, k: nat)
    requires 2 * t <= u
    ensures 2 * (t * k) <= u * k && t * k <= u * k
  {
    Grows(k, 2 * t, u);
    Grows(k, t, u);
  }

  lemma TwiceTheBlock(half: Config, c: Config)
    requires Sized(half) && Sized(c) && half.model == c.model
    requires half.training.length == c.training.length && 2 * Tokens(half) <= Tokens(c)
    ensures 2 * Block(half) <= Block(c) && Output(half) <= Output(c)
  {
    assert AttentionPerToken(half) == AttentionPerToken(c);
    TwiceTheProduct(Tokens(half), Tokens(c), FeedPerToken(c.model));
    TwiceTheProduct(Tokens(half), Tokens(c), AttentionPerToken(c));
    TwiceTheProduct(Tokens(half), Tokens(c), OutputPerToken(c.model));
  }

  lemma HalfWorksWithLess(half: Config, c: Config)
    requires Sized(half) && Sized(c) && half.model == c.model && c.model.layers == 1
    requires half.memory.checkpointing && !c.memory.checkpointing
    requires half.training.length == c.training.length && 2 * Tokens(half) <= Tokens(c)
    ensures Activations(half) + AttentionWorking(half) <= Activations(c) + AttentionWorking(c)
  {
    TwiceTheBlock(half, c);
    BlockOutweighsInput(half);
    Working(half);
    Working(c);
  }

  /** For one layer, checkpointing pays for itself when it comes with half the batch. */
  lemma HalfBatchPaysForCheckpointing(half: Config, c: Config)
    requires Ready(half) && Ready(c) && half.model == c.model && half.optimizer == c.optimizer
    requires c.model.layers == 1 && half.memory.checkpointing && !c.memory.checkpointing
    requires half.training.length == c.training.length
    requires 2 * half.training.micro <= c.training.micro
    ensures Peak(half) <= Peak(c)
  {
    TwiceTheProduct(half.training.micro, c.training.micro, c.training.length);
    HalfWorksWithLess(half, c);
    Grows(c.model.vocab, Tokens(half), Tokens(c));
    BuffersGrow(half, c);
    assert Subtotal(half) <= Subtotal(c);
  }
}
