/** What a call of `write_bytes_exclusive` comes to, alone or beside others. */
module PublicationProgress {
  import opened Wrappers
  import opened Runs
  import opened ResultPublication

  /** Whether the call ends as a success is decided by the destination it meets. */
  predicate Loses(pc: Pc) { pc.SyncingLoss? || pc in {Unlinking(AlreadyExists), Returned(AlreadyExists)} }

  /** Directories down from the first that the call did not find, as far as `pc` has synced them. */
  predicate Synced(pc: Pc, depth: nat, k: nat) {
    1 <= k <= depth && (PastParents(pc) || (pc.SyncingParent? && k < pc.k))
  }

  /** `t` is what `s` has become when `p` began and nobody else did anything. */
  ghost predicate Alone(s: State, p: Publisher, encoded: Bytes, t: State) {
    && t.depth == s.depth && t.epoch == s.epoch && p in t.calls && t.calls - {p} == s.calls
    && t.calls[p].encoded == encoded && t.calls[p].epoch == t.epoch && t.inodes - {p} == s.inodes - {p}
    && AloneDirs(s, t.calls[p], t) && AloneDest(s, p, encoded, t.calls[p].pc, t)
  }

  ghost predicate AloneDirs(s: State, call: Call, t: State) {
    && s.dirs <= t.dirs
    && (call.pc.Scanning? ==>
          t.dirs == s.dirs && forall k :: call.pc.k < k <= s.depth ==> k !in s.dirs)
    && (!call.pc.Scanning? ==>
          forall k :: 1 <= k <= s.depth ==> (k in s.dirs <==> k <= call.low))
    && (forall k :: k in t.durable <==>
                      k in s.durable || (k !in s.dirs && Synced(call.pc, s.depth, k)))
  }

  predicate AloneDest(s: State, p: Publisher, encoded: Bytes, pc: Pc, t: State) {
    && (BeforeLink(pc) || Won(pc) || Loses(pc))
    && (pc.SyncingFile? || pc.Linking? || Won(pc) || Loses(pc) ==> p in t.inodes)
    && (Won(pc) ==> s.dest.None? && t.dest == Some(p) && t.inodes[p] == Inode(encoded, true))
    && (!Won(pc) ==> t.dest == s.dest)
    && (Loses(pc) ==> s.dest.Some?)
  }

  /** How much is left to do. */
  function Left(call: Call, s: State): int {
    match call.pc
    case Scanning(k) => 2 * s.depth + 13 + k
    case Making => 2 * s.depth + 12 - FirstAbsent(s, 1)
    case SyncingParent(k) => s.depth + 9 - k
    case Creating => 7
    case Writing => 6
    case SyncingFile => 5
    case Linking => 4
    case SyncingWin => 3
    case SyncingLoss => 3
    case Unlinking(_) => 2
    case Returned(_) => 1
    case Killed => 0
  }

  /** What `p` does keeps everybody else's calls and temporaries. */
  lemma OnlyOwn(s: State, p: Publisher, encoded: Bytes, t: State)
    requires p !in s.calls && Alone(s, p, encoded, t) && Live(t.calls[p].pc)
    ensures var u := Apply(t, Advance(p));
            && u.depth == s.depth && u.epoch == s.epoch && p in u.calls && u.calls - {p} == s.calls
            && u.calls[p].encoded == encoded && u.calls[p].epoch == u.epoch
            && u.inodes - {p} == s.inodes - {p}
  {
    var u := Apply(t, Advance(p));
    assert u.calls == t.calls[p := u.calls[p]];
    assert u.calls - {p} == t.calls - {p};
    assert u.inodes - {p} == t.inodes - {p};
  }

  lemma Makes(s: State, p: Publisher, encoded: Bytes, t: State)
    requires Inv(s) && Inv(t) && p !in s.calls && Alone(s, p, encoded, t) && t.calls[p].pc.Making?
    ensures var u := MakeParents(t, p);
            AloneDirs(s, u.calls[p], u) && 0 <= Left(u.calls[p], u) < Left(t.calls[p], t)
  {
    var u := MakeParents(t, p);
    FirstAbsentIsNext(t, 1);
    FirstAbsentIsNext(u, 1);
    assert CallInv(p, t.calls[p], t);
  }

  lemma ScansUp(s: State, p: Publisher, encoded: Bytes, t: State)
    requires Inv(s) && Inv(t) && p !in s.calls && Alone(s, p, encoded, t) && t.calls[p].pc.Scanning?
    ensures var u := MakeParents(t, p);
            AloneDirs(s, u.calls[p], u) && 0 <= Left(u.calls[p], u) < Left(t.calls[p], t)
  {
    var k := t.calls[p].pc.k;
    assert CallInv(p, t.calls[p], t);
    FirstAbsentIsNext(MakeParents(t, p), 1);
    if k in s.dirs { AllBelow(s.dirs, k); }
  }

  lemma Syncs(s: State, p: Publisher, encoded: Bytes, t: State)
    requires Inv(s) && Inv(t) && p !in s.calls && Alone(s, p, encoded, t)
    requires t.calls[p].pc.SyncingParent?
    ensures var u := MakeParents(t, p);
            AloneDirs(s, u.calls[p], u) && 0 <= Left(u.calls[p], u) < Left(t.calls[p], t)
  {
    assert CallInv(p, t.calls[p], t);
  }

  lemma {:induction false} AllBelow(dirs: set<nat>, k: nat)
    requires DownClosed(dirs) && k in dirs
    ensures forall j :: 1 <= j <= k ==> j in dirs
    decreases k
  {
    if k > 1 { AllBelow(dirs, k - 1); }
  }

  lemma Publishes(s: State, p: Publisher, encoded: Bytes, t: State)
    requires Inv(s) && Inv(t) && p !in s.calls && Alone(s, p, encoded, t)
    requires Live(t.calls[p].pc) && !InParents(t.calls[p].pc)
    ensures var u := Publish(t, p);
            AloneDest(s, p, encoded, u.calls[p].pc, u)
  {
    assert CallInv(p, t.calls[p], t);
  }

  lemma PublishesDirs(s: State, p: Publisher, encoded: Bytes, t: State)
    requires Inv(s) && Inv(t) && p !in s.calls && Alone(s, p, encoded, t)
    requires Live(t.calls[p].pc) && !InParents(t.calls[p].pc)
    ensures var u := Publish(t, p);
            AloneDirs(s, u.calls[p], u) && 0 <= Left(u.calls[p], u) < Left(t.calls[p], t)
  {
    assert CallInv(p, t.calls[p], t);
  }

  lemma Ticks(s: State, p: Publisher, encoded: Bytes, t: State)
    requires Inv(s) && Inv(t) && p !in s.calls && Alone(s, p, encoded, t) && Live(t.calls[p].pc)
    ensures var u := Apply(t, Advance(p));
            Alone(s, p, encoded, u) && 0 <= Left(u.calls[p], u) < Left(t.calls[p], t)
  {
    OnlyOwn(s, p, encoded, t);
    if t.calls[p].pc.Making? { Makes(s, p, encoded, t); }
    else if t.calls[p].pc.Scanning? { ScansUp(s, p, encoded, t); }
    else if t.calls[p].pc.SyncingParent? { Syncs(s, p, encoded, t); }
    else {
      Publishes(s, p, encoded, t);
      PublishesDirs(s, p, encoded, t);
    }
  }

  lemma {:induction false} Ends(s: State, p: Publisher, encoded: Bytes, t: State) returns (u: State)
    requires Inv(s) && p !in s.calls && Reachable(t) && Alone(s, p, encoded, t)
    ensures Reachable(u) && Alone(s, p, encoded, u) && u.calls[p].pc.Returned?
    decreases Left(t.calls[p], t)
  {
    u := t;
    if !t.calls[p].pc.Returned? {
      ReachableInv(t);
      Ticks(s, p, encoded, t);
      ReachStep(t, Advance(p));
      u := Ends(s, p, encoded, Apply(t, Advance(p)));
    }
  }

  /**
    A call that nobody disturbs, from any state and with any directories missing, ends: it makes
    and syncs exactly the missing ones, and publishes its bytes if the destination is free.
    Otherwise it finds the destination taken and leaves it as it is.
   */
  lemma UndisturbedEnds(s: State, p: Publisher, encoded: Bytes) returns (t: State)
    requires Reachable(s) && p !in s.calls
    ensures Reachable(t) && t.calls - {p} == s.calls && t.inodes - {p} == s.inodes - {p} && p in t.calls
    ensures t.calls[p].pc == Returned(if s.dest.None? then Published else AlreadyExists)
    ensures t.dest == (if s.dest.None? then Some(p) else s.dest) && t.destDurable
    ensures s.dest.None? ==> p in t.inodes && t.inodes[p] == Inode(encoded, true)
    ensures forall k :: k in t.dirs <==> 1 <= k <= s.depth
    ensures forall k :: k in t.durable <==> k in s.durable || (1 <= k <= s.depth && k !in s.dirs)
  {
    ReachableInv(s);
    var begun := Apply(s, Begin(p, encoded));
    ReachStep(s, Begin(p, encoded));
    assert begun.calls - {p} == s.calls;
    assert Alone(s, p, encoded, begun);
    t := Ends(s, p, encoded, begun);
    ReachableInv(t);
    assert CallInv(p, t.calls[p], t);
  }

  /** The directories that calls found are there. */
  ghost predicate LowsExist(s: State) {
    forall p :: p in s.calls && s.calls[p].epoch == s.epoch ==>
                  s.calls[p].low == 0 || s.calls[p].low in s.dirs
  }

  lemma MakeKeepsLows(s: State, p: Publisher)
    requires LowsExist(s) && p in s.calls && InParents(s.calls[p].pc)
    ensures LowsExist(MakeParents(s, p))
  {
    var t := MakeParents(s, p);
    assert forall q :: q in t.calls && q != p ==> t.calls[q] == s.calls[q];
  }

  lemma RebootKeepsLows(s: State, kept: set<nat>, keepDest: bool, torn: map<Publisher, Bytes>)
    requires Inv(s)
    ensures LowsExist(Reboot(s, kept, keepDest, torn))
  {
    forall p | p in s.calls ensures s.calls[p].epoch <= s.epoch { assert CallInv(p, s.calls[p], s); }
  }

  lemma LowsKeep(s: State, step: Step)
    requires Inv(s) && LowsExist(s) && Enabled(s, step)
    ensures LowsExist(Apply(s, step))
  {
    match step
    case Crash(kept, keepDest, torn) => RebootKeepsLows(s, kept, keepDest, torn);
    case Advance(p) => if InParents(s.calls[p].pc) { MakeKeepsLows(s, p); }
    case _ =>
  }

  lemma ReachableLows(t: State)
    requires Reachable(t)
    ensures LowsExist(t)
  {
    var s :| Init(s) && Leads(Next, s, t);
    var steps :| Exec(Next, s, steps) == Some(t);
    var keeps := (x: State) => Inv(x) && LowsExist(x);
    InitInv(s);
    forall x, step | keeps(x) && Next(x, step).Some? ensures keeps(Next(x, step).value) {
      StepKeeps(x, step);
      LowsKeep(x, step);
    }
    ExecKeeps(Next, keeps, s, steps);
  }

  lemma {:induction false} Below(dirs: set<nat>, k: nat, low: nat)
    requires DownClosed(dirs) && k !in dirs && 1 <= k && (low == 0 || low in dirs)
    ensures low < k
  {
    if low > k { Below(dirs, k, low - 1); }
  }

  /** The call has looked for its ancestors and answers for those below `low`. */
  predicate Looked(s: State, p: Publisher, low: nat, epoch: nat, depth: nat) {
    && s.epoch == epoch && s.depth == depth && p in s.calls && s.calls[p].epoch == epoch
    && s.calls[p].low == low && !s.calls[p].pc.Scanning?
  }

  lemma LookedStays(s: State, p: Publisher, low: nat, epoch: nat, depth: nat, step: Step)
    requires Looked(s, p, low, epoch, depth) && Calm(s, step).Some?
    ensures Looked(Calm(s, step).value, p, low, epoch, depth)
  {
  }

  /**
    Whatever others do meanwhile, a directory that is missing when the call has looked is durable
    when it returns.
   */
  lemma AbsentBecomesDurable(s: State, p: Publisher, more: seq<Step>, k: nat)
    requires Reachable(s) && p in s.calls && s.calls[p].epoch == s.epoch && s.calls[p].pc.Making?
    requires 1 <= k <= s.depth && k !in s.dirs && Exec(Calm, s, more).Some?
    requires var t := Exec(Calm, s, more).value;
             p in t.calls && t.calls[p].pc.Returned? && !t.calls[p].pc.outcome.Failed?
    ensures k in Exec(Calm, s, more).value.durable
  {
    var low, epoch, depth := s.calls[p].low, s.epoch, s.depth;
    var keeps := (t: State) => Inv(t) && Looked(t, p, low, epoch, depth);
    ReachableInv(s);
    ReachableLows(s);
    Below(s.dirs, k, low);
    forall t, step | keeps(t) && Calm(t, step).Some? ensures keeps(Calm(t, step).value) {
      LookedStays(t, p, low, epoch, depth, step);
      StepKeeps(t, step);
    }
    ExecKeeps(Calm, keeps, s, more);
    var t := Exec(Calm, s, more).value;
    assert CallInv(p, t.calls[p], t);
  }
}
