/** Exclusive durable publication (`result_publication.py`). */
module ResultPublication {
  // `write_bytes_exclusive` by any number of concurrent publishers of one destination, over a file
  // system that keeps what is visible apart from what a crash cannot take back.
  //
  // Directory `k` has its entry in directory `k - 1`; directory 0 always exists; the destination has
  // its entry in directory `depth`. An entry becomes durable when its directory is synced, and a
  // file's bytes when the file is synced. A crash keeps everything durable, may keep or drop each
  // entry that is not, may turn the bytes of an unsynced file into anything, and ends every
  // publisher.

  import opened Wrappers
  import opened Runs

  type Publisher = nat
  type Bytes = seq<bv8>

  datatype Inode = Inode(data: Bytes, synced: bool)

  datatype Outcome = Published | AlreadyExists | Failed

  datatype Pc =
    | Scanning(k: nat)         // does directory k exist?
    | Making                   // mkdir(parents=True): make the first absent directory
    | SyncingParent(k: nat)    // sync directory k - 1, which holds the entry of directory k
    | Creating                 // exclusive create of the temporary
    | Writing
    | SyncingFile
    | Linking                  // link the temporary to the destination, never replacing
    | SyncingWin               // linked: sync the destination's directory
    | SyncingLoss              // the destination existed: sync its directory all the same
    | Unlinking(outcome: Outcome)
    | Returned(outcome: Outcome)
    | Killed

  // `low`: the deepest directory this call found in place, so it answers for the deeper ones.
  // `epoch`: how many crashes came before the call began.
  datatype Call = Call(encoded: Bytes, low: nat, epoch: nat, pc: Pc)

  datatype State = State(
    depth: nat,
    dirs: set<nat>,            // directories that exist, other than 0
    durable: set<nat>,         // directories whose own entry is durable
    dest: Option<Publisher>,   // whose file the destination names
    destDurable: bool,
    inodes: map<Publisher, Inode>,
    calls: map<Publisher, Call>,
    epoch: nat)

  ghost predicate DownClosed(dirs: set<nat>) {
    forall k :: k in dirs && k > 1 ==> k - 1 in dirs
  }

  // Any file system with no publisher yet and no destination.
  ghost predicate Init(s: State) {
    && (forall k :: k in s.dirs ==> 1 <= k <= s.depth) && DownClosed(s.dirs)
    && s.durable <= s.dirs
    && s.dest == None && !s.destDurable && s.inodes == map[] && s.calls == map[]
  }

  datatype Step =
    | Begin(publisher: Publisher, encoded: Bytes)
    | Advance(publisher: Publisher)
    | Fail(publisher: Publisher)    // the next system call raises OSError
    | Kill(publisher: Publisher)
    | Crash(kept: set<nat>, keepDest: bool, torn: map<Publisher, Bytes>)

  predicate Live(pc: Pc) { !pc.Returned? && !pc.Killed? }

  predicate Enabled(s: State, step: Step) {
    match step
    case Begin(p, _) => p !in s.calls
    case Advance(p) => p in s.calls && Live(s.calls[p].pc)
    case Fail(p) => p in s.calls && Live(s.calls[p].pc)
    case Kill(p) => p in s.calls && Live(s.calls[p].pc)
    case Crash(_, _, _) => true
  }

  function Goto(s: State, p: Publisher, pc: Pc): State
    requires p in s.calls
  {
    s.(calls := s.calls[p := s.calls[p].(pc := pc)])
  }

  // fsync of directory k: the entries it holds become durable.
  function SyncDirectory(s: State, k: nat): State {
    s.(durable := if k + 1 in s.dirs then s.durable + {k + 1} else s.durable,
       destDurable := s.destDurable || (k == s.depth && s.dest.Some?))
  }

  // The first directory down from 0 that does not exist, or one past `depth`.
  function FirstAbsent(s: State, k: nat): nat
    requires 1 <= k
    decreases s.depth + 1 - k
  {
    if k > s.depth || k !in s.dirs then k else FirstAbsent(s, k + 1)
  }

  predicate InParents(pc: Pc) { pc.Scanning? || pc.Making? || pc.SyncingParent? }

  /** Finding, making and syncing the missing ancestors. */
  function MakeParents(s: State, p: Publisher): State
    requires p in s.calls && InParents(s.calls[p].pc)
  {
    match s.calls[p].pc
    case Scanning(k) =>
      if k > 0 && k !in s.dirs then Goto(s, p, Scanning(k - 1))
      else s.(calls := s.calls[p := s.calls[p].(low := k, pc := Making)])
    case Making =>
      var k := FirstAbsent(s, 1);
      if k > s.depth then Goto(s, p, SyncingParent(s.calls[p].low + 1))
      else s.(dirs := s.dirs + {k})
    case SyncingParent(k) =>
      if 1 <= k <= s.depth then Goto(SyncDirectory(s, k - 1), p, SyncingParent(k + 1))
      else Goto(s, p, Creating)
  }

  /** The temporary, the link and the destination's directory. */
  function Publish(s: State, p: Publisher): State
    requires p in s.calls && Live(s.calls[p].pc) && !InParents(s.calls[p].pc)
  {
    match s.calls[p].pc
    case Creating => Goto(s.(inodes := s.inodes[p := Inode([], false)]), p, Writing)
    case Writing =>
      Goto(s.(inodes := s.inodes[p := Inode(s.calls[p].encoded, false)]), p, SyncingFile)
    case SyncingFile =>
      if p in s.inodes
      then Goto(s.(inodes := s.inodes[p := s.inodes[p].(synced := true)]), p, Linking)
      else Goto(s, p, Unlinking(Failed))
    case Linking =>
      if s.dest.None? then Goto(s.(dest := Some(p)), p, SyncingWin)
      else Goto(s, p, SyncingLoss)
    case SyncingWin => Goto(SyncDirectory(s, s.depth), p, Unlinking(Published))
    case SyncingLoss => Goto(SyncDirectory(s, s.depth), p, Unlinking(AlreadyExists))
    case Unlinking(outcome) => Goto(s, p, Returned(outcome))
  }

  // An error before the temporary exists just returns; later ones remove the temporary first.
  function Abort(s: State, p: Publisher): State
    requires p in s.calls
  {
    var pc := s.calls[p].pc;
    if InParents(pc) || pc.Creating? || pc.Unlinking? then Goto(s, p, Returned(Failed))
    else Goto(s, p, Unlinking(Failed))
  }

  // After a crash a directory is there when it and all above it were durable or happened to be kept.
  function Survives(s: State, kept: set<nat>, k: nat): bool
  {
    k == 0 || (k in s.dirs && (k in s.durable || k in kept) && Survives(s, kept, k - 1))
  }

  function Reboot(s: State, kept: set<nat>, keepDest: bool, torn: map<Publisher, Bytes>): State {
    var dirs := set k | k in s.dirs && Survives(s, kept, k);
    var dest := if Survives(s, kept, s.depth) && (s.destDurable || keepDest) then s.dest else None;
    State(s.depth, dirs, dirs, dest, dest.Some?,
          map p | p in s.inodes ::
            if s.inodes[p].synced || p !in torn then s.inodes[p] else Inode(torn[p], false),
          map p | p in s.calls ::
            if Live(s.calls[p].pc) then s.calls[p].(pc := Killed) else s.calls[p],
          s.epoch + 1)
  }

  function Apply(s: State, step: Step): State
    requires Enabled(s, step)
  {
    match step
    case Begin(p, encoded) =>
      s.(calls := s.calls[p := Call(encoded, 0, s.epoch, Scanning(s.depth))])
    case Advance(p) => if InParents(s.calls[p].pc) then MakeParents(s, p) else Publish(s, p)
    case Fail(p) => Abort(s, p)
    case Kill(p) => Goto(s, p, Killed)
    case Crash(kept, keepDest, torn) => Reboot(s, kept, keepDest, torn)
  }

  // ---------------------------------------------------------------- invariants

  // Every directory from `low + 1` to `high` exists and is durable.
  ghost predicate Answers(durable: set<nat>, low: nat, high: nat) {
    forall k :: low < k <= high ==> k in durable
  }

  ghost predicate AllDirs(dirs: set<nat>, depth: nat) {
    forall k :: 1 <= k <= depth ==> k in dirs
  }

  predicate PastParents(pc: Pc) {
    pc.Creating? || pc.Writing? || pc.SyncingFile? || pc.Linking? || pc.SyncingWin?
    || pc.SyncingLoss? || pc.Unlinking?
    || (pc.Returned? && !pc.outcome.Failed?)
  }

  predicate Won(pc: Pc) {
    pc.SyncingWin? || pc == Unlinking(Published) || pc == Returned(Published)
  }

  predicate Settled(pc: Pc) {
    (pc.Unlinking? || pc.Returned?) && !pc.outcome.Failed?
  }

  // What a call of this epoch has achieved by each point.
  ghost predicate CallDirs(call: Call, depth: nat, dirs: set<nat>, durable: set<nat>) {
    && call.low <= depth
    && (call.pc.Scanning? ==> call.pc.k <= depth)
    && (call.pc.SyncingParent? ==>
          && call.low < call.pc.k <= depth + 1 && AllDirs(dirs, depth)
          && Answers(durable, call.low, call.pc.k - 1))
    && (PastParents(call.pc) ==> AllDirs(dirs, depth) && Answers(durable, call.low, depth))
  }

  predicate CallDest(p: Publisher, call: Call, dest: Option<Publisher>, destDurable: bool) {
    && (Won(call.pc) ==> dest == Some(p))
    && (call.pc.SyncingLoss? || Settled(call.pc) ==> dest.Some?)
    && (Settled(call.pc) ==> destDurable)
  }

  predicate CallFile(p: Publisher, call: Call, inodes: map<Publisher, Inode>) {
    && (call.pc.SyncingFile? ==> p in inodes && inodes[p].data == call.encoded)
    && (call.pc.Linking? ==> p in inodes && inodes[p] == Inode(call.encoded, true))
  }

  // A call that may still write its temporary has not linked it.
  predicate BeforeLink(pc: Pc) {
    InParents(pc) || pc.Creating? || pc.Writing? || pc.SyncingFile? || pc.Linking?
  }

  predicate DestInv(dest: Option<Publisher>, inodes: map<Publisher, Inode>,
                    calls: map<Publisher, Call>)
  {
    dest.Some? ==>
      && dest.value in calls && dest.value in inodes
      && inodes[dest.value] == Inode(calls[dest.value].encoded, true)
      && !BeforeLink(calls[dest.value].pc)
  }

  ghost predicate DirsInv(depth: nat, dirs: set<nat>, durable: set<nat>, dest: Option<Publisher>) {
    && (forall k :: k in dirs ==> 1 <= k <= depth) && DownClosed(dirs)
    && durable <= dirs
    && (dest.Some? ==> AllDirs(dirs, depth))
  }

  ghost predicate CallInv(p: Publisher, call: Call, s: State) {
    && call.epoch <= s.epoch
    && (Live(call.pc) ==> call.epoch == s.epoch)
    && (call.epoch == s.epoch ==>
          && CallDirs(call, s.depth, s.dirs, s.durable)
          && CallDest(p, call, s.dest, s.destDurable)
          && CallFile(p, call, s.inodes))
  }

  ghost predicate Inv(s: State) {
    && DirsInv(s.depth, s.dirs, s.durable, s.dest) && (s.destDurable ==> s.dest.Some?)
    && DestInv(s.dest, s.inodes, s.calls)
    && forall p :: p in s.calls ==> CallInv(p, s.calls[p], s)
  }

  // ---------------------------------------------------------------- every step keeps them

  lemma InitInv(s: State)
    requires Init(s)
    ensures Inv(s)
  {
  }

  lemma {:induction false} FirstAbsentIsNext(s: State, k: nat)
    requires 1 <= k <= s.depth + 1
    requires forall j :: 1 <= j < k ==> j in s.dirs
    ensures var f := FirstAbsent(s, k);
      k <= f <= s.depth + 1 && (f <= s.depth ==> f !in s.dirs) && forall j :: 1 <= j < f ==> j in s.dirs
    decreases s.depth + 1 - k
  {
    if k <= s.depth && k in s.dirs { FirstAbsentIsNext(s, k + 1); }
  }

  // A publisher changes only its own temporary, before linking it.
  lemma InodeKeeps(s: State, p: Publisher, inode: Inode, pc: Pc)
    requires Inv(s) && p in s.calls && BeforeLink(s.calls[p].pc) && !s.calls[p].pc.Linking?
    requires CallInv(p, s.calls[p].(pc := pc), s.(inodes := s.inodes[p := inode]))
    requires Live(s.calls[p].pc)
    ensures Inv(Goto(s.(inodes := s.inodes[p := inode]), p, pc))
  {
    var after := Goto(s.(inodes := s.inodes[p := inode]), p, pc);
    forall q | q in after.calls
      ensures CallInv(q, after.calls[q], after)
    {
      assert q != p ==> CallInv(q, s.calls[q], s);
    }
  }

  lemma MakeKeeps(s: State, p: Publisher)
    requires Inv(s) && p in s.calls && s.calls[p].pc.Making?
    ensures Inv(MakeParents(s, p))
  {
    var call := s.calls[p];
    assert CallInv(p, call, s);
    FirstAbsentIsNext(s, 1);
    if FirstAbsent(s, 1) > s.depth {
      assert CallDirs(call.(pc := SyncingParent(call.low + 1)), s.depth, s.dirs, s.durable);
    } else {
    }
  }

  lemma SyncParentKeeps(s: State, p: Publisher)
    requires Inv(s) && p in s.calls && s.calls[p].pc.SyncingParent?
    ensures Inv(MakeParents(s, p))
  {
    var call := s.calls[p];
    var k := call.pc.k;
    assert CallInv(p, call, s);
    if 1 <= k <= s.depth {
    } else {
    }
  }

  lemma PublishKeeps(s: State, p: Publisher)
    requires Inv(s) && p in s.calls && Live(s.calls[p].pc) && !InParents(s.calls[p].pc)
    ensures Inv(Publish(s, p))
  {
    var call := s.calls[p];
    assert CallInv(p, call, s);
    match call.pc
    case Creating => InodeKeeps(s, p, Inode([], false), Writing);
    case Writing => InodeKeeps(s, p, Inode(call.encoded, false), SyncingFile);
    case SyncingFile => InodeKeeps(s, p, s.inodes[p].(synced := true), Linking);
    case _ =>
  }

  lemma {:induction false} SurvivesBelow(s: State, kept: set<nat>, k: nat, j: nat)
    requires Survives(s, kept, k) && j <= k
    ensures Survives(s, kept, j)
  {
    if j < k { SurvivesBelow(s, kept, k - 1, j); }
  }

  lemma RebootKeeps(s: State, kept: set<nat>, keepDest: bool, torn: map<Publisher, Bytes>)
    requires Inv(s)
    ensures Inv(Reboot(s, kept, keepDest, torn))
  {
    var after := Reboot(s, kept, keepDest, torn);
    if after.dest.Some? {
      forall k | 1 <= k <= s.depth
        ensures k in after.dirs
      {
        SurvivesBelow(s, kept, s.depth, k);
      }
    }
    forall q | q in after.calls
      ensures CallInv(q, after.calls[q], after)
    {
      assert CallInv(q, s.calls[q], s);
    }
  }

  lemma StopKeeps(s: State, p: Publisher)
    requires Inv(s) && p in s.calls && Live(s.calls[p].pc)
    ensures Inv(Abort(s, p)) && Inv(Goto(s, p, Killed))
  {
    assert CallInv(p, s.calls[p], s);
  }

  lemma StepKeeps(s: State, step: Step)
    requires Inv(s) && Enabled(s, step)
    ensures Inv(Apply(s, step))
  {
    match step
    case Begin(p, encoded) =>
    case Advance(p) =>
      if s.calls[p].pc.Making? { MakeKeeps(s, p); }
      else if s.calls[p].pc.SyncingParent? { SyncParentKeeps(s, p); }
      else if !s.calls[p].pc.Scanning? { PublishKeeps(s, p); }
    case Fail(p) => StopKeeps(s, p);
    case Kill(p) => StopKeeps(s, p);
    case Crash(kept, keepDest, torn) => RebootKeeps(s, kept, keepDest, torn);
  }

  // ---------------------------------------------------------------- all runs

  ghost function Next(s: State, step: Step): Option<State> {
    if Enabled(s, step) then Some(Apply(s, step)) else None
  }

  /** The same without crashes. */
  ghost function Calm(s: State, step: Step): Option<State> {
    if step.Crash? then None else Next(s, step)
  }

  ghost predicate Reachable(t: State) { exists s :: Init(s) && Leads(Next, s, t) }

  lemma InvIsKept()
    ensures forall s, step :: Inv(s) && Next(s, step).Some? ==> Inv(Next(s, step).value)
  {
    forall s, step | Inv(s) && Next(s, step).Some? ensures Inv(Next(s, step).value) {
      StepKeeps(s, step);
    }
  }

  lemma ReachableInv(t: State)
    requires Reachable(t)
    ensures Inv(t)
  {
    var s :| Init(s) && Leads(Next, s, t);
    var steps :| Exec(Next, s, steps) == Some(t);
    InitInv(s);
    InvIsKept();
    ExecKeeps(Next, Inv, s, steps);
  }

  /** The destination is absent, or holds all of one publisher's bytes, synced. */
  lemma AbsentOrComplete(t: State)
    requires Reachable(t) && t.dest.Some?
    ensures t.dest.value in t.calls && t.dest.value in t.inodes
    ensures t.inodes[t.dest.value] == Inode(t.calls[t.dest.value].encoded, true)
  {
    ReachableInv(t);
  }

  /** Among the calls since the last crash, one publisher wins. */
  lemma OneWinner(t: State, p: Publisher, q: Publisher)
    requires Reachable(t) && p in t.calls && q in t.calls
    requires t.calls[p].epoch == t.epoch && Won(t.calls[p].pc)
    requires t.calls[q].epoch == t.epoch && Won(t.calls[q].pc)
    ensures p == q
  {
    ReachableInv(t);
    assert CallInv(p, t.calls[p], t) && CallInv(q, t.calls[q], t);
  }

  // The destination's entry and every directory entry above it are durable.
  ghost predicate PathDurable(s: State) {
    s.destDurable && Answers(s.durable, 0, s.depth)
  }

  // What the destination names, and its bytes.
  function File(s: State): Option<(Publisher, Option<Inode>)> {
    match s.dest
    case None => None
    case Some(p) => Some((p, if p in s.inodes then Some(s.inodes[p]) else None))
  }

  lemma {:induction false} AllSurvive(s: State, kept: set<nat>, k: nat)
    requires k <= s.depth && Answers(s.durable, 0, s.depth) && s.durable <= s.dirs
    ensures Survives(s, kept, k)
  {
    if k > 0 { AllSurvive(s, kept, k - 1); }
  }

  lemma CrashFrame(s: State, kept: set<nat>, keepDest: bool, torn: map<Publisher, Bytes>)
    requires Inv(s) && PathDurable(s)
    ensures var t := Reboot(s, kept, keepDest, torn); File(t) == File(s) && PathDurable(t)
  {
    var t := Reboot(s, kept, keepDest, torn);
    AllSurvive(s, kept, s.depth);
    forall k | 0 < k <= s.depth
      ensures k in t.dirs
    {
      AllSurvive(s, kept, k);
    }
  }

  /** Without crashes a published destination keeps its file and its bytes. */
  lemma NeverReplaced(s: State, more: seq<Step>)
    requires Inv(s) && s.dest.Some? && Exec(Calm, s, more).Some?
    ensures var t := Exec(Calm, s, more).value;
            File(t) == File(s) && s.durable <= t.durable && t.depth == s.depth
  {
    var keeps := (t: State) => Inv(t) && t.dest.Some? && File(t) == File(s)
                               && s.durable <= t.durable && t.depth == s.depth;
    forall t, step | keeps(t) && Calm(t, step).Some? ensures keeps(Calm(t, step).value) {
      StepKeeps(t, step);
    }
    ExecKeeps(Calm, keeps, s, more);
  }

  /** Once the path is durable, no sequence of steps, crashes included, changes the destination. */
  lemma DurableForever(s: State, more: seq<Step>)
    requires Inv(s) && PathDurable(s) && Exec(Next, s, more).Some?
    ensures var t := Exec(Next, s, more).value; File(t) == File(s) && PathDurable(t)
  {
    var keeps := (t: State) => Inv(t) && PathDurable(t) && File(t) == File(s);
    forall t, step | keeps(t) && Next(t, step).Some? ensures keeps(Next(t, step).value) {
      if step.Crash? { CrashFrame(t, step.kept, step.keepDest, step.torn); }
      StepKeeps(t, step);
    }
    ExecKeeps(Next, keeps, s, more);
  }

  /**
    A return from `write_bytes_exclusive`, normal or FileExistsError, leaves the destination's own
    entry durable, and the whole path durable exactly if the ancestors the call found in place are.
   */
  lemma ReturnIsDurable(t: State, p: Publisher)
    requires Reachable(t) && p in t.calls && t.calls[p].epoch == t.epoch
    requires t.calls[p].pc.Returned? && !t.calls[p].pc.outcome.Failed?
    ensures t.dest.Some? && t.destDurable
    ensures t.calls[p].pc.outcome.Published? ==> t.dest == Some(p)
    ensures PathDurable(t) <==> Answers(t.durable, 0, t.calls[p].low)
  {
    ReachableInv(t);
    assert CallInv(p, t.calls[p], t);
  }

  /** So with the found ancestors durable, what a return promised survives everything. */
  lemma ReturnSurvives(t: State, p: Publisher, more: seq<Step>)
    requires Reachable(t) && p in t.calls && t.calls[p].epoch == t.epoch
    requires t.calls[p].pc.Returned? && !t.calls[p].pc.outcome.Failed?
    requires Answers(t.durable, 0, t.calls[p].low)
    requires Exec(Next, t, more).Some?
    ensures t.dest.Some? && File(Exec(Next, t, more).value) == File(t)
    ensures t.calls[p].pc.outcome.Published? ==>
        File(Exec(Next, t, more).value) == Some((p, Some(Inode(t.calls[p].encoded, true))))
  {
    ReachableInv(t);
    ReturnIsDurable(t, p);
    DurableForever(t, more);
  }

  // The call has found its ancestors, which are durable up to `low`, and keeps to them.
  ghost predicate Found(s: State, p: Publisher, low: nat, epoch: nat) {
    && s.epoch == epoch && Answers(s.durable, 0, low)
    && p in s.calls && !s.calls[p].pc.Scanning? && s.calls[p].low == low && s.calls[p].epoch == epoch
  }

  lemma FoundStays(s: State, p: Publisher, low: nat, epoch: nat, step: Step)
    requires Found(s, p, low, epoch) && Calm(s, step).Some?
    ensures Found(Calm(s, step).value, p, low, epoch)
  {
    if step.Advance? {
      var q := step.publisher;
      var t := if InParents(s.calls[q].pc) then MakeParents(s, q) else Publish(s, q);
      assert t.epoch == s.epoch && s.durable <= t.durable;
      assert p != q ==> t.calls[p] == s.calls[p];
    }
  }

  /**
    If the ancestors are durable when the call finds them, its return is a promise: whatever the
    others do meanwhile, the whole path is durable then, and nothing later takes the file away.
   */
  lemma FoundDurableSuffices(s: State, p: Publisher, more: seq<Step>, later: seq<Step>)
    requires Reachable(s) && p in s.calls && s.calls[p].epoch == s.epoch && s.calls[p].pc.Making?
    requires Answers(s.durable, 0, s.calls[p].low) && Exec(Calm, s, more).Some?
    requires var t := Exec(Calm, s, more).value;
             && p in t.calls && t.calls[p].pc.Returned? && !t.calls[p].pc.outcome.Failed?
             && Exec(Next, t, later).Some?
    ensures var t := Exec(Calm, s, more).value;
            && t.dest.Some? && PathDurable(t) && (t.calls[p].pc.outcome.Published? ==> t.dest == Some(p))
            && File(Exec(Next, t, later).value) == File(t) && PathDurable(Exec(Next, t, later).value)
  {
    var low, epoch := s.calls[p].low, s.epoch;
    var keeps := (t: State) => Inv(t) && Found(t, p, low, epoch);
    ReachableInv(s);
    forall t, step | keeps(t) && Calm(t, step).Some? ensures keeps(Calm(t, step).value) {
      FoundStays(t, p, low, epoch, step);
      StepKeeps(t, step);
    }
    ExecKeeps(Calm, keeps, s, more);
    var t := Exec(Calm, s, more).value;
    assert CallInv(p, t.calls[p], t);
    DurableForever(t, later);
  }

  // ---------------------------------------------------------------- a promise that can be lost

  lemma ReachStep(t: State, step: Step)
    requires Reachable(t) && Enabled(t, step)
    ensures Reachable(Apply(t, step))
  {
    var s :| Init(s) && Leads(Next, s, t);
    LeadsOn(Next, s, t, step);
  }

  function With(s: State, p: Publisher, call: Call): State { s.(calls := s.calls[p := call]) }

  /** The point of an undisturbed publisher from which `left` actions remain. */
  function PcAt(depth: nat, left: nat): Pc {
    match left
    case 0 => Returned(Published)
    case 1 => Unlinking(Published)
    case 2 => SyncingWin
    case 3 => Linking
    case 4 => SyncingFile
    case 5 => Writing
    case 6 => Creating
    case 7 => SyncingParent(depth + 1)
    case 8 => Making
    case _ => Scanning(depth)
  }

  /** What `s` has become when only `p` acted and `left` of its actions remain. */
  function StateAt(s: State, p: Publisher, encoded: Bytes, left: nat): State {
    var inode := Inode(if left <= 4 then encoded else [], left <= 3);
    With(s.(dest := if left <= 2 then Some(p) else s.dest,
            destDurable := left <= 1 || s.destDurable,
            inodes := if left <= 5 then s.inodes[p := inode] else s.inodes),
         p, Call(encoded, if left <= 8 then s.depth else 0, s.epoch, PcAt(s.depth, left)))
  }

  lemma Tick(s: State, p: Publisher, encoded: Bytes, left: nat)
    requires Inv(s) && p !in s.calls && s.dest.None? && s.depth >= 1 && AllDirs(s.dirs, s.depth)
    requires 1 <= left <= 9
    ensures var t := StateAt(s, p, encoded, left);
            Enabled(t, Advance(p)) && Apply(t, Advance(p)) == StateAt(s, p, encoded, left - 1)
  {
    var t, u := StateAt(s, p, encoded, left), StateAt(s, p, encoded, left - 1);
    FirstAbsentIsNext(t, 1);
    assert Apply(t, Advance(p)).calls == u.calls && Apply(t, Advance(p)).inodes == u.inodes;
    assert Apply(t, Advance(p)).durable == u.durable;
  }

  lemma {:induction false} Finishes(s: State, p: Publisher, encoded: Bytes, left: nat)
    requires Inv(s) && p !in s.calls && s.dest.None? && s.depth >= 1 && AllDirs(s.dirs, s.depth)
    requires left <= 9 && Reachable(StateAt(s, p, encoded, left))
    ensures Reachable(StateAt(s, p, encoded, 0))
  {
    if left > 0 {
      Tick(s, p, encoded, left);
      ReachStep(StateAt(s, p, encoded, left), Advance(p));
      Finishes(s, p, encoded, left - 1);
    }
  }

  /**
    A publisher that finds its directory in place and its destination free, and runs undisturbed,
    publishes its bytes; it syncs no ancestor.
   */
  lemma UndisturbedPublishes(s: State, p: Publisher, encoded: Bytes) returns (t: State)
    requires Reachable(s) && p !in s.calls && s.dest.None? && s.depth >= 1
    requires AllDirs(s.dirs, s.depth)
    ensures Reachable(t)
    ensures t == s.(dest := Some(p), destDurable := true,
                    inodes := s.inodes[p := Inode(encoded, true)],
                    calls := s.calls[p := Call(encoded, s.depth, s.epoch, Returned(Published))])
  {
    ReachableInv(s);
    ReachStep(s, Begin(p, encoded));
    Finishes(s, p, encoded, 9);
    t := StateAt(s, p, encoded, 0);
  }

  /** A scan finds nothing above the only directory and makes it. */
  lemma Scans(s: State, p: Publisher, c: Call)
    requires s.depth == 1 && s.dirs == {} && c.low == 0
    ensures MakeParents(With(s, p, c.(pc := Scanning(1))), p) == With(s, p, c.(pc := Scanning(0)))
    ensures MakeParents(With(s, p, c.(pc := Scanning(0))), p) == With(s, p, c.(pc := Making))
    ensures MakeParents(With(s, p, c.(pc := Making)), p)
         == With(s.(dirs := {1}), p, c.(pc := Making))
  {
    var t := With(s, p, c.(pc := Scanning(1)));
    assert MakeParents(t, p).calls == s.calls[p := c.(pc := Scanning(0))];
    var u := With(s, p, c.(pc := Scanning(0)));
    assert MakeParents(u, p).calls == s.calls[p := c.(pc := Making)];
    assert FirstAbsent(With(s, p, c.(pc := Making)), 1) == 1;
  }

  /** A publisher that makes the only directory and has not synced it. */
  lemma Unsynced(s: State, p: Publisher, encoded: Bytes)
    requires Reachable(s) && s.depth == 1 && s.dirs == {} && p !in s.calls
    ensures Reachable(With(s.(dirs := {1}), p, Call(encoded, 0, s.epoch, Making)))
  {
    var c := Call(encoded, 0, s.epoch, Scanning(1));
    Scans(s, p, c);
    ReachStep(s, Begin(p, encoded));
    ReachStep(With(s, p, c), Advance(p));
    ReachStep(With(s, p, c.(pc := Scanning(0))), Advance(p));
    ReachStep(With(s, p, c.(pc := Making)), Advance(p));
  }

  /**
    With two publishers and a fresh directory the promise can be lost: publisher 1 has made the
    directory and not synced it yet; publisher 2 finds it in place, publishes and returns; a crash
    then loses the directory and the destination with it.
   */
  lemma ReturnCanBeLost(encoded: Bytes) returns (t: State, u: State)
    ensures Reachable(t) && 2 in t.calls && t.calls[2].pc == Returned(Published)
    ensures t.calls[2].epoch == t.epoch && t.dest == Some(2)
    ensures Reachable(u) && u == Apply(t, Crash({}, false, map[])) && u.dest == None
  {
    var s := State(1, {}, {}, None, false, map[], map[], 0);
    assert Init(s);
    LeadsNowhere(Next, s);
    Unsynced(s, 1, encoded);
    t := UndisturbedPublishes(With(s.(dirs := {1}), 1, Call(encoded, 0, 0, Making)), 2, encoded);
    ReachStep(t, Crash({}, false, map[]));
    u := Apply(t, Crash({}, false, map[]));
    assert !Survives(t, {}, 1);
  }
}
