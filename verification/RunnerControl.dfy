/** The fail-closed host runner (`runner_control.py`). */
module RunnerControl {
  // Any number of processes call `run_controlled`, each with its own lock path, marker path and run
  // id, over one state directory. Processes interleave one file-system action at a time, may raise
  // or be interrupted at any action, and may be killed between any two. The environment may put any
  // inode, or none, behind any lock path at any moment. `runner_status` observers take the same lock
  // shared.
  //
  // A run is a sequence of `Step`s. `Enabled` says when a step can happen and `Apply` what it does;
  // every property below is an invariant of all runs from `Init`.

  import opened Wrappers
  import opened Runs

  type Path = nat
  type Inode = nat
  type RunId = nat
  type Actor = nat

  // ---------------------------------------------------------------- durable records

  datatype Contract = Contract(lock: Path, inode: Inode, blocked: Path)

  // A record written by `_write` exists empty before it holds its content.
  datatype ContractFile = NoContract | TornContract | SavedContract(contract: Contract)
  datatype PendingFile = NoPending | TornPending | SavedPending(run: RunId, contract: Contract)
  datatype CompletionFile = NoCompletion | TornCompletion | SavedCompletion(run: RunId)

  // `owner` is the process whose mkdir created the directory.
  datatype RunDir = RunDir(owner: Actor, pending: PendingFile, completion: CompletionFile)

  predicate Verifies(c: Contract, r: RunId, dir: RunDir) {
    dir.pending == SavedPending(r, c) && dir.completion == SavedCompletion(r)
  }

  // ---------------------------------------------------------------- processes

  datatype Call = Call(lock: Path, blocked: Path, run: RunId)

  datatype Outcome = Completed | Refused | Interrupted | Raised

  datatype Pc =
    | Checking                    // first test of the blocked marker
    | Opening                     // open the lock path, creating it when absent
    | Opened                      // compare the path's inode with the open one
    | Contending                  // flock, exclusive and non-blocking
    | Locked                      // second test of the blocked marker
    | Rechecking                  // second comparison of inodes
    | Listing                     // list the state directory
    | CreatingContract            // the state directory was empty; create contract.json
    | WritingContract             // contract.json created, content not yet written
    | ReadingContract
    | Scanning(todo: set<RunId>)  // prior runs not yet verified
    | Entered                     // `_enter_attempt` called; mkdir next
    | Made                        // run directory made; `started` is not set yet
    | Started                     // create pending.json next
    | WritingPending
    | Monitoring                  // the monitored command runs
    | Sealing                     // monitor ended verified; compare the lock inode again
    | Certified                   // create completion.json next
    | WritingCompletion
    | Closing                     // completion.json written; close the lock
    | Marking(signal: bool)       // an exception after mkdir: leave the blocked marker
    | WritingMarker(signal: bool)
    | Returned(outcome: Outcome)
    | Killed

  datatype Proc = Proc(call: Call, fd: Inode, pc: Pc)

  function ContractOf(p: Proc): Contract {
    Contract(p.call.lock, p.fd, p.call.blocked)
  }

  predicate HoldsLock(pc: Pc) {
    pc.Locked? || pc.Rechecking? || pc.Listing? || pc.CreatingContract? || pc.WritingContract?
    || pc.ReadingContract? || PastContract(pc)
  }

  predicate PastContract(pc: Pc) {
    pc.Scanning? || PastEnter(pc)
  }

  // Live and past the explicit attempt boundary.
  predicate PastEnter(pc: Pc) {
    pc.Entered? || OwnsRun(pc)
  }

  // Live and past a successful mkdir.
  predicate OwnsRun(pc: Pc) {
    pc.Made? || pc.Started? || pc.WritingPending? || pc.Monitoring? || pc.Sealing? || pc.Certified?
    || pc.WritingCompletion? || pc.Closing? || pc.Marking? || pc.WritingMarker?
  }

  predicate Live(pc: Pc) { !pc.Returned? && !pc.Killed? }

  // ---------------------------------------------------------------- observers (runner_status)

  datatype Report = BlockedReport | Busy | Uninitialized | Unresolved | VerifiedHistory(count: nat)

  datatype ObserverPc =
    | Looking          // test the blocked marker
    | LookOpened       // lock opened; compare inodes
    | LookContending   // flock, shared and non-blocking
    | LookUnblocked    // second test of the marker
    | LookListing
    | LookReading
    | LookScanning(todo: set<RunId>, count: nat)
    | LookConfirming(count: nat)  // final comparison of inodes and test of the marker
    | Reported(report: Report)

  datatype Observer = Observer(lock: Path, blocked: Path, fd: Inode, pc: ObserverPc)

  function ObservedContract(o: Observer): Contract { Contract(o.lock, o.fd, o.blocked) }

  predicate HoldsShared(pc: ObserverPc) {
    pc.LookUnblocked? || pc.LookListing? || pc.LookReading? || LookedPastContract(pc)
  }

  predicate LookedPastContract(pc: ObserverPc) { pc.LookScanning? || pc.LookConfirming? }

  // ---------------------------------------------------------------- state and steps

  datatype State = State(
    locks: map<Path, Inode>,        // what each lock path names now
    exclusive: map<Inode, Actor>,   // flock owners
    shared: map<Actor, Inode>,      // observers holding a shared flock
    markers: set<Path>,             // blocked markers present
    contract: ContractFile,
    runs: map<RunId, RunDir>,
    procs: map<Actor, Proc>,
    observers: map<Actor, Observer>)

  ghost predicate Init(s: State) {
    && s.exclusive == map[] && s.shared == map[]
    && s.contract == NoContract && s.runs == map[]
    && s.procs == map[] && s.observers == map[]
  }

  datatype Step =
    | Begin(actor: Actor, call: Call)
    | Advance(actor: Actor, inode: Inode, pick: RunId) // `inode`: what O_CREAT would allocate
    | Fail(actor: Actor, signal: bool)                 // the next operation raises
    | Kill(actor: Actor)
    | ReplaceLock(path: Path, target: Option<Inode>)
    | Observe(actor: Actor, lock: Path, blocked: Path)
    | Look(actor: Actor, pick: RunId)
    | StopLooking(actor: Actor)                        // the observer fails or is killed

  predicate Enabled(s: State, step: Step) {
    match step
    case Begin(a, _) => a !in s.procs
    case Advance(a, inode, pick) =>
      && a in s.procs && Live(s.procs[a].pc)
      && (s.procs[a].pc.Scanning? && s.procs[a].pc.todo != {} ==> pick in s.procs[a].pc.todo)
    case Fail(a, _) => a in s.procs && Live(s.procs[a].pc)
    case Kill(a) => a in s.procs && Live(s.procs[a].pc)
    case ReplaceLock(_, _) => true
    case Observe(o, _, _) => o !in s.observers
    case Look(o, pick) =>
      && o in s.observers && !s.observers[o].pc.Reported?
      && (s.observers[o].pc.LookScanning? && s.observers[o].pc.todo != {}
          ==> pick in s.observers[o].pc.todo)
    case StopLooking(o) => o in s.observers && !s.observers[o].pc.Reported?
  }

  function Goto(s: State, a: Actor, pc: Pc): State
    requires a in s.procs
  {
    s.(procs := s.procs[a := s.procs[a].(pc := pc)])
  }

  // Closing the descriptor drops whatever flock this process owns.
  function Unlock(s: State, a: Actor): State {
    s.(exclusive := map i | i in s.exclusive && s.exclusive[i] != a :: s.exclusive[i])
  }

  function Return(s: State, a: Actor, outcome: Outcome): State
    requires a in s.procs
  {
    Goto(Unlock(s, a), a, Returned(outcome))
  }

  function Thrown(signal: bool): Outcome { if signal then Interrupted else Raised }

  // An exception at the process's current point, as `_run_controlled` and `run_controlled`
  // handle it: before the attempt boundary it is a preflight refusal, unless it is a signal; once
  // `started` is set the blocked marker is left before the lock is closed.
  function Abort(s: State, a: Actor, signal: bool): State
    requires a in s.procs
  {
    var pc := s.procs[a].pc;
    if pc.Marking? || pc.WritingMarker? then Return(s, a, Thrown(pc.signal))
    else if OwnsRun(pc) && !pc.Made? then Goto(s, a, Marking(signal))
    else if PastEnter(pc) || signal then Return(s, a, Thrown(signal))
    else Return(s, a, Refused)
  }

  // Another owner of the inode, exclusive or shared, makes a non-blocking flock fail.
  predicate Contended(s: State, inode: Inode) {
    inode in s.exclusive || inode in s.shared.Values
  }

  function SetRun(s: State, r: RunId, dir: RunDir): State {
    s.(runs := s.runs[r := dir])
  }

  predicate SameInode(s: State, p: Proc) {
    p.call.lock in s.locks && s.locks[p.call.lock] == p.fd
  }

  /** The next action of a process that does not have the lock yet. */
  function Admit(s: State, a: Actor, inode: Inode): State
    requires a in s.procs && Live(s.procs[a].pc) && !HoldsLock(s.procs[a].pc)
  {
    var p := s.procs[a];
    match p.pc
    case Checking =>
      if p.call.blocked in s.markers then Abort(s, a, false) else Goto(s, a, Opening)
    case Opening =>
      var s1 := if p.call.lock in s.locks then s else s.(locks := s.locks[p.call.lock := inode]);
      s1.(procs := s1.procs[a := p.(fd := s1.locks[p.call.lock], pc := Opened)])
    case Opened =>
      if SameInode(s, p) then Goto(s, a, Contending) else Abort(s, a, false)
    case Contending =>
      if Contended(s, p.fd) then Abort(s, a, false)
      else Goto(s.(exclusive := s.exclusive[p.fd := a]), a, Locked)
  }

  /** The next action of a lock owner before the attempt boundary. */
  function Examine(s: State, a: Actor, pick: RunId): State
    requires a in s.procs && HoldsLock(s.procs[a].pc) && !PastEnter(s.procs[a].pc)
  {
    var p := s.procs[a];
    match p.pc
    case Locked =>
      if p.call.blocked in s.markers then Abort(s, a, false) else Goto(s, a, Rechecking)
    case Rechecking =>
      if SameInode(s, p) then Goto(s, a, Listing) else Abort(s, a, false)
    case Listing =>
      if s.contract == NoContract && s.runs == map[] then Goto(s, a, CreatingContract)
      else Goto(s, a, ReadingContract)
    case CreatingContract =>
      if s.contract == NoContract then Goto(s.(contract := TornContract), a, WritingContract)
      else Abort(s, a, false)
    case WritingContract =>
      Goto(s.(contract := SavedContract(ContractOf(p))), a, ReadingContract)
    case ReadingContract =>
      if s.contract == SavedContract(ContractOf(p)) then Goto(s, a, Scanning(s.runs.Keys))
      else Abort(s, a, false)
    case Scanning(todo) =>
      if todo == {} then Goto(s, a, Entered)
      else if pick in s.runs && Verifies(ContractOf(p), pick, s.runs[pick])
      then Goto(s, a, Scanning(todo - {pick}))
      else Abort(s, a, false)
  }

  // Points of an attempt whose next action changes the run directory.
  predicate WritesRun(pc: Pc) {
    pc.Entered? || pc.Started? || pc.WritingPending? || pc.Certified? || pc.WritingCompletion?
  }

  /** The next action of a process past the attempt boundary, on its own run directory. */
  function Record(s: State, a: Actor): State
    requires a in s.procs && WritesRun(s.procs[a].pc)
  {
    var p := s.procs[a];
    var r := p.call.run;
    match p.pc
    case Entered =>
      if r in s.runs then Abort(s, a, false)
      else Goto(SetRun(s, r, RunDir(a, NoPending, NoCompletion)), a, Made)
    case Started =>
      if r in s.runs && s.runs[r].pending == NoPending
      then Goto(SetRun(s, r, s.runs[r].(pending := TornPending)), a, WritingPending)
      else Abort(s, a, false)
    case WritingPending =>
      if r in s.runs
      then Goto(SetRun(s, r, s.runs[r].(pending := SavedPending(r, ContractOf(p)))), a, Monitoring)
      else Abort(s, a, false)
    case Certified =>
      if r in s.runs && s.runs[r].completion == NoCompletion
      then Goto(SetRun(s, r, s.runs[r].(completion := TornCompletion)), a, WritingCompletion)
      else Abort(s, a, false)
    case WritingCompletion =>
      if r in s.runs
      then Goto(SetRun(s, r, s.runs[r].(completion := SavedCompletion(r))), a, Closing)
      else Abort(s, a, false)
  }

  /** The next action of a process past the attempt boundary, elsewhere. */
  function Conclude(s: State, a: Actor): State
    requires a in s.procs && PastEnter(s.procs[a].pc) && !WritesRun(s.procs[a].pc)
  {
    var p := s.procs[a];
    match p.pc
    case Made => Goto(s, a, Started)
    case Monitoring => Goto(s, a, Sealing)
    case Sealing =>
      if SameInode(s, p) then Goto(s, a, Certified) else Abort(s, a, false)
    case Closing => Return(s, a, Completed)
    case Marking(signal) =>
      if p.call.blocked in s.markers then Return(s, a, Thrown(signal))
      else Goto(s.(markers := s.markers + {p.call.blocked}), a, WritingMarker(signal))
    case WritingMarker(signal) => Return(s, a, Thrown(signal))
  }

  function Answer(s: State, o: Actor, report: Report): State
    requires o in s.observers
  {
    s.(shared := s.shared - {o},
       observers := s.observers[o := s.observers[o].(pc := Reported(report))])
  }

  function LookOn(s: State, o: Actor, pc: ObserverPc): State
    requires o in s.observers
  {
    s.(observers := s.observers[o := s.observers[o].(pc := pc)])
  }

  predicate SeesSameInode(s: State, v: Observer) { v.lock in s.locks && s.locks[v.lock] == v.fd }

  predicate LooksAtHistory(pc: ObserverPc) {
    pc.LookListing? || pc.LookReading? || LookedPastContract(pc)
  }

  /** The next action of a `runner_status` observer before it lists the state directory. */
  function Glance(s: State, o: Actor): State
    requires o in s.observers && !s.observers[o].pc.Reported?
    requires !LooksAtHistory(s.observers[o].pc)
  {
    var v := s.observers[o];
    match v.pc
    case Looking =>
      if v.blocked in s.markers then Answer(s, o, BlockedReport)
      else if v.lock !in s.locks then Answer(s, o, Unresolved)
      else s.(observers := s.observers[o := v.(fd := s.locks[v.lock], pc := LookOpened)])
    case LookOpened =>
      if SeesSameInode(s, v) then LookOn(s, o, LookContending) else Answer(s, o, Unresolved)
    case LookContending =>
      if v.fd in s.exclusive then Answer(s, o, Busy)
      else LookOn(s.(shared := s.shared[o := v.fd]), o, LookUnblocked)
    case LookUnblocked =>
      if v.blocked in s.markers then Answer(s, o, Unresolved) else LookOn(s, o, LookListing)
  }

  /** The next action of an observer on the state directory. */
  function Inspect(s: State, o: Actor, pick: RunId): State
    requires o in s.observers && LooksAtHistory(s.observers[o].pc)
  {
    var v := s.observers[o];
    match v.pc
    case LookListing =>
      if s.contract == NoContract && s.runs == map[] then Answer(s, o, Uninitialized)
      else LookOn(s, o, LookReading)
    case LookReading =>
      if s.contract == SavedContract(ObservedContract(v))
      then LookOn(s, o, LookScanning(s.runs.Keys, 0))
      else Answer(s, o, Unresolved)
    case LookScanning(todo, count) =>
      if todo == {} then LookOn(s, o, LookConfirming(count))
      else if pick in s.runs && Verifies(ObservedContract(v), pick, s.runs[pick])
      then LookOn(s, o, LookScanning(todo - {pick}, count + 1))
      else Answer(s, o, Unresolved)
    case LookConfirming(count) =>
      if SeesSameInode(s, v) && v.blocked !in s.markers then Answer(s, o, VerifiedHistory(count))
      else Answer(s, o, Unresolved)
  }

  function Apply(s: State, step: Step): State
    requires Enabled(s, step)
  {
    match step
    case Begin(a, call) => s.(procs := s.procs[a := Proc(call, 0, Checking)])
    case Advance(a, inode, pick) =>
      var pc := s.procs[a].pc;
      if !HoldsLock(pc) then Admit(s, a, inode)
      else if !PastEnter(pc) then Examine(s, a, pick)
      else if WritesRun(pc) then Record(s, a)
      else Conclude(s, a)
    case Fail(a, signal) => Abort(s, a, signal)
    case Kill(a) => Goto(Unlock(s, a), a, Killed)
    case ReplaceLock(path, target) =>
      s.(locks := if target.Some? then s.locks[path := target.value] else s.locks - {path})
    case Observe(o, lock, blocked) =>
      s.(observers := s.observers[o := Observer(lock, blocked, 0, Looking)])
    case Look(o, pick) =>
      if LooksAtHistory(s.observers[o].pc) then Inspect(s, o, pick) else Glance(s, o)
    case StopLooking(o) => Answer(s, o, Unresolved)
  }

  // ---------------------------------------------------------------- invariants

  /** The run directories that lack a verified pending/completion pair. */
  function Unverified(contract: ContractFile, runs: map<RunId, RunDir>): set<RunId> {
    set r | r in runs && !(contract.SavedContract? && Verifies(contract.contract, r, runs[r]))
  }

  // What the owner's program counter says about its run directory.
  predicate StageOf(pc: Pc, c: Contract, r: RunId, dir: RunDir) {
    match pc
    case Made | Started => dir.pending == NoPending && dir.completion == NoCompletion
    case WritingPending => dir.pending == TornPending && dir.completion == NoCompletion
    case Monitoring | Sealing | Certified =>
      dir.pending == SavedPending(r, c) && dir.completion == NoCompletion
    case WritingCompletion => dir.pending == SavedPending(r, c) && dir.completion == TornCompletion
    case Closing => Verifies(c, r, dir)
    case _ => true
  }

  predicate Owns(a: Actor, r: RunId, runs: map<RunId, RunDir>) {
    r in runs && runs[r].owner == a
  }

  // A process owns the flock it thinks it owns; past the contract check it agrees with the one
  // contract on file; and it knows which directories can still be unverified.
  predicate ProcInv(a: Actor, p: Proc, exclusive: map<Inode, Actor>, contract: ContractFile,
                    runs: map<RunId, RunDir>)
  {
    var r := p.call.run;
    && (HoldsLock(p.pc) ==> p.fd in exclusive && exclusive[p.fd] == a)
    && (PastContract(p.pc) ==> contract == SavedContract(ContractOf(p)))
    && (p.pc.WritingContract? ==> contract == TornContract && runs == map[])
    && (p.pc.Scanning? ==> Unverified(contract, runs) <= p.pc.todo)
    && (p.pc.Entered? ==> Unverified(contract, runs) == {})
    && (OwnsRun(p.pc) ==>
          && Unverified(contract, runs) <= {r} && Owns(a, r, runs)
          && StageOf(p.pc, ContractOf(p), r, runs[r]))
    && (p.pc == Returned(Completed) ==> Owns(a, r, runs) && r !in Unverified(contract, runs))
  }

  predicate ObserverInv(o: Actor, v: Observer, shared: map<Actor, Inode>, contract: ContractFile,
                        runs: map<RunId, RunDir>)
  {
    && (HoldsShared(v.pc) ==> o in shared && shared[o] == v.fd)
    && (LookedPastContract(v.pc) ==> contract == SavedContract(ObservedContract(v)))
    && (v.pc.LookScanning? ==>
          && Unverified(contract, runs) <= v.pc.todo <= runs.Keys
          && v.pc.count == |runs.Keys - v.pc.todo|)
    && (v.pc.LookConfirming? ==> Unverified(contract, runs) == {} && v.pc.count == |runs|)
  }

  // Processes that ever made a run directory are at or past mkdir, and never a refusal.
  predicate MayOwn(pc: Pc) {
    OwnsRun(pc) || pc.Killed? || (pc.Returned? && !pc.outcome.Refused?)
  }

  predicate DirInv(r: RunId, dir: RunDir, procs: map<Actor, Proc>) {
    dir.owner in procs && procs[dir.owner].call.run == r && MayOwn(procs[dir.owner].pc)
  }

  ghost predicate ProcsInv(procs: map<Actor, Proc>, exclusive: map<Inode, Actor>,
                           contract: ContractFile, runs: map<RunId, RunDir>)
  {
    forall a :: a in procs ==> ProcInv(a, procs[a], exclusive, contract, runs)
  }

  // At most one process is between creating contract.json and writing it.
  ghost predicate OneWriter(procs: map<Actor, Proc>) {
    forall a, b | a in procs && b in procs ::
      procs[a].pc.WritingContract? && procs[b].pc.WritingContract? ==> a == b
  }

  ghost predicate ObserversInv(observers: map<Actor, Observer>, shared: map<Actor, Inode>,
                               contract: ContractFile, runs: map<RunId, RunDir>)
  {
    forall o :: o in observers ==> ObserverInv(o, observers[o], shared, contract, runs)
  }

  ghost predicate DirsInv(runs: map<RunId, RunDir>, procs: map<Actor, Proc>) {
    forall r :: r in runs ==> DirInv(r, runs[r], procs)
  }

  ghost predicate LocksInv(shared: map<Actor, Inode>, exclusive: map<Inode, Actor>) {
    forall o :: o in shared ==> shared[o] !in exclusive
  }

  predicate HistoryInv(contract: ContractFile, runs: map<RunId, RunDir>) {
    && (runs != map[] ==> contract.SavedContract?)
    && |Unverified(contract, runs)| <= 1
  }

  ghost predicate Inv(s: State) {
    && ProcsInv(s.procs, s.exclusive, s.contract, s.runs) && OneWriter(s.procs)
    && ObserversInv(s.observers, s.shared, s.contract, s.runs)
    && DirsInv(s.runs, s.procs) && LocksInv(s.shared, s.exclusive)
    && HistoryInv(s.contract, s.runs)
  }

  // ---------------------------------------------------------------- every step keeps them

  lemma InitInv(s: State)
    requires Init(s)
    ensures Inv(s)
  {
    assert Unverified(s.contract, s.runs) == {};
  }

  /** Two live processes past the contract check are one process, and exclude observers there. */
  lemma Exclusive(s: State, a: Actor)
    requires Inv(s) && a in s.procs && PastContract(s.procs[a].pc)
    ensures forall b :: b in s.procs && PastContract(s.procs[b].pc) ==> b == a
    ensures forall o :: o in s.observers ==> !LookedPastContract(s.observers[o].pc)
  {
  }

  // Moving one process's counter forward, all else equal.
  lemma GotoKeeps(s: State, a: Actor, pc: Pc)
    requires Inv(s) && a in s.procs
    requires !pc.WritingContract?
    requires MayOwn(s.procs[a].pc) ==> MayOwn(pc)
    requires ProcInv(a, s.procs[a].(pc := pc), s.exclusive, s.contract, s.runs)
    ensures Inv(Goto(s, a, pc))
  {
  }

  // Nobody else owns the flock that a process drops.
  lemma UnlockSpares(s: State, a: Actor, pc: Pc)
    requires Inv(s) && a in s.procs && !Live(pc)
    requires ProcInv(a, s.procs[a].(pc := pc), s.exclusive, s.contract, s.runs)
    ensures var t := Goto(Unlock(s, a), a, pc);
            ProcsInv(t.procs, t.exclusive, t.contract, t.runs) && OneWriter(t.procs)
  {
  }

  // Dropping a process's flock keeps everything once the process no longer counts as a holder.
  lemma ReturnKeeps(s: State, a: Actor, pc: Pc)
    requires Inv(s) && a in s.procs && !Live(pc)
    requires MayOwn(s.procs[a].pc) ==> MayOwn(pc)
    requires ProcInv(a, s.procs[a].(pc := pc), s.exclusive, s.contract, s.runs)
    ensures Inv(Goto(Unlock(s, a), a, pc))
  {
    UnlockSpares(s, a, pc);
    assert DirsInv(s.runs, Goto(Unlock(s, a), a, pc).procs);
  }

  lemma AbortKeeps(s: State, a: Actor, signal: bool)
    requires Inv(s) && a in s.procs && Live(s.procs[a].pc)
    ensures Inv(Abort(s, a, signal))
  {
    var pc := s.procs[a].pc;
    if pc.Marking? || pc.WritingMarker? {
      ReturnKeeps(s, a, Returned(Thrown(pc.signal)));
    } else if OwnsRun(pc) && !pc.Made? {
      GotoKeeps(s, a, Marking(signal));
    } else if PastEnter(pc) || signal {
      ReturnKeeps(s, a, Returned(Thrown(signal)));
    } else {
      ReturnKeeps(s, a, Returned(Refused));
    }
  }

  lemma OpenKeeps(s: State, a: Actor, inode: Inode)
    requires Inv(s) && a in s.procs && s.procs[a].pc.Opening?
    ensures Inv(Admit(s, a, inode))
  {
    var p := s.procs[a];
    var s1 := if p.call.lock in s.locks then s else s.(locks := s.locks[p.call.lock := inode]);
    var q := p.(fd := s1.locks[p.call.lock], pc := Opened);
    assert ProcsInv(s.procs[a := q], s.exclusive, s.contract, s.runs);
    assert OneWriter(s.procs[a := q]) && DirsInv(s.runs, s.procs[a := q]);
  }

  lemma AcquireKeeps(s: State, a: Actor)
    requires Inv(s) && a in s.procs && s.procs[a].pc.Contending?
    requires !Contended(s, s.procs[a].fd)
    ensures Inv(Goto(s.(exclusive := s.exclusive[s.procs[a].fd := a]), a, Locked))
  {
  }

  // Creating contract.json: nobody can be past the contract check yet.
  lemma CreateContractKeeps(s: State, a: Actor)
    requires Inv(s) && a in s.procs && s.procs[a].pc.CreatingContract?
    requires s.contract == NoContract
    ensures Inv(Goto(s.(contract := TornContract), a, WritingContract))
  {
    assert Unverified(TornContract, s.runs) == {};
  }

  lemma WriteContractKeeps(s: State, a: Actor)
    requires Inv(s) && a in s.procs && s.procs[a].pc.WritingContract?
    ensures Inv(Goto(s.(contract := SavedContract(ContractOf(s.procs[a]))), a, ReadingContract))
  {
    assert Unverified(SavedContract(ContractOf(s.procs[a])), s.runs) == {};
  }

  // The tests of the marker and of the lock's identity either move on or refuse.
  lemma TestKeeps(s: State, a: Actor, pass: bool, pc: Pc)
    requires Inv(s) && a in s.procs && Live(s.procs[a].pc)
    requires pass ==> !pc.WritingContract? && (MayOwn(s.procs[a].pc) ==> MayOwn(pc))
    requires pass ==> ProcInv(a, s.procs[a].(pc := pc), s.exclusive, s.contract, s.runs)
    ensures Inv(if pass then Goto(s, a, pc) else Abort(s, a, false))
  {
    if pass { GotoKeeps(s, a, pc); } else { AbortKeeps(s, a, false); }
  }

  lemma AdmitKeeps(s: State, a: Actor, inode: Inode)
    requires Inv(s) && a in s.procs && Live(s.procs[a].pc) && !HoldsLock(s.procs[a].pc)
    ensures Inv(Admit(s, a, inode))
  {
    var p := s.procs[a];
    match p.pc
    case Checking => TestKeeps(s, a, p.call.blocked !in s.markers, Opening);
    case Opening => OpenKeeps(s, a, inode);
    case Opened => TestKeeps(s, a, SameInode(s, p), Contending);
    case Contending =>
      if Contended(s, p.fd) { AbortKeeps(s, a, false); } else { AcquireKeeps(s, a); }
  }

  lemma ExamineKeeps(s: State, a: Actor, pick: RunId)
    requires Inv(s) && a in s.procs && HoldsLock(s.procs[a].pc) && !PastEnter(s.procs[a].pc)
    ensures Inv(Examine(s, a, pick))
  {
    var p := s.procs[a];
    match p.pc
    case Locked => TestKeeps(s, a, p.call.blocked !in s.markers, Rechecking);
    case Rechecking => TestKeeps(s, a, SameInode(s, p), Listing);
    case ReadingContract =>
      TestKeeps(s, a, s.contract == SavedContract(ContractOf(p)), Scanning(s.runs.Keys));
    case Scanning(todo) => ScanKeeps(s, a, pick);
    case _ => ContractKeeps(s, a, pick);
  }

  lemma ContractKeeps(s: State, a: Actor, pick: RunId)
    requires Inv(s) && a in s.procs
    requires s.procs[a].pc.Listing? || s.procs[a].pc.CreatingContract? || s.procs[a].pc.WritingContract?
    ensures Inv(Examine(s, a, pick))
  {
    match s.procs[a].pc
    case Listing =>
      if s.contract == NoContract && s.runs == map[] { GotoKeeps(s, a, CreatingContract); }
      else { GotoKeeps(s, a, ReadingContract); }
    case CreatingContract =>
      if s.contract == NoContract { CreateContractKeeps(s, a); } else { AbortKeeps(s, a, false); }
    case _ => WriteContractKeeps(s, a);
  }

  lemma ScanKeeps(s: State, a: Actor, pick: RunId)
    requires Inv(s) && a in s.procs && s.procs[a].pc.Scanning?
    ensures Inv(Examine(s, a, pick))
  {
    var p := s.procs[a];
    var todo := p.pc.todo;
    assert ProcInv(a, p, s.exclusive, s.contract, s.runs);
    if todo == {} {
      GotoKeeps(s, a, Entered);
    } else {
      TestKeeps(s, a, pick in s.runs && Verifies(ContractOf(p), pick, s.runs[pick]),
                Scanning(todo - {pick}));
    }
  }

  lemma AtMostOne(u: set<RunId>, r: RunId)
    requires u <= {r}
    ensures |u| <= 1
  {
    assert u == {} || u == {r};
  }

  // What a process past the attempt boundary may make of its own run directory.
  predicate Proceeds(s: State, a: Actor, dir: RunDir, pc: Pc) {
    && a in s.procs && PastEnter(s.procs[a].pc) && OwnsRun(pc)
    && (s.procs[a].pc.Entered? ==> s.procs[a].call.run !in s.runs)
    && dir.owner == a
    && StageOf(pc, ContractOf(s.procs[a]), s.procs[a].call.run, dir)
  }

  lemma OwnRunHistory(s: State, a: Actor, dir: RunDir, pc: Pc)
    requires Inv(s) && Proceeds(s, a, dir, pc)
    ensures HistoryInv(s.contract, s.runs[s.procs[a].call.run := dir])
    ensures Unverified(s.contract, s.runs[s.procs[a].call.run := dir]) <= {s.procs[a].call.run}
    ensures Unverified(s.contract, s.runs) <= {s.procs[a].call.run}
  {
    var r := s.procs[a].call.run;
    assert ProcInv(a, s.procs[a], s.exclusive, s.contract, s.runs);
    AtMostOne(Unverified(s.contract, s.runs[r := dir]), r);
  }

  // Nobody else is past the contract check, and finished runs stay as they were.
  lemma OwnRunSparesProcs(s: State, a: Actor, b: Actor, dir: RunDir, pc: Pc)
    requires Inv(s) && Proceeds(s, a, dir, pc) && b in s.procs && b != a
    ensures ProcInv(b, s.procs[b], s.exclusive, s.contract, s.runs[s.procs[a].call.run := dir])
  {
    Exclusive(s, a);
    OwnRunHistory(s, a, dir, pc);
    assert ProcInv(b, s.procs[b], s.exclusive, s.contract, s.runs);
    assert ProcInv(a, s.procs[a], s.exclusive, s.contract, s.runs);
  }

  lemma OwnRunSparesObservers(s: State, a: Actor, dir: RunDir, pc: Pc)
    requires Inv(s) && Proceeds(s, a, dir, pc)
    ensures ObserversInv(s.observers, s.shared, s.contract, s.runs[s.procs[a].call.run := dir])
  {
    Exclusive(s, a);
    forall o | o in s.observers
      ensures ObserverInv(o, s.observers[o], s.shared, s.contract,
                          s.runs[s.procs[a].call.run := dir])
    {
      assert ObserverInv(o, s.observers[o], s.shared, s.contract, s.runs);
    }
  }

  lemma OwnRunSparesDirs(runs: map<RunId, RunDir>, procs: map<Actor, Proc>, a: Actor,
                         dir: RunDir, pc: Pc)
    requires DirsInv(runs, procs) && a in procs && OwnsRun(pc) && dir.owner == a
    ensures DirsInv(runs[procs[a].call.run := dir], procs[a := procs[a].(pc := pc)])
  {
    var after := runs[procs[a].call.run := dir];
    forall r | r in after
      ensures DirInv(r, after[r], procs[a := procs[a].(pc := pc)])
    {
      assert r in runs ==> DirInv(r, runs[r], procs);
    }
  }

  lemma OwnRunOwner(s: State, a: Actor, dir: RunDir, pc: Pc)
    requires Inv(s) && Proceeds(s, a, dir, pc)
    ensures ProcInv(a, s.procs[a].(pc := pc), s.exclusive, s.contract,
                    s.runs[s.procs[a].call.run := dir])
  {
    OwnRunHistory(s, a, dir, pc);
    assert ProcInv(a, s.procs[a], s.exclusive, s.contract, s.runs);
  }

  lemma OwnRunProcs(s: State, a: Actor, dir: RunDir, pc: Pc)
    requires Inv(s) && Proceeds(s, a, dir, pc)
    ensures ProcsInv(s.procs[a := s.procs[a].(pc := pc)], s.exclusive, s.contract,
                     s.runs[s.procs[a].call.run := dir])
    ensures OneWriter(s.procs[a := s.procs[a].(pc := pc)])
  {
    OwnRunOwner(s, a, dir, pc);
    forall b | b in s.procs && b != a
      ensures ProcInv(b, s.procs[b], s.exclusive, s.contract, s.runs[s.procs[a].call.run := dir])
    {
      OwnRunSparesProcs(s, a, b, dir, pc);
    }
  }

  lemma OwnRunKeeps(s: State, a: Actor, dir: RunDir, pc: Pc)
    requires Inv(s) && Proceeds(s, a, dir, pc)
    ensures Inv(Goto(SetRun(s, s.procs[a].call.run, dir), a, pc))
  {
    OwnRunProcs(s, a, dir, pc);
    OwnRunSparesObservers(s, a, dir, pc);
    OwnRunSparesDirs(s.runs, s.procs, a, dir, pc);
    OwnRunHistory(s, a, dir, pc);
  }

  lemma RecordKeeps(s: State, a: Actor)
    requires Inv(s) && a in s.procs && WritesRun(s.procs[a].pc)
    ensures Inv(Record(s, a))
  {
    var p := s.procs[a];
    var r := p.call.run;
    assert ProcInv(a, p, s.exclusive, s.contract, s.runs);
    match p.pc
    case Entered =>
      if r in s.runs { AbortKeeps(s, a, false); }
      else { OwnRunKeeps(s, a, RunDir(a, NoPending, NoCompletion), Made); }
    case Started =>
      OwnRunKeeps(s, a, s.runs[r].(pending := TornPending), WritingPending);
    case WritingPending =>
      OwnRunKeeps(s, a, s.runs[r].(pending := SavedPending(r, ContractOf(p))), Monitoring);
    case Certified =>
      OwnRunKeeps(s, a, s.runs[r].(completion := TornCompletion), WritingCompletion);
    case WritingCompletion =>
      OwnRunKeeps(s, a, s.runs[r].(completion := SavedCompletion(r)), Closing);
  }

  lemma ConcludeKeeps(s: State, a: Actor)
    requires Inv(s) && a in s.procs && PastEnter(s.procs[a].pc) && !WritesRun(s.procs[a].pc)
    ensures Inv(Conclude(s, a))
  {
    var p := s.procs[a];
    match p.pc
    case Made => GotoKeeps(s, a, Started);
    case Monitoring => GotoKeeps(s, a, Sealing);
    case Sealing => TestKeeps(s, a, SameInode(s, p), Certified);
    case Closing => ReturnKeeps(s, a, Returned(Completed));
    case Marking(signal) =>
      if p.call.blocked in s.markers { ReturnKeeps(s, a, Returned(Thrown(signal))); }
      else { GotoKeeps(s, a, WritingMarker(signal)); }
    case WritingMarker(signal) => ReturnKeeps(s, a, Returned(Thrown(signal)));
  }

  lemma ReportKeeps(s: State, o: Actor, report: Report)
    requires Inv(s) && o in s.observers
    ensures Inv(Answer(s, o, report))
  {
  }

  lemma LookOnKeeps(s: State, o: Actor, pc: ObserverPc)
    requires Inv(s) && o in s.observers
    requires ObserverInv(o, s.observers[o].(pc := pc), s.shared, s.contract, s.runs)
    ensures Inv(LookOn(s, o, pc))
  {
  }

  // A test by an observer either moves on or reports.
  lemma LookTestKeeps(s: State, o: Actor, pass: bool, pc: ObserverPc, report: Report)
    requires Inv(s) && o in s.observers
    requires pass ==> ObserverInv(o, s.observers[o].(pc := pc), s.shared, s.contract, s.runs)
    ensures Inv(if pass then LookOn(s, o, pc) else Answer(s, o, report))
  {
    if pass { LookOnKeeps(s, o, pc); } else { ReportKeeps(s, o, report); }
  }

  lemma ShareKeeps(s: State, o: Actor)
    requires Inv(s) && o in s.observers && s.observers[o].fd !in s.exclusive
    requires s.observers[o].pc.LookContending?
    ensures Inv(LookOn(s.(shared := s.shared[o := s.observers[o].fd]), o, LookUnblocked))
  {
  }

  lemma GlanceKeeps(s: State, o: Actor)
    requires Inv(s) && o in s.observers && !s.observers[o].pc.Reported?
    requires !LooksAtHistory(s.observers[o].pc)
    ensures Inv(Glance(s, o))
  {
    var v := s.observers[o];
    match v.pc
    case Looking =>
      if v.blocked in s.markers { ReportKeeps(s, o, BlockedReport); }
      else if v.lock !in s.locks { ReportKeeps(s, o, Unresolved); }
    case LookOpened => LookTestKeeps(s, o, SeesSameInode(s, v), LookContending, Unresolved);
    case LookContending =>
      if v.fd in s.exclusive { ReportKeeps(s, o, Busy); } else { ShareKeeps(s, o); }
    case LookUnblocked => LookTestKeeps(s, o, v.blocked !in s.markers, LookListing, Unresolved);
  }

  lemma InspectKeeps(s: State, o: Actor, pick: RunId)
    requires Inv(s) && Enabled(s, Look(o, pick)) && LooksAtHistory(s.observers[o].pc)
    ensures Inv(Inspect(s, o, pick))
  {
    var v := s.observers[o];
    match v.pc
    case LookListing =>
      LookTestKeeps(s, o, s.contract != NoContract || s.runs != map[], LookReading, Uninitialized);
    case LookReading =>
      assert s.runs.Keys - s.runs.Keys == {};
      LookTestKeeps(s, o, s.contract == SavedContract(ObservedContract(v)),
                    LookScanning(s.runs.Keys, 0), Unresolved);
    case LookScanning(todo, count) => InspectScanKeeps(s, o, pick);
    case LookConfirming(count) =>
      ReportKeeps(s, o, if SeesSameInode(s, v) && v.blocked !in s.markers
                        then VerifiedHistory(count) else Unresolved);
  }

  lemma ScanCount(keys: set<RunId>, todo: set<RunId>, pick: RunId)
    requires pick in todo && todo <= keys
    ensures |keys - (todo - {pick})| == |keys - todo| + 1
  {
    assert keys - (todo - {pick}) == (keys - todo) + {pick};
  }

  lemma CountsOneMore(s: State, o: Actor, pick: RunId)
    requires Inv(s) && o in s.observers && s.observers[o].pc.LookScanning?
    requires pick in s.observers[o].pc.todo && pick in s.runs
    requires Verifies(ObservedContract(s.observers[o]), pick, s.runs[pick])
    ensures var v := s.observers[o];
            Inv(LookOn(s, o, LookScanning(v.pc.todo - {pick}, v.pc.count + 1)))
  {
    var v := s.observers[o];
    assert ObserverInv(o, v, s.shared, s.contract, s.runs);
    ScanCount(s.runs.Keys, v.pc.todo, pick);
    assert ObserverInv(o, v.(pc := LookScanning(v.pc.todo - {pick}, v.pc.count + 1)), s.shared,
                       s.contract, s.runs);
  }

  lemma CountsAll(s: State, o: Actor)
    requires Inv(s) && o in s.observers && s.observers[o].pc.LookScanning?
    requires s.observers[o].pc.todo == {}
    ensures Inv(LookOn(s, o, LookConfirming(s.observers[o].pc.count)))
  {
    var v := s.observers[o];
    assert ObserverInv(o, v, s.shared, s.contract, s.runs);
    assert s.runs.Keys - {} == s.runs.Keys;
    assert ObserverInv(o, v.(pc := LookConfirming(v.pc.count)), s.shared, s.contract, s.runs);
  }

  lemma InspectScanKeeps(s: State, o: Actor, pick: RunId)
    requires Inv(s) && Enabled(s, Look(o, pick)) && s.observers[o].pc.LookScanning?
    ensures Inv(Inspect(s, o, pick))
  {
    var v := s.observers[o];
    if v.pc.todo == {} {
      CountsAll(s, o);
    } else if pick in s.runs && Verifies(ObservedContract(v), pick, s.runs[pick]) {
      CountsOneMore(s, o, pick);
    } else {
      ReportKeeps(s, o, Unresolved);
    }
  }

  lemma StepKeeps(s: State, step: Step)
    requires Inv(s) && Enabled(s, step)
    ensures Inv(Apply(s, step))
  {
    match step
    case Begin(a, call) =>
    case Advance(a, inode, pick) =>
      if !HoldsLock(s.procs[a].pc) { AdmitKeeps(s, a, inode); }
      else if !PastEnter(s.procs[a].pc) { ExamineKeeps(s, a, pick); }
      else if WritesRun(s.procs[a].pc) { RecordKeeps(s, a); }
      else { ConcludeKeeps(s, a); }
    case Fail(a, signal) => AbortKeeps(s, a, signal);
    case Kill(a) => ReturnKeeps(s, a, Killed);
    case ReplaceLock(_, _) =>
    case Observe(o, _, _) =>
    case Look(o, pick) =>
      if LooksAtHistory(s.observers[o].pc) { InspectKeeps(s, o, pick); } else { GlanceKeeps(s, o); }
    case StopLooking(o) => ReportKeeps(s, o, Unresolved);
  }

  // ---------------------------------------------------------------- all runs

  ghost function Next(s: State, step: Step): Option<State> {
    if Enabled(s, step) then Some(Apply(s, step)) else None
  }

  ghost predicate Reachable(t: State) { exists s :: Init(s) && Leads(Next, s, t) }

  lemma InvIsKept()
    ensures forall s, step :: Inv(s) && Next(s, step).Some? ==> Inv(Next(s, step).value)
  {
    forall s, step | Inv(s) && Next(s, step).Some? ensures Inv(Next(s, step).value) {
      StepKeeps(s, step);
    }
  }

  lemma ReachableInv(t: State)
    requires Reachable(t)
    ensures Inv(t)
  {
    var s :| Init(s) && Leads(Next, s, t);
    var steps :| Exec(Next, s, steps) == Some(t);
    InitInv(s);
    InvIsKept();
    ExecKeeps(Next, Inv, s, steps);
  }

  /** At most one live process is past the attempt boundary, whatever the lock path names. */
  lemma MutualExclusion(t: State, a: Actor, b: Actor)
    requires Reachable(t)
    requires a in t.procs && PastEnter(t.procs[a].pc)
    requires b in t.procs && PastEnter(t.procs[b].pc)
    ensures a == b
  {
    ReachableInv(t);
    Exclusive(t, a);
  }

  lemma Same(u: set<RunId>, r: RunId, q: RunId)
    requires |u| <= 1 && r in u && q in u
    ensures r == q
  {
    assert |u - {r}| == |u| - 1;
  }

  /** At most one run directory lacks a verified pair, and a live owner is its only writer. */
  lemma AtMostOneUnresolved(t: State, r: RunId, q: RunId)
    requires Reachable(t)
    requires r in Unverified(t.contract, t.runs) && q in Unverified(t.contract, t.runs)
    ensures r == q
    ensures forall a :: a in t.procs && PastEnter(t.procs[a].pc) ==> t.runs[r].owner == a
  {
    ReachableInv(t);
    Same(Unverified(t.contract, t.runs), r, q);
    forall a | a in t.procs && PastEnter(t.procs[a].pc)
      ensures t.runs[r].owner == a
    {
      assert ProcInv(a, t.procs[a], t.exclusive, t.contract, t.runs);
    }
  }

  /** An unverified run whose owner is gone: killed, returned by an exception, or interrupted. */
  predicate Orphan(s: State, r: RunId) {
    && r in Unverified(s.contract, s.runs)
    && s.runs[r].owner in s.procs && !Live(s.procs[s.runs[r].owner].pc)
  }

  lemma OrphanStopsEveryone(s: State, r: RunId)
    requires Inv(s) && Orphan(s, r)
    ensures forall a :: a in s.procs ==> !PastEnter(s.procs[a].pc)
    ensures forall a :: a in s.procs ==> !s.procs[a].pc.WritingContract?
  {
    forall a | a in s.procs
      ensures !PastEnter(s.procs[a].pc) && !s.procs[a].pc.WritingContract?
    {
      assert ProcInv(a, s.procs[a], s.exclusive, s.contract, s.runs);
    }
  }

  // Only observers and the shared flock differ.
  predicate SameFiles(s: State, u: State) {
    && u.locks == s.locks && u.exclusive == s.exclusive && u.markers == s.markers
    && u.contract == s.contract && u.runs == s.runs && u.procs == s.procs
  }

  // A look ends in VERIFIED_HISTORY only from the confirming test.
  predicate HonestLook(s: State, u: State, o: Actor)
    requires o in s.observers
  {
    && SameFiles(s, u) && o in u.observers
    && (u.observers[o].pc.Reported? && u.observers[o].pc.report.VerifiedHistory? ==>
          s.observers[o].pc == LookConfirming(u.observers[o].pc.report.count))
  }

  lemma AnswerFrame(s: State, o: Actor, pass: bool, pc: ObserverPc, report: Report)
    requires o in s.observers && !pc.Reported?
    requires report.VerifiedHistory? ==> s.observers[o].pc == LookConfirming(report.count)
    ensures HonestLook(s, if pass then LookOn(s, o, pc) else Answer(s, o, report), o)
  {
  }

  lemma GlanceFrame(s: State, o: Actor)
    requires o in s.observers && !s.observers[o].pc.Reported?
    requires !LooksAtHistory(s.observers[o].pc)
    ensures HonestLook(s, Glance(s, o), o)
  {
    var v := s.observers[o];
    match v.pc
    case Looking =>
      AnswerFrame(s, o, false, Looking, BlockedReport);
      AnswerFrame(s, o, false, Looking, Unresolved);
    case LookOpened => AnswerFrame(s, o, SeesSameInode(s, v), LookContending, Unresolved);
    case LookContending => AnswerFrame(s, o, false, Looking, Busy);
    case LookUnblocked => AnswerFrame(s, o, v.blocked !in s.markers, LookListing, Unresolved);
  }

  lemma InspectFrame(s: State, o: Actor, pick: RunId)
    requires o in s.observers && LooksAtHistory(s.observers[o].pc)
    ensures HonestLook(s, Inspect(s, o, pick), o)
  {
    var v := s.observers[o];
    match v.pc
    case LookListing =>
      AnswerFrame(s, o, s.contract != NoContract || s.runs != map[], LookReading, Uninitialized);
    case LookReading =>
      AnswerFrame(s, o, s.contract == SavedContract(ObservedContract(v)),
                  LookScanning(s.runs.Keys, 0), Unresolved);
    case LookScanning(todo, count) =>
      AnswerFrame(s, o, true, LookConfirming(count), Unresolved);
      AnswerFrame(s, o, pick in s.runs && Verifies(ObservedContract(v), pick, s.runs[pick]),
                  LookScanning(todo - {pick}, count + 1), Unresolved);
    case LookConfirming(count) =>
      AnswerFrame(s, o, false, Looking, VerifiedHistory(count));
      AnswerFrame(s, o, false, Looking, Unresolved);
  }

  lemma LookFrame(s: State, o: Actor, pick: RunId)
    requires Enabled(s, Look(o, pick))
    ensures HonestLook(s, Apply(s, Look(o, pick)), o)
  {
    if LooksAtHistory(s.observers[o].pc) { InspectFrame(s, o, pick); } else { GlanceFrame(s, o); }
  }

  // The history and every other process are as they were.
  predicate SameHistory(s: State, u: State, a: Actor) {
    && u.runs == s.runs && u.contract == s.contract
    && forall b :: b in s.procs && b != a ==> b in u.procs && u.procs[b] == s.procs[b]
  }

  lemma GotoFrame(s: State, a: Actor, pc: Pc)
    requires a in s.procs
    ensures SameHistory(s, Goto(s, a, pc), a)
    ensures SameHistory(s, Goto(Unlock(s, a), a, pc), a)
  {
  }

  lemma AbortFrame(s: State, a: Actor, signal: bool)
    requires a in s.procs
    ensures SameHistory(s, Abort(s, a, signal), a)
  {
    var pc := s.procs[a].pc;
    if pc.Marking? || pc.WritingMarker? { GotoFrame(s, a, Returned(Thrown(pc.signal))); }
    else if OwnsRun(pc) { GotoFrame(s, a, Marking(signal)); }
    else if pc.Entered? || signal { GotoFrame(s, a, Returned(Thrown(signal))); }
    else { GotoFrame(s, a, Returned(Refused)); }
  }

  lemma TestFrame(s: State, a: Actor, pass: bool, pc: Pc)
    requires a in s.procs
    ensures SameHistory(s, if pass then Goto(s, a, pc) else Abort(s, a, false), a)
  {
    if pass { GotoFrame(s, a, pc); } else { AbortFrame(s, a, false); }
  }

  lemma AdmitFrame(s: State, a: Actor, inode: Inode)
    requires a in s.procs && Live(s.procs[a].pc) && !HoldsLock(s.procs[a].pc)
    ensures SameHistory(s, Admit(s, a, inode), a)
  {
    var p := s.procs[a];
    match p.pc
    case Checking => TestFrame(s, a, p.call.blocked !in s.markers, Opening);
    case Opening =>
    case Opened => TestFrame(s, a, SameInode(s, p), Contending);
    case Contending => TestFrame(s, a, false, Locked);
  }

  lemma ExamineFrame(s: State, a: Actor, pick: RunId)
    requires a in s.procs && HoldsLock(s.procs[a].pc) && !PastEnter(s.procs[a].pc)
    requires s.contract.SavedContract? && !s.procs[a].pc.WritingContract?
    ensures SameHistory(s, Examine(s, a, pick), a)
  {
    var p := s.procs[a];
    match p.pc
    case Locked => TestFrame(s, a, p.call.blocked !in s.markers, Rechecking);
    case Rechecking => TestFrame(s, a, SameInode(s, p), Listing);
    case Listing =>
      GotoFrame(s, a, ReadingContract);
      GotoFrame(s, a, CreatingContract);
    case CreatingContract => AbortFrame(s, a, false);
    case ReadingContract =>
      TestFrame(s, a, s.contract == SavedContract(ContractOf(p)), Scanning(s.runs.Keys));
    case Scanning(todo) =>
      GotoFrame(s, a, Entered);
      TestFrame(s, a, pick in s.runs && Verifies(ContractOf(p), pick, s.runs[pick]),
                Scanning(todo - {pick}));
  }

  // Before the boundary, and with a contract on file, no step changes the history.
  lemma StepFrame(s: State, step: Step)
    requires Enabled(s, step) && s.contract.SavedContract?
    requires forall a :: a in s.procs ==> !PastEnter(s.procs[a].pc) && !s.procs[a].pc.WritingContract?
    ensures Apply(s, step).runs == s.runs && Apply(s, step).contract == s.contract
    ensures forall b :: b in s.procs && !Live(s.procs[b].pc)
              ==> b in Apply(s, step).procs && Apply(s, step).procs[b] == s.procs[b]
  {
    match step
    case Advance(a, inode, pick) =>
      if HoldsLock(s.procs[a].pc) { ExamineFrame(s, a, pick); } else { AdmitFrame(s, a, inode); }
    case Look(o, pick) => LookFrame(s, o, pick);
    case Begin(_, _) =>
    case Fail(a, signal) => AbortFrame(s, a, signal);
    case Kill(a) => GotoFrame(s, a, Killed);
    case ReplaceLock(_, _) =>
    case Observe(_, _, _) =>
    case StopLooking(_) =>
  }

  lemma OrphanStep(s: State, step: Step, r: RunId)
    requires Inv(s) && Orphan(s, r) && Enabled(s, step)
    ensures Apply(s, step).runs == s.runs && Orphan(Apply(s, step), r)
  {
    OrphanStopsEveryone(s, r);
    StepFrame(s, step);
  }

  /**
    Fail-closed history: once the owner of an unverified run is gone, no later sequence of steps
    by anyone adds, completes or changes a run directory, or gets a process past the boundary.
   */
  lemma FailClosed(t: State, more: seq<Step>, r: RunId)
    requires Reachable(t) && Orphan(t, r) && Exec(Next, t, more).Some?
    ensures var u := Exec(Next, t, more).value;
      u.runs == t.runs && forall a :: a in u.procs ==> !PastEnter(u.procs[a].pc)
  {
    var keeps := (u: State) => Inv(u) && u.runs == t.runs && Orphan(u, r);
    ReachableInv(t);
    forall u, step | keeps(u) && Next(u, step).Some? ensures keeps(Next(u, step).value) {
      OrphanStep(u, step, r);
      StepKeeps(u, step);
    }
    ExecKeeps(Next, keeps, t, more);
    OrphanStopsEveryone(Exec(Next, t, more).value, r);
  }

  /** A preflight refusal created no run directory; a completed call left a verified one. */
  lemma OutcomesTellTheTruth(t: State, a: Actor)
    requires Reachable(t) && a in t.procs && t.procs[a].pc.Returned?
    ensures t.procs[a].pc.outcome.Refused? ==> forall r :: r in t.runs ==> t.runs[r].owner != a
    ensures t.procs[a].pc.outcome.Completed? ==>
        var r := t.procs[a].call.run;
        r in t.runs && t.runs[r].owner == a && r !in Unverified(t.contract, t.runs)
  {
    ReachableInv(t);
    assert ProcInv(a, t.procs[a], t.exclusive, t.contract, t.runs);
    forall r | r in t.runs
      ensures t.procs[a].pc.outcome.Refused? ==> t.runs[r].owner != a
    {
      assert DirInv(r, t.runs[r], t.procs);
    }
  }

  // History only grows, and what is verified stays as it is.
  ghost predicate Extends(s: State, t: State) {
    && (s.contract.SavedContract? ==> t.contract == s.contract)
    && s.runs.Keys <= t.runs.Keys
    && forall r :: r in s.runs && r !in Unverified(s.contract, s.runs) ==> t.runs[r] == s.runs[r]
  }

  lemma RecordExtends(s: State, a: Actor)
    requires a in s.procs && WritesRun(s.procs[a].pc)
    requires ProcInv(a, s.procs[a], s.exclusive, s.contract, s.runs)
    ensures Extends(s, Record(s, a))
  {
  }

  lemma ExamineExtends(s: State, a: Actor, pick: RunId)
    requires a in s.procs && HoldsLock(s.procs[a].pc) && !PastEnter(s.procs[a].pc)
    requires s.procs[a].pc.WritingContract? ==> s.contract == TornContract
    ensures Extends(s, Examine(s, a, pick))
  {
  }

  lemma ConcludeFrame(s: State, a: Actor)
    requires a in s.procs && PastEnter(s.procs[a].pc) && !WritesRun(s.procs[a].pc)
    ensures SameHistory(s, Conclude(s, a), a)
  {
    var p := s.procs[a];
    match p.pc
    case Made => GotoFrame(s, a, Started);
    case Monitoring => GotoFrame(s, a, Sealing);
    case Sealing => TestFrame(s, a, SameInode(s, p), Certified);
    case Closing => GotoFrame(s, a, Returned(Completed));
    case Marking(signal) => GotoFrame(s, a, Returned(Thrown(signal)));
    case WritingMarker(signal) => GotoFrame(s, a, Returned(Thrown(signal)));
  }

  lemma StepExtends(s: State, step: Step)
    requires Inv(s) && Enabled(s, step)
    ensures Extends(s, Apply(s, step))
  {
    match step
    case Advance(a, inode, pick) =>
      assert ProcInv(a, s.procs[a], s.exclusive, s.contract, s.runs);
      if !HoldsLock(s.procs[a].pc) { AdmitFrame(s, a, inode); }
      else if !PastEnter(s.procs[a].pc) { ExamineExtends(s, a, pick); }
      else if WritesRun(s.procs[a].pc) { RecordExtends(s, a); }
      else { ConcludeFrame(s, a); }
    case Look(o, pick) => LookFrame(s, o, pick);
    case Begin(_, _) =>
    case Fail(a, signal) => AbortFrame(s, a, signal);
    case Kill(a) => GotoFrame(s, a, Killed);
    case ReplaceLock(_, _) =>
    case Observe(_, _, _) =>
    case StopLooking(_) =>
  }

  /** The contract is write-once and verified evidence is never touched again. */
  lemma HistoryIsAppendOnly(t: State, more: seq<Step>)
    requires Reachable(t) && Exec(Next, t, more).Some?
    ensures Extends(t, Exec(Next, t, more).value)
  {
    var keeps := (u: State) => Inv(u) && Extends(t, u);
    ReachableInv(t);
    forall u, step | keeps(u) && Next(u, step).Some? ensures keeps(Next(u, step).value) {
      StepExtends(u, step);
      StepKeeps(u, step);
    }
    ExecKeeps(Next, keeps, t, more);
  }

  /**
    `runner_status` changes nothing on file, and VERIFIED_HISTORY is true when reported: every
    run directory is verified and counted, and no process is past the attempt boundary.
   */
  lemma VerifiedHistoryIsTrue(t: State, o: Actor, pick: RunId)
    requires Reachable(t) && Enabled(t, Look(o, pick))
    ensures var u := Apply(t, Look(o, pick));
      && SameFiles(t, u) && o in u.observers
      && (u.observers[o].pc.Reported? && u.observers[o].pc.report.VerifiedHistory? ==>
            && u.observers[o].pc.report.count == |t.runs|
            && Unverified(t.contract, t.runs) == {}
            && forall a :: a in t.procs ==> !PastEnter(t.procs[a].pc))
  {
    ReachableInv(t);
    LookFrame(t, o, pick);
    assert ObserverInv(o, t.observers[o], t.shared, t.contract, t.runs);
    forall a | a in t.procs && PastEnter(t.procs[a].pc)
      ensures !t.observers[o].pc.LookConfirming?
    {
      Exclusive(t, a);
    }
  }

  // ---------------------------------------------------------------- what flock alone allows

  lemma ReachStep(t: State, step: Step)
    requires Reachable(t) && Enabled(t, step)
    ensures Reachable(Apply(t, step))
  {
    var s :| Init(s) && Leads(Next, s, t);
    LeadsOn(Next, s, t, step);
  }

  // The process's next action takes it from p to q and may take the flock on q.fd.
  lemma ReachNext(s: State, a: Actor, p: Proc, q: Proc)
    requires Reachable(s.(procs := s.procs[a := p])) && Live(p.pc) && !HoldsLock(p.pc)
    requires Admit(s.(procs := s.procs[a := p]), a, 0)
               == s.(procs := s.procs[a := p][a := q],
                     exclusive := if q.pc.Locked? then s.exclusive[q.fd := a] else s.exclusive)
    ensures Reachable(s.(procs := s.procs[a := q],
              exclusive := if q.pc.Locked? then s.exclusive[q.fd := a] else s.exclusive))
  {
    ReachStep(s.(procs := s.procs[a := p]), Advance(a, 0, 0));
    assert s.procs[a := p][a := q] == s.procs[a := q];
  }

  lemma ReachOpened(s: State, a: Actor, call: Call)
    requires Reachable(s) && a !in s.procs && call.blocked !in s.markers && call.lock in s.locks
    ensures Reachable(s.(procs := s.procs[a := Proc(call, s.locks[call.lock], Opened)]))
  {
    ReachStep(s, Begin(a, call));
    ReachNext(s, a, Proc(call, 0, Checking), Proc(call, 0, Opening));
    ReachNext(s, a, Proc(call, 0, Opening), Proc(call, s.locks[call.lock], Opened));
  }

  // Four actions take a new process from its start to the flock on a lock nobody holds.
  lemma ReachLock(s: State, a: Actor, call: Call)
    requires Reachable(s) && a !in s.procs && call.blocked !in s.markers
    requires call.lock in s.locks && !Contended(s, s.locks[call.lock])
    ensures Reachable(s.(procs := s.procs[a := Proc(call, s.locks[call.lock], Locked)],
                         exclusive := s.exclusive[s.locks[call.lock] := a]))
  {
    var fd := s.locks[call.lock];
    ReachOpened(s, a, call);
    ReachNext(s, a, Proc(call, fd, Opened), Proc(call, fd, Contending));
    ReachNext(s, a, Proc(call, fd, Contending), Proc(call, fd, Locked));
  }

  lemma ReachReplaced(s: State, path: Path, inode: Inode)
    requires Reachable(s)
    ensures Reachable(s.(locks := s.locks[path := inode]))
  {
    ReachStep(s, ReplaceLock(path, Some(inode)));
  }

  /**
    The flock alone does not exclude: once the lock file is replaced, two live processes can own
    a flock at the same time. Only the contract keeps them from both entering an attempt.
   */
  lemma FlockAloneDoesNotExclude() returns (t: State)
    ensures Reachable(t) && t.procs.Keys == {1, 2}
    ensures HoldsLock(t.procs[1].pc) && HoldsLock(t.procs[2].pc)
  {
    var s := State(map[0 := 1], map[], map[], {}, NoContract, map[], map[], map[]);
    assert Init(s);
    LeadsNowhere(Next, s);
    ReachLock(s, 1, Call(0, 9, 1));
    t := s.(procs := s.procs[1 := Proc(Call(0, 9, 1), 1, Locked)],
            exclusive := s.exclusive[1 := 1]);
    ReachReplaced(t, 0, 2);
    t := t.(locks := t.locks[0 := 2]);
    ReachLock(t, 2, Call(0, 9, 2));
    t := t.(procs := t.procs[2 := Proc(Call(0, 9, 2), 2, Locked)],
            exclusive := t.exclusive[2 := 2]);
  }
}
