/** `supervise` of `owned_process.py`, and what the monitor makes of it. */
module Supervision {
  // A protocol between the subreaper and the processes below it, and the certificate
  // `monitor_command` draws from its shutdown receipt.
  //
  // Discovery is `OwnedDiscovery.Discovered`, which `Attribution.Owned` is proved to compute. Clock
  // readings are inputs of the steps that look at the clock. Between any two steps of the supervisor
  // the processes below it fork, exit, are reparented and reaped, and pids are reused.

  import opened Wrappers
  import opened Basics
  import opened Runs
  import opened ProcessTree
  import opened OwnedDiscovery

  datatype Phase =
    | Ready       // subreaper set; the command is not launched yet
    | Watching    // polling the command and its descendants
    | Cleaning    // ending whatever is left, TERM first and KILL later
    | Draining    // reaping adopted zombies
    | Writing     // the final count is taken; the receipt is written next
    | Done
    | Died        // the supervisor raised or was killed; no receipt

  datatype Receipt = Receipt(root: Identity, returncode: int, living: nat)

  datatype Round = Round(kill: bool, targets: set<Identity>)

  // `hidden`: whether a living child of the root denied access, or sat on a recycled pid, at the
  // final count.
  datatype Supervisor = Supervisor(
    phase: Phase, known: map<Pid, Identity>, living: set<Pid>, received: bool, termSent: bool,
    returncode: int, hidden: bool, rounds: seq<Round>, receipt: Option<Receipt>)

  // The command as the kernel knows it: who it is, and how it ended. The supervisor writes neither.
  datatype Command = Command(identity: Option<Identity>, exited: Option<int>)

  datatype System = System(k: Kernel, s: Supervisor, c: Command)

  ghost predicate Init(y: System) {
    && Inv(y.k) && y.k.mine == {y.k.root} && y.c == Command(None, None)
    && y.s == Supervisor(Ready, map[y.k.root.pid := y.k.root], {}, false, false, 1, false, [], None)
  }

  datatype Step =
    | Env(event: Event, code: int)   // `code`: how a process that exits ends
    | Arrive                     // SIGTERM, SIGINT or SIGHUP reaches the supervisor
    | Launch(pid: Pid, identified: bool)   // `_identity` of the command may raise
    | Decline(deadline: bool)    // a signal or the deadline came before the launch
    | Raise                      // an exception: before the launch, or between two polls
    | Watch(listing: seq<Observation>, deadline: bool, leader: Option<int>)
    | Clean(listing: seq<Observation>, graceOver: bool, cleanupOver: bool)
    | Drain(listing: seq<Observation>)   // waitpid until nothing is left, then the final count
    | Write
    | Stop

  ghost predicate Enabled(y: System, step: Step) {
    match step
    case Env(e, _) => Possible(y.k, e) && (e.Fork? ==> e.parent != y.k.root.pid)
    case Arrive => true
    case Launch(p, _) => y.s.phase.Ready? && !y.s.received && Possible(y.k, Fork(y.k.root.pid, p))
    case Decline(deadline) => y.s.phase.Ready? && (y.s.received || deadline)
    case Raise => y.s.phase.Ready? || y.s.phase.Watching?
    case Watch(listing, _, leader) =>
      // `poll` answers before the listing is taken, with nothing else than how the command ended.
      y.s.phase.Watching? && Lists(y.k, listing) && (leader.Some? ==> leader == y.c.exited)
    case Clean(listing, _, _) => y.s.phase.Cleaning? && Lists(y.k, listing)
    case Drain(listing) => y.s.phase.Draining? && Lists(y.k, listing)
    case Write => y.s.phase.Writing?
    case Stop => !y.s.phase.Done? && !y.s.phase.Died?
  }

  ghost function Found(y: System, listing: seq<Observation>): set<Pid> {
    Discovered(y.k.root, y.s.known, Snapshot(y.k.root.pid, listing))
  }

  // `_owned` raises and leaves `known` as it was.
  predicate Refuses(y: System, listing: seq<Observation>) {
    KnownDenied(y.s.known, listing) || RootMismatch(y.k.root, Snapshot(y.k.root.pid, listing))
  }

  // The supervisor after one call of `_owned` that returns: what it knows, and who lives besides itself.
  ghost function Looked(y: System, listing: seq<Observation>): Supervisor {
    var snapshot := Snapshot(y.k.root.pid, listing);
    y.s.(known := KnownAfter(y.s.known, snapshot, Seeds(y.k.root, y.s.known, snapshot),
                             Reused(y.s.known, snapshot), Found(y, listing)),
         living := Found(y, listing) - {y.k.root.pid})
  }

  function Targets(s: Supervisor): set<Identity> {
    set p | p in s.living && p in s.known :: s.known[p]
  }

  function Watched(s: Supervisor, deadline: bool, leader: Option<int>): Supervisor {
    if s.received || deadline then s.(phase := Cleaning)
    else if leader.None? then s
    else if s.living != {} then s.(phase := Cleaning)
    else s.(phase := Cleaning, returncode := leader.value)
  }

  function Cleaned(s: Supervisor, graceOver: bool, cleanupOver: bool): Supervisor {
    if s.living == {} then s.(phase := Draining)
    else
      var s1 := if !s.termSent
                then s.(rounds := s.rounds + [Round(false, Targets(s))], termSent := true)
                else if graceOver then s.(rounds := s.rounds + [Round(true, Targets(s))])
                else s;
      if cleanupOver then s1.(phase := Draining, returncode := 1) else s1
  }

  // A process ends once, so the command's code stays.
  function Ended(k: Kernel, c: Command, e: Event, code: int): Command {
    if e.Exit? && e.pid in k.procs && c.identity == Some(IdentityOf(k.procs, e.pid))
    then c.(exited := Some(code)) else c
  }

  ghost function Apply(y: System, step: Step): System
    requires Enabled(y, step)
  {
    match step
    case Env(e, code) => y.(k := After(y.k, e), c := Ended(y.k, y.c, e, code))
    case Arrive => y.(s := y.s.(received := true))
    case Launch(p, identified) =>
      System(After(y.k, Fork(y.k.root.pid, p)),
             if identified
             then y.s.(phase := Watching, known := y.s.known[p := Identity(p, y.k.now)])
             else y.s.(phase := Cleaning),
             Command(Some(Identity(p, y.k.now)), None))
    case Decline(_) => y.(s := y.s.(phase := Writing))
    case Raise => y.(s := y.s.(phase := if y.s.phase.Ready? then Writing else Cleaning))
    case Watch(listing, deadline, leader) =>
      y.(s := if Refuses(y, listing) then y.s.(phase := Cleaning)
              else Watched(Looked(y, listing), deadline, leader))
    case Clean(listing, graceOver, cleanupOver) =>
      y.(s := if Refuses(y, listing) then y.s.(phase := Died)
              else Cleaned(Looked(y, listing), graceOver, cleanupOver))
    case Drain(listing) =>
      y.(s := if Refuses(y, listing) then y.s.(phase := Died)
              else Looked(y, listing).(phase := Writing,
                                       hidden := HiddenChild(y.k, y.s.known, listing)))
    case Write =>
      y.(s := y.s.(phase := Done,
                   receipt := Some(Receipt(y.k.root, y.s.returncode, |y.s.living|))))
    case Stop => y.(s := y.s.(phase := Died))
  }

  // ---------------------------------------------------------------- invariants

  ghost predicate RoundsInv(s: Supervisor, mine: set<Identity>, root: Identity) {
    && (forall i :: 0 <= i < |s.rounds| ==> s.rounds[i].targets <= mine - {root})
    && (forall i :: 0 <= i < |s.rounds| ==> (s.rounds[i].kill <==> i > 0))
    && (s.termSent <==> s.rounds != [])
  }

  ghost predicate CountInv(y: System) {
    && (y.s.phase.Ready? ==> Alone(y.k) && y.s.living == {} && !y.s.hidden)
    && (y.s.phase.Writing? || y.s.phase.Done? ==> y.s.living == {} && !y.s.hidden ==> Alone(y.k))
    && (y.s.receipt.Some? <==> y.s.phase.Done?)
    && (y.s.receipt.Some? ==>
          y.s.receipt == Some(Receipt(y.k.root, y.s.returncode, |y.s.living|)))
  }

  // The code on record is 1 or the command's own, and an ended command lives no more.
  ghost predicate CodeInv(y: System) {
    && (y.s.phase.Ready? ==> y.c == Command(None, None))
    && (y.s.phase.Ready? || y.s.phase.Watching? ==> y.s.returncode == 1)
    && (y.s.returncode != 1 ==> y.c.exited == Some(y.s.returncode))
    && (y.c.identity.Some? ==> y.c.identity.value.created < y.k.now)
    && (y.c.exited.Some? ==>
          && y.c.identity.Some?
          && forall p :: Living(y.k.procs, p) ==> y.c.identity != Some(IdentityOf(y.k.procs, p)))
  }

  ghost predicate SystemInv(y: System) {
    && Inv(y.k) && KnownMine(y.k, y.s.known) && CodeInv(y)
    && RoundsInv(y.s, y.k.mine, y.k.root)
    && CountInv(y)
  }

  // The kernel's events leave what is on record about the command true.
  lemma CodeStays(y: System, e: Event, code: int)
    requires Inv(y.k) && CodeInv(y) && Possible(y.k, e)
    ensures CodeInv(y.(k := After(y.k, e), c := Ended(y.k, y.c, e, code)))
  {
    var after := After(y.k, e).procs;
    forall p | Living(after, p)
      ensures (Living(y.k.procs, p) && IdentityOf(after, p) == IdentityOf(y.k.procs, p))
           || IdentityOf(after, p).created == y.k.now
    {
    }
  }

  lemma EnvKeeps(y: System, e: Event, code: int)
    requires SystemInv(y) && Possible(y.k, e) && (e.Fork? ==> e.parent != y.k.root.pid)
    ensures SystemInv(y.(k := After(y.k, e), c := Ended(y.k, y.c, e, code)))
  {
    EventKeeps(y.k, e);
    CodeStays(y, e, code);
    if Alone(y.k) { AloneStays(y.k, e); }
  }

  lemma LaunchKeeps(y: System, p: Pid, identified: bool)
    requires SystemInv(y) && Enabled(y, Launch(p, identified))
    ensures SystemInv(Apply(y, Launch(p, identified)))
  {
    EventKeeps(y.k, Fork(y.k.root.pid, p));
  }

  // One discovery: everything it names, and everything it can signal, is a living descendant.
  lemma LookKeeps(y: System, listing: seq<Observation>)
    requires SystemInv(y) && Lists(y.k, listing)
    ensures KnownMine(y.k, Looked(y, listing).known)
    ensures Targets(Looked(y, listing)) <= y.k.mine - {y.k.root}
    ensures forall p :: p in Looked(y, listing).living ==>
        Living(y.k.procs, p) && IdentityOf(y.k.procs, p) in y.k.mine && p in Looked(y, listing).known
  {
    OwnedIsSound(y.k, y.s.known, listing);
  }

  // Before the final count only what is known and who was signalled matter.
  lemma BeforeCount(y: System, s: Supervisor)
    requires SystemInv(y) && KnownMine(y.k, s.known) && RoundsInv(s, y.k.mine, y.k.root)
    requires (s.phase.Watching? || s.phase.Cleaning? || s.phase.Draining?) && s.receipt == None
    requires !y.s.phase.Ready? && (s.phase.Watching? ==> s.returncode == 1)
    requires s.returncode != 1 ==> y.c.exited == Some(s.returncode)
    ensures SystemInv(y.(s := s))
  {
  }

  lemma WatchKeeps(y: System, listing: seq<Observation>, deadline: bool, leader: Option<int>)
    requires SystemInv(y) && Enabled(y, Watch(listing, deadline, leader))
    ensures SystemInv(Apply(y, Watch(listing, deadline, leader)))
  {
    if !Refuses(y, listing) {
      LookKeeps(y, listing);
      BeforeCount(y, Watched(Looked(y, listing), deadline, leader));
    }
  }

  // Another round keeps the order of rounds.
  lemma CleanedKeeps(y: System, s: Supervisor, graceOver: bool, cleanupOver: bool)
    requires SystemInv(y) && KnownMine(y.k, s.known) && RoundsInv(s, y.k.mine, y.k.root)
    requires Targets(s) <= y.k.mine - {y.k.root} && s.phase.Cleaning? && s.receipt == None
    requires !y.s.phase.Ready? && s.returncode == y.s.returncode
    ensures SystemInv(y.(s := Cleaned(s, graceOver, cleanupOver)))
  {
    var after := Cleaned(s, graceOver, cleanupOver);
    assert RoundsInv(after, y.k.mine, y.k.root);
    BeforeCount(y, after);
  }

  lemma CleanKeeps(y: System, listing: seq<Observation>, graceOver: bool, cleanupOver: bool)
    requires SystemInv(y) && Enabled(y, Clean(listing, graceOver, cleanupOver))
    ensures SystemInv(Apply(y, Clean(listing, graceOver, cleanupOver)))
  {
    if !Refuses(y, listing) {
      LookKeeps(y, listing);
      CleanedKeeps(y, Looked(y, listing), graceOver, cleanupOver);
    }
  }

  lemma DrainKeeps(y: System, listing: seq<Observation>)
    requires SystemInv(y) && Enabled(y, Drain(listing))
    ensures SystemInv(Apply(y, Drain(listing)))
  {
    if !Refuses(y, listing) {
      LookKeeps(y, listing);
      if Found(y, listing) <= {y.k.root.pid} { NobodyFound(y.k, y.s.known, listing); }
    }
  }

  lemma StepKeeps(y: System, step: Step)
    requires SystemInv(y) && Enabled(y, step)
    ensures SystemInv(Apply(y, step))
  {
    match step
    case Env(e, code) => EnvKeeps(y, e, code);
    case Launch(p, identified) => LaunchKeeps(y, p, identified);
    case Watch(listing, deadline, leader) => WatchKeeps(y, listing, deadline, leader);
    case Clean(listing, graceOver, cleanupOver) => CleanKeeps(y, listing, graceOver, cleanupOver);
    case Drain(listing) => DrainKeeps(y, listing);
    case Arrive =>
    case Decline(_) =>
    case Raise =>
    case Write =>
    case Stop =>
  }

  // ---------------------------------------------------------------- all runs

  ghost function Next(y: System, step: Step): Option<System> {
    if Enabled(y, step) then Some(Apply(y, step)) else None
  }

  ghost predicate Reachable(z: System) { exists y :: Init(y) && Leads(Next, y, z) }

  lemma InvIsKept()
    ensures forall y, step :: SystemInv(y) && Next(y, step).Some? ==> SystemInv(Next(y, step).value)
  {
    forall y, step | SystemInv(y) && Next(y, step).Some? ensures SystemInv(Next(y, step).value) {
      StepKeeps(y, step);
    }
  }

  lemma ReachableInv(z: System)
    requires Reachable(z)
    ensures SystemInv(z)
  {
    var y :| Init(y) && Leads(Next, y, z);
    var steps :| Exec(Next, y, steps) == Some(z);
    InvIsKept();
    ExecKeeps(Next, SystemInv, y, steps);
  }

  /**
    Only descendants are ever signalled, the supervisor never signals itself, and one TERM round
    comes before any KILL round.
   */
  lemma SignalsStayBelow(z: System, i: nat)
    requires Reachable(z) && i < |z.s.rounds|
    ensures forall d :: d in z.s.rounds[i].targets ==> d in z.k.mine && d != z.k.root
    ensures z.s.rounds[i].kill <==> i > 0
  {
    ReachableInv(z);
  }

  /**
    The final count is exact about danger: when it is zero, some descendant is still alive if and
    only if a living child of the root denies access or sits on a recycled pid.
   */
  lemma ZeroCount(y: System, listing: seq<Observation>)
    requires Reachable(y) && Enabled(y, Drain(listing))
    requires Apply(y, Drain(listing)).s.phase.Writing? && Apply(y, Drain(listing)).s.living == {}
    ensures !Alone(y.k) <==> HiddenChild(y.k, y.s.known, listing)
  {
    ReachableInv(y);
    assert Found(y, listing) <= {y.k.root.pid};
    NobodyFound(y.k, y.s.known, listing);
  }

  // ---------------------------------------------------------------- the monitor's certificate

  /** The status decision at the end of `monitor_command`. */
  function Decide(monitorError: bool, violations: bool, returncode: int): Status {
    if monitorError then MonitorError
    else if violations then Violated
    else if returncode == 0 then Complete
    else FailedCommand
  }

  /** The check of the shutdown receipt; a failure counts as a monitor error and a violation. */
  predicate ReceiptValid(receipt: Option<Receipt>, root: Identity, returncode: int) {
    receipt.Some? && receipt.value.root == root && receipt.value.living == 0
    && receipt.value.returncode == returncode
  }

  function EnhancedStatus(receipt: Option<Receipt>, root: Identity, returncode: int,
                          monitorError: bool, violations: bool): Status
  {
    var invalid := !ReceiptValid(receipt, root, returncode);
    Decide(monitorError || invalid, violations || invalid, returncode)
  }

  /**
    An enhanced run that ends other than MONITOR_ERROR had no living descendant at its receipt and
    has none at any time after it, provided no child of the root denied access or sat on a recycled
    pid at the final count. Without violations it is COMPLETE exactly if its code is 0, and then the
    command exited with 0.
   */
  lemma CertifiedShutdown(z: System, returncode: int, monitorError: bool, violations: bool)
    requires Reachable(z)
    requires EnhancedStatus(z.s.receipt, z.k.root, returncode, monitorError, violations)
               != MonitorError
    ensures z.s.phase.Done? && z.s.returncode == returncode && !monitorError
    ensures z.s.hidden || Alone(z.k)
    ensures EnhancedStatus(z.s.receipt, z.k.root, returncode, monitorError, violations)
         == if violations then Violated else if returncode == 0 then Complete else FailedCommand
    ensures returncode == 1 || z.c.exited == Some(returncode)
  {
    ReachableInv(z);
  }

  /** What the monitor sees of a supervisor that returns `returncode`. */
  function ExitStatus(returncode: int): int { returncode % 256 }

  /** So a command that dies of a signal, a negative code, is a MONITOR_ERROR whatever it left. */
  lemma SignalledIsMonitorError(receipt: Option<Receipt>, root: Identity, violations: bool)
    requires receipt.Some? && receipt.value.returncode < 0
    ensures EnhancedStatus(receipt, root, ExitStatus(receipt.value.returncode), false, violations)
         == MonitorError
  {
  }

  // ---------------------------------------------------------------- where the code comes from

  /** The poll that ends the watch because the command has exited and nobody is found. */
  ghost predicate EndsByExit(y: System, step: Step)
    requires Enabled(y, step)
  {
    && step.Watch? && step.leader.Some? && !step.deadline && !y.s.received
    && !Refuses(y, step.listing) && Looked(y, step.listing).living == {}
  }

  /** A cleanup poll that still finds somebody when the time is up. */
  ghost predicate Exhausts(y: System, step: Step)
    requires Enabled(y, step)
  {
    && step.Clean? && step.cleanupOver
    && !Refuses(y, step.listing) && Looked(y, step.listing).living != {}
  }

  ghost function Unhurried(y: System, step: Step): Option<System> {
    if Enabled(y, step) && Exhausts(y, step) then None else Next(y, step)
  }

  // The watch is over, and `code` is what is on record and goes into the receipt.
  predicate Over(y: System, code: int) {
    && !y.s.phase.Ready? && !y.s.phase.Watching? && y.s.returncode == code
    && (y.s.receipt.Some? ==> y.s.receipt.value.returncode == code)
  }

  lemma OverStays(y: System, step: Step, code: int)
    requires Over(y, code) && Enabled(y, step) && (code == 1 || !Exhausts(y, step))
    ensures Over(Apply(y, step), code)
  {
  }

  lemma BecomesOver(y: System, step: Step)
    requires SystemInv(y) && Enabled(y, step)
    requires if y.s.phase.Ready? || y.s.phase.Watching?
             then !Apply(y, step).s.phase.Ready? && !Apply(y, step).s.phase.Watching?
             else Exhausts(y, step)
    ensures if (y.s.phase.Ready? || y.s.phase.Watching?) && EndsByExit(y, step)
            then step.leader == y.c.exited && Over(Apply(y, step), step.leader.value)
            else Over(Apply(y, step), 1)
  {
  }

  /**
    The receipt states the command's own code if the watch ended because the command had exited and
    nobody was found, and the cleanup was not cut short.
   */
  lemma ReceiptStatesExit(y: System, step: Step, more: seq<Step>)
    requires Reachable(y) && Enabled(y, step) && EndsByExit(y, step)
    requires Exec(Unhurried, Apply(y, step), more).Some?
    ensures step.leader == y.c.exited
    ensures var z := Exec(Unhurried, Apply(y, step), more).value;
            z.s.returncode == step.leader.value
            && (z.s.receipt.Some? ==> z.s.receipt.value.returncode == step.leader.value)
  {
    var code := step.leader.value;
    var keeps := (z: System) => Over(z, code);
    ReachableInv(y);
    BecomesOver(y, step);
    forall z, next | keeps(z) && Unhurried(z, next).Some? ensures keeps(Unhurried(z, next).value) {
      OverStays(z, next, code);
    }
    ExecKeeps(Unhurried, keeps, Apply(y, step), more);
  }

  /** Otherwise it states 1: whatever else ends the watch, or cuts the cleanup short. */
  lemma ReceiptStatesOne(y: System, step: Step, more: seq<Step>)
    requires Reachable(y) && Enabled(y, step) && Exec(Next, Apply(y, step), more).Some?
    requires if y.s.phase.Ready? || y.s.phase.Watching?
             then !EndsByExit(y, step) && !Apply(y, step).s.phase.Ready?
                  && !Apply(y, step).s.phase.Watching?
             else Exhausts(y, step)
    ensures var z := Exec(Next, Apply(y, step), more).value;
            z.s.returncode == 1 && (z.s.receipt.Some? ==> z.s.receipt.value.returncode == 1)
  {
    var keeps := (z: System) => Over(z, 1);
    ReachableInv(y);
    BecomesOver(y, step);
    forall z, next | keeps(z) && Next(z, next).Some? ensures keeps(Next(z, next).value) {
      OverStays(z, next, 1);
    }
    ExecKeeps(Next, keeps, Apply(y, step), more);
  }

  /**
    Every cleanup poll that finds somebody signals all it found: TERM the first time, KILL once the
    grace is over. Cleanup ends when nobody is found or the time is up.
   */
  lemma CleaningSignalsAll(y: System, step: Step)
    requires Reachable(y) && Enabled(y, step) && step.Clean? && !Refuses(y, step.listing)
    ensures var found := Looked(y, step.listing).living;
            var all := set p | p in found && p in y.k.procs :: IdentityOf(y.k.procs, p);
            var z := Apply(y, step).s;
            && found <= y.k.procs.Keys
            && z.rounds == y.s.rounds + (if found == {} then []
                                         else if y.s.rounds == [] then [Round(false, all)]
                                         else if step.graceOver then [Round(true, all)]
                                         else [])
            && (z.phase == Draining <==> found == {} || step.cleanupOver)
  {
    ReachableInv(y);
    LookKeeps(y, step.listing);
    KnownAsFound(y, step.listing);
  }

  /** What ends the watch; the codes it ends with are those of the two lemmas above. */
  lemma WatchEndsExactly(y: System, listing: seq<Observation>, deadline: bool, leader: Option<int>)
    requires Reachable(y) && Enabled(y, Watch(listing, deadline, leader))
    ensures var z := Apply(y, Watch(listing, deadline, leader)).s;
            && (z.phase == Cleaning <==>
                  y.s.received || deadline || leader.Some? || Refuses(y, listing))
            && (z.phase == Watching || z.phase == Cleaning) && z.rounds == y.s.rounds
  {
  }

  /** A step at which nothing but the command's own end can end the watch. */
  ghost function Patient(y: System, step: Step): Option<System> {
    if step.Arrive? || step.Raise? || (step.Launch? && !step.identified)
       || (step.Watch? && (step.deadline || Refuses(y, step.listing)))
    then None else Next(y, step)
  }

  // Nobody has been signalled, or the command has ended.
  predicate Undisturbed(y: System) {
    && !y.s.received && (y.s.rounds == [] || y.c.exited.Some?)
    && (y.s.phase.Cleaning? ==> y.c.exited.Some?) && (y.s.phase.Ready? ==> y.s.rounds == [])
  }

  lemma UndisturbedStays(y: System, step: Step)
    requires Undisturbed(y) && Patient(y, step).Some?
    ensures Undisturbed(Patient(y, step).value)
  {
  }

  /** While the command runs, no signal is sent, unless something else ended the watch. */
  lemma NobodyIsDisturbed(y: System, steps: seq<Step>)
    requires Init(y) && Exec(Patient, y, steps).Some?
    ensures var z := Exec(Patient, y, steps).value;
            z.s.rounds == [] || z.c.exited.Some?
  {
    forall z, step | Undisturbed(z) && Patient(z, step).Some?
      ensures Undisturbed(Patient(z, step).value)
    {
      UndisturbedStays(z, step);
    }
    ExecKeeps(Patient, Undisturbed, y, steps);
  }

  lemma LookedKnows(y: System, listing: seq<Observation>, p: Pid)
    requires Inv(y.k) && Lists(y.k, listing) && p in Looked(y, listing).living
    ensures p in y.k.procs && p in Looked(y, listing).known
    ensures Looked(y, listing).known[p] == IdentityOf(y.k.procs, p)
  {
    ListsFaithful(y.k, listing);
  }

  /** Whoever a poll finds is remembered under its identity, whatever comes of the poll. */
  lemma FoundIsRemembered(y: System, listing: seq<Observation>, deadline: bool, leader: Option<int>,
                          p: Pid)
    requires Reachable(y) && Enabled(y, Watch(listing, deadline, leader)) && !Refuses(y, listing)
    requires p in Found(y, listing) && p != y.k.root.pid
    ensures var known := Apply(y, Watch(listing, deadline, leader)).s.known;
            p in y.k.procs && p in known && known[p] == IdentityOf(y.k.procs, p)
  {
    ReachableInv(y);
    LookedKnows(y, listing, p);
  }

  // Whoever is found is known by the identity it has.
  lemma KnownAsFound(y: System, listing: seq<Observation>)
    requires Inv(y.k) && Lists(y.k, listing)
    ensures var s := Looked(y, listing);
            Targets(s) == set p | p in s.living && p in y.k.procs :: IdentityOf(y.k.procs, p)
  {
    ListsFaithful(y.k, listing);
  }

  lemma ReachStep(z: System, step: Step)
    requires Reachable(z) && Enabled(z, step)
    ensures Reachable(Apply(z, step))
  {
    var y :| Init(y) && Leads(Next, y, z);
    LeadsOn(Next, y, z, step);
  }
}
