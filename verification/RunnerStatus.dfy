/** What `runner_status` reports when nobody disturbs it: one report, which the state determines. */
module RunnerStatus {
  import opened Wrappers
  import opened Runs
  import opened RunnerControl
  import opened RunnerOutcome
  import opened RunnerProgress

  function Status(s: State, lock: Path, blocked: Path): Report {
    if blocked in s.markers then BlockedReport
    else if lock !in s.locks then Unresolved
    else if s.locks[lock] in s.exclusive then Busy
    else if Fresh(s) then Uninitialized
    else if Verified(s, Contract(lock, s.locks[lock], blocked)) then VerifiedHistory(|s.runs|)
    else Unresolved
  }

  // What the tests passed so far say of `s`.
  predicate Seen(s: State, lock: Path, blocked: Path, fd: Inode, pc: ObserverPc) {
    var c := Contract(lock, fd, blocked);
    && !pc.Reported?
    && (!pc.Looking? ==> blocked !in s.markers && lock in s.locks && s.locks[lock] == fd)
    && (HoldsShared(pc) ==> fd !in s.exclusive)
    && (pc.LookReading? || LookedPastContract(pc) ==> !Fresh(s))
    && (LookedPastContract(pc) ==> s.contract == SavedContract(c))
    && (pc.LookScanning? ==>
          Unverified(s.contract, s.runs) <= pc.todo <= s.runs.Keys && pc.count == |s.runs.Keys - pc.todo|)
    && (pc.LookConfirming? ==> Unverified(s.contract, s.runs) == {} && pc.count == |s.runs|)
  }

  /** What the observer's look at `s` has made of it at point `pc`. */
  function Looked(s: State, o: Actor, lock: Path, blocked: Path, fd: Inode, pc: ObserverPc): State {
    s.(shared := if HoldsShared(pc) then s.shared[o := fd] else s.shared,
       observers := s.observers[o := Observer(lock, blocked, fd, pc)])
  }

  ghost predicate Looks(s: State, t: State, o: Actor, lock: Path, blocked: Path) {
    && o in t.observers
    && var fd, pc := t.observers[o].fd, t.observers[o].pc;
       && t == Looked(s, o, lock, blocked, fd, pc)
       && (pc != Reported(Status(s, lock, blocked)) ==> Seen(s, lock, blocked, fd, pc))
  }

  ghost predicate Unseen(s: State, o: Actor) { o !in s.observers && o !in s.shared }

  lemma LookedLooks(s: State, o: Actor, lock: Path, blocked: Path, fd: Inode, pc: ObserverPc, u: State)
    requires Seen(s, lock, blocked, fd, pc) || pc == Reported(Status(s, lock, blocked))
    requires u == Looked(s, o, lock, blocked, fd, pc)
    ensures Looks(s, u, o, lock, blocked)
  {
  }

  lemma Answers(s: State, o: Actor, lock: Path, blocked: Path, fd: Inode, pc: ObserverPc, u: State)
    requires Unseen(s, o) && Seen(s, lock, blocked, fd, pc)
    requires u == Answer(Looked(s, o, lock, blocked, fd, pc), o, Status(s, lock, blocked))
    ensures Looks(s, u, o, lock, blocked)
  {
    var done := Looked(s, o, lock, blocked, fd, Reported(Status(s, lock, blocked)));
    assert u.observers == done.observers;
    assert u.shared == done.shared;
    LookedLooks(s, o, lock, blocked, fd, Reported(Status(s, lock, blocked)), u);
  }

  lemma MovesOver(s: State, o: Actor, lock: Path, blocked: Path, fd: Inode, pc: ObserverPc,
                  next: ObserverPc, u: State)
    requires Seen(s, lock, blocked, fd, pc) && Seen(s, lock, blocked, fd, next)
    requires HoldsShared(pc) == HoldsShared(next)
    requires u == LookOn(Looked(s, o, lock, blocked, fd, pc), o, next)
    ensures Looks(s, u, o, lock, blocked)
  {
    var t, done := Looked(s, o, lock, blocked, fd, pc), Looked(s, o, lock, blocked, fd, next);
    assert t.shared == done.shared;
    assert u == t.(observers := t.observers[o := Observer(lock, blocked, fd, next)]);
    assert u.observers == done.observers;
    LookedLooks(s, o, lock, blocked, fd, next, u);
  }

  lemma GlanceLooks(s: State, o: Actor, lock: Path, blocked: Path, fd: Inode, pc: ObserverPc)
    requires Unseen(s, o) && Seen(s, lock, blocked, fd, pc) && !LooksAtHistory(pc)
    ensures Looks(s, Glance(Looked(s, o, lock, blocked, fd, pc), o), o, lock, blocked)
  {
    var u := Glance(Looked(s, o, lock, blocked, fd, pc), o);
    match pc
    case Looking =>
      if blocked in s.markers || lock !in s.locks {
        Answers(s, o, lock, blocked, fd, pc, u);
      } else {
        assert u.observers == Looked(s, o, lock, blocked, s.locks[lock], LookOpened).observers;
        LookedLooks(s, o, lock, blocked, s.locks[lock], LookOpened, u);
      }
    case LookOpened => MovesOver(s, o, lock, blocked, fd, pc, LookContending, u);
    case LookContending =>
      if fd in s.exclusive {
        Answers(s, o, lock, blocked, fd, pc, u);
      } else {
        assert u.observers == Looked(s, o, lock, blocked, fd, LookUnblocked).observers;
        LookedLooks(s, o, lock, blocked, fd, LookUnblocked, u);
      }
    case LookUnblocked => MovesOver(s, o, lock, blocked, fd, pc, LookListing, u);
  }

  lemma ScanLooks(s: State, o: Actor, lock: Path, blocked: Path, fd: Inode, pc: ObserverPc, pick: RunId)
    requires Unseen(s, o) && Seen(s, lock, blocked, fd, pc) && pc.LookScanning?
    requires pc.todo != {} ==> pick in pc.todo
    ensures Looks(s, Inspect(Looked(s, o, lock, blocked, fd, pc), o, pick), o, lock, blocked)
  {
    var c, u := Contract(lock, fd, blocked), Inspect(Looked(s, o, lock, blocked, fd, pc), o, pick);
    if pc.todo == {} {
      assert s.runs.Keys - {} == s.runs.Keys;
      MovesOver(s, o, lock, blocked, fd, pc, LookConfirming(pc.count), u);
    } else if Verifies(c, pick, s.runs[pick]) {
      ScanCount(s.runs.Keys, pc.todo, pick);
      MovesOver(s, o, lock, blocked, fd, pc, LookScanning(pc.todo - {pick}, pc.count + 1), u);
    } else {
      assert pick in Unverified(s.contract, s.runs);
      Answers(s, o, lock, blocked, fd, pc, u);
    }
  }

  lemma InspectLooks(s: State, o: Actor, lock: Path, blocked: Path, fd: Inode, pc: ObserverPc,
                     pick: RunId)
    requires Unseen(s, o) && Seen(s, lock, blocked, fd, pc) && LooksAtHistory(pc)
    requires pc.LookScanning? && pc.todo != {} ==> pick in pc.todo
    ensures Looks(s, Inspect(Looked(s, o, lock, blocked, fd, pc), o, pick), o, lock, blocked)
  {
    var u := Inspect(Looked(s, o, lock, blocked, fd, pc), o, pick);
    match pc
    case LookListing =>
      if Fresh(s) { Answers(s, o, lock, blocked, fd, pc, u); }
      else { MovesOver(s, o, lock, blocked, fd, pc, LookReading, u); }
    case LookReading =>
      if s.contract == SavedContract(Contract(lock, fd, blocked)) {
        assert s.runs.Keys - s.runs.Keys == {};
        MovesOver(s, o, lock, blocked, fd, pc, LookScanning(s.runs.Keys, 0), u);
      } else {
        Answers(s, o, lock, blocked, fd, pc, u);
      }
    case LookScanning(_, _) => ScanLooks(s, o, lock, blocked, fd, pc, pick);
    case LookConfirming(_) => Answers(s, o, lock, blocked, fd, pc, u);
  }

  lemma StillLooks(s: State, t: State, o: Actor, lock: Path, blocked: Path, pick: RunId)
    requires Unseen(s, o) && Looks(s, t, o, lock, blocked) && Enabled(t, Look(o, pick))
    ensures Looks(s, Apply(t, Look(o, pick)), o, lock, blocked)
  {
    var fd, pc := t.observers[o].fd, t.observers[o].pc;
    if LooksAtHistory(pc) { InspectLooks(s, o, lock, blocked, fd, pc, pick); }
    else { GlanceLooks(s, o, lock, blocked, fd, pc); }
  }

  ghost function SoloLook(o: Actor): (State, Step) -> Option<State> {
    (s: State, step: Step) => if step.Look? && step.actor == o then Next(s, step) else None
  }

  /**
    An observer that nobody disturbs reports what the state says, gives its flock back, and changes
    nothing.
   */
  lemma StatusIsExact(s: State, o: Actor, lock: Path, blocked: Path, more: seq<Step>)
    requires Reachable(s) && o !in s.observers
    requires Exec(SoloLook(o), Apply(s, Observe(o, lock, blocked)), more).Some?
    ensures var t := Exec(SoloLook(o), Apply(s, Observe(o, lock, blocked)), more).value;
            && SameFiles(s, t) && o in t.observers
            && (t.observers[o].pc.Reported? ==>
                  && t.observers[o].pc.report == Status(s, lock, blocked)
                  && t == s.(observers := s.observers[o := t.observers[o]]))
  {
    var keeps := (t: State) => Looks(s, t, o, lock, blocked);
    LocksAreReleased(s);
    LookedLooks(s, o, lock, blocked, 0, Looking, Apply(s, Observe(o, lock, blocked)));
    forall t, step | keeps(t) && SoloLook(o)(t, step).Some? ensures keeps(SoloLook(o)(t, step).value) {
      StillLooks(s, t, o, lock, blocked, step.pick);
    }
    ExecKeeps(SoloLook(o), keeps, Apply(s, Observe(o, lock, blocked)), more);
  }
}
