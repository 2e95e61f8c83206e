/**
  How calls of the runner end: a blocked marker blocks for good, a lock that was replaced is noticed,
  a failed attempt leaves its marker, and whoever is gone holds no flock.
 */
module RunnerOutcome {
  import opened Wrappers
  import opened Runs
  import opened RunnerControl

  predicate Acts(step: Step, a: Actor) {
    (step.Advance? || step.Fail? || step.Kill?) && step.actor == a
  }

  // ---------------------------------------------------------------- one process at a time

  /** Where an exception takes a process. */
  function AbortPc(pc: Pc, signal: bool): Pc {
    if pc.Marking? || pc.WritingMarker? then Returned(Thrown(pc.signal))
    else if OwnsRun(pc) && !pc.Made? then Marking(signal)
    else if PastEnter(pc) || signal then Returned(Thrown(signal))
    else Returned(Refused)
  }

  /** Where the next action of `p` can take it. */
  predicate NextPc(s: State, p: Proc, pc: Pc) {
    match p.pc
    case Checking => pc == if p.call.blocked in s.markers then Returned(Refused) else Opening
    case Opening => pc == Opened
    case Opened => pc == if SameInode(s, p) then Contending else Returned(Refused)
    case Contending => pc == Locked || pc == Returned(Refused)
    case Locked => pc == if p.call.blocked in s.markers then Returned(Refused) else Rechecking
    case Rechecking => pc == if SameInode(s, p) then Listing else Returned(Refused)
    case Listing => pc == CreatingContract || pc == ReadingContract
    case CreatingContract => pc == WritingContract || pc == Returned(Refused)
    case WritingContract => pc == ReadingContract
    case ReadingContract => pc.Scanning? || pc == Returned(Refused)
    case Scanning(todo) =>
      if todo == {} then pc == Entered else (pc.Scanning? && pc.todo < todo) || pc == Returned(Refused)
    case Entered => pc == Made || pc == Returned(Raised)
    case Made => pc == Started
    case Started => pc == WritingPending || pc == Marking(false)
    case WritingPending => pc == Monitoring || pc == Marking(false)
    case Monitoring => pc == Sealing
    case Sealing => pc == if SameInode(s, p) then Certified else Marking(false)
    case Certified => pc == WritingCompletion || pc == Marking(false)
    case WritingCompletion => pc == Closing || pc == Marking(false)
    case Closing => pc == Returned(Completed)
    case Marking(signal) =>
      pc == if p.call.blocked in s.markers then Returned(Thrown(signal)) else WritingMarker(signal)
    case WritingMarker(signal) => pc == Returned(Thrown(signal))
    case _ => false
  }

  // Only `a` has moved, it has its call, and a flock it had is gone when it has ended.
  predicate Moved(s: State, t: State, a: Actor) {
    && a in s.procs && a in t.procs && t.procs == s.procs[a := t.procs[a]]
    && t.procs[a].call == s.procs[a].call
    && (!s.procs[a].pc.Opening? ==> t.procs[a].fd == s.procs[a].fd)
    && s.markers <= t.markers && t.shared == s.shared && t.observers == s.observers
    && t.exclusive == if s.procs[a].pc.Contending? && t.procs[a].pc.Locked?
                      then s.exclusive[s.procs[a].fd := a]
                      else if Live(t.procs[a].pc) then s.exclusive else Unlock(s, a).exclusive
  }

  lemma GotoMoves(s: State, s1: State, a: Actor, pc: Pc)
    requires a in s.procs && s1.procs == s.procs && s1.shared == s.shared
    requires s1.observers == s.observers && s.markers <= s1.markers && Live(pc)
    requires s1.exclusive == if s.procs[a].pc.Contending? && pc.Locked?
                             then s.exclusive[s.procs[a].fd := a] else s.exclusive
    ensures Moved(s, Goto(s1, a, pc), a) && Goto(s1, a, pc).procs[a].pc == pc
  {
  }

  lemma ReturnMoves(s: State, a: Actor, outcome: Outcome)
    requires a in s.procs
    ensures Moved(s, Return(s, a, outcome), a)
    ensures Return(s, a, outcome).procs[a].pc == Returned(outcome)
  {
  }

  lemma AbortMoves(s: State, a: Actor, signal: bool)
    requires a in s.procs && Live(s.procs[a].pc)
    ensures Moved(s, Abort(s, a, signal), a) && Abort(s, a, signal).markers == s.markers
    ensures Abort(s, a, signal).procs[a].pc == AbortPc(s.procs[a].pc, signal)
  {
    var pc := s.procs[a].pc;
    if pc.Marking? || pc.WritingMarker? { ReturnMoves(s, a, Thrown(pc.signal)); }
    else if OwnsRun(pc) && !pc.Made? { GotoMoves(s, s, a, Marking(signal)); }
    else if PastEnter(pc) || signal { ReturnMoves(s, a, Thrown(signal)); }
    else { ReturnMoves(s, a, Refused); }
  }

  lemma TestMoves(s: State, a: Actor, pass: bool, pc: Pc)
    requires a in s.procs && Live(s.procs[a].pc) && Live(pc) && !pc.Locked?
    ensures var t := if pass then Goto(s, a, pc) else Abort(s, a, false);
            Moved(s, t, a) && t.procs[a].pc == if pass then pc else AbortPc(s.procs[a].pc, false)
  {
    if pass { GotoMoves(s, s, a, pc); } else { AbortMoves(s, a, false); }
  }

  lemma OpenMoves(s: State, a: Actor, inode: Inode)
    requires a in s.procs && s.procs[a].pc.Opening?
    ensures Moved(s, Admit(s, a, inode), a) && Admit(s, a, inode).procs[a].pc == Opened
  {
  }

  lemma AdmitMoves(s: State, a: Actor, inode: Inode)
    requires a in s.procs && Live(s.procs[a].pc) && !HoldsLock(s.procs[a].pc)
    ensures var t := Admit(s, a, inode); Moved(s, t, a) && NextPc(s, s.procs[a], t.procs[a].pc)
  {
    var p := s.procs[a];
    match p.pc
    case Checking => TestMoves(s, a, p.call.blocked !in s.markers, Opening);
    case Opening => OpenMoves(s, a, inode);
    case Opened => TestMoves(s, a, SameInode(s, p), Contending);
    case Contending =>
      if Contended(s, p.fd) { AbortMoves(s, a, false); }
      else { GotoMoves(s, s.(exclusive := s.exclusive[p.fd := a]), a, Locked); }
  }

  lemma ExamineMoves(s: State, a: Actor, pick: RunId)
    requires a in s.procs && HoldsLock(s.procs[a].pc) && !PastEnter(s.procs[a].pc)
    requires s.procs[a].pc.Scanning? && s.procs[a].pc.todo != {} ==> pick in s.procs[a].pc.todo
    ensures var t := Examine(s, a, pick); Moved(s, t, a) && NextPc(s, s.procs[a], t.procs[a].pc)
  {
    var p := s.procs[a];
    match p.pc
    case Locked => TestMoves(s, a, p.call.blocked !in s.markers, Rechecking);
    case Rechecking => TestMoves(s, a, SameInode(s, p), Listing);
    case Listing =>
      TestMoves(s, a, true, if s.contract == NoContract && s.runs == map[]
                            then CreatingContract else ReadingContract);
    case CreatingContract =>
      if s.contract == NoContract { GotoMoves(s, s.(contract := TornContract), a, WritingContract); }
      else { AbortMoves(s, a, false); }
    case WritingContract =>
      GotoMoves(s, s.(contract := SavedContract(ContractOf(p))), a, ReadingContract);
    case ReadingContract =>
      TestMoves(s, a, s.contract == SavedContract(ContractOf(p)), Scanning(s.runs.Keys));
    case Scanning(todo) =>
      if todo == {} { TestMoves(s, a, true, Entered); }
      else {
        TestMoves(s, a, pick in s.runs && Verifies(ContractOf(p), pick, s.runs[pick]),
                  Scanning(todo - {pick}));
      }
  }

  lemma WriteMoves(s: State, a: Actor, dir: RunDir, pc: Pc)
    requires a in s.procs && Live(pc) && !s.procs[a].pc.Contending?
    ensures var t := Goto(SetRun(s, s.procs[a].call.run, dir), a, pc);
            Moved(s, t, a) && t.procs[a].pc == pc
  {
    GotoMoves(s, SetRun(s, s.procs[a].call.run, dir), a, pc);
  }

  lemma RecordMoves(s: State, a: Actor)
    requires a in s.procs && WritesRun(s.procs[a].pc)
    ensures var t := Record(s, a); Moved(s, t, a) && NextPc(s, s.procs[a], t.procs[a].pc)
  {
    var p, r := s.procs[a], s.procs[a].call.run;
    if p.pc.Entered? {
      if r in s.runs { AbortMoves(s, a, false); }
      else { WriteMoves(s, a, RunDir(a, NoPending, NoCompletion), Made); }
    } else if r !in s.runs {
      AbortMoves(s, a, false);
    } else {
      var dir := s.runs[r];
      match p.pc
      case Started =>
        if dir.pending != NoPending { AbortMoves(s, a, false); }
        else { WriteMoves(s, a, dir.(pending := TornPending), WritingPending); }
      case WritingPending =>
        WriteMoves(s, a, dir.(pending := SavedPending(r, ContractOf(p))), Monitoring);
      case Certified =>
        if dir.completion != NoCompletion { AbortMoves(s, a, false); }
        else { WriteMoves(s, a, dir.(completion := TornCompletion), WritingCompletion); }
      case WritingCompletion => WriteMoves(s, a, dir.(completion := SavedCompletion(r)), Closing);
    }
  }

  lemma ConcludeMoves(s: State, a: Actor)
    requires a in s.procs && PastEnter(s.procs[a].pc) && !WritesRun(s.procs[a].pc)
    ensures var t := Conclude(s, a); Moved(s, t, a) && NextPc(s, s.procs[a], t.procs[a].pc)
  {
    var p := s.procs[a];
    match p.pc
    case Made => TestMoves(s, a, true, Started);
    case Monitoring => TestMoves(s, a, true, Sealing);
    case Sealing => TestMoves(s, a, SameInode(s, p), Certified);
    case Closing => ReturnMoves(s, a, Completed);
    case Marking(signal) =>
      if p.call.blocked in s.markers { ReturnMoves(s, a, Thrown(signal)); }
      else { GotoMoves(s, s.(markers := s.markers + {p.call.blocked}), a, WritingMarker(signal)); }
    case WritingMarker(signal) => ReturnMoves(s, a, Thrown(signal));
  }

  lemma AdvanceMoves(s: State, a: Actor, inode: Inode, pick: RunId)
    requires Enabled(s, Advance(a, inode, pick))
    ensures var t := Apply(s, Advance(a, inode, pick));
            Moved(s, t, a) && NextPc(s, s.procs[a], t.procs[a].pc)
  {
    var pc := s.procs[a].pc;
    if !HoldsLock(pc) { AdmitMoves(s, a, inode); }
    else if !PastEnter(pc) { ExamineMoves(s, a, pick); }
    else if WritesRun(pc) { RecordMoves(s, a); }
    else { ConcludeMoves(s, a); }
  }

  // What a step can do to process `a` and to the markers.
  ghost predicate Turned(s: State, step: Step, t: State, a: Actor) {
    && a in s.procs && a in t.procs && t.procs[a].call == s.procs[a].call && s.markers <= t.markers
    && (!s.procs[a].pc.Opening? ==> t.procs[a].fd == s.procs[a].fd)
    && if !Acts(step, a) then t.procs[a] == s.procs[a]
       else match step
         case Advance(_, _, _) => NextPc(s, s.procs[a], t.procs[a].pc)
         case Fail(_, signal) => t.procs[a].pc == AbortPc(s.procs[a].pc, signal)
         case _ => t.procs[a].pc == Killed
  }

  lemma StepTurns(s: State, step: Step, a: Actor)
    requires Enabled(s, step) && a in s.procs
    ensures Turned(s, step, Apply(s, step), a)
  {
    match step
    case Advance(b, inode, pick) => AdvanceMoves(s, b, inode, pick);
    case Fail(b, signal) => AbortMoves(s, b, signal);
    case Look(o, pick) => LookFrame(s, o, pick);
    case Begin(_, _) =>
    case Kill(_) =>
    case ReplaceLock(_, _) =>
    case Observe(_, _, _) =>
    case StopLooking(_) =>
  }

  // ---------------------------------------------------------------- blocked markers

  lemma MarkersStay(s: State, step: Step)
    requires Enabled(s, step)
    ensures s.markers <= Apply(s, step).markers
  {
    match step
    case Advance(a, inode, pick) => AdvanceMoves(s, a, inode, pick);
    case Fail(a, signal) => AbortMoves(s, a, signal);
    case Look(o, pick) => LookFrame(s, o, pick);
    case Begin(_, _) =>
    case Kill(_) =>
    case ReplaceLock(_, _) =>
    case Observe(_, _, _) =>
    case StopLooking(_) =>
  }

  /** Nobody removes a blocked marker. */
  lemma MarkersAreForever(t: State, more: seq<Step>)
    requires Exec(Next, t, more).Some?
    ensures t.markers <= Exec(Next, t, more).value.markers
  {
    var keeps := (u: State) => t.markers <= u.markers;
    forall u, step | keeps(u) && Next(u, step).Some? ensures keeps(Next(u, step).value) {
      MarkersStay(u, step);
    }
    ExecKeeps(Next, keeps, t, more);
  }

  // Before the second test of the marker, or ended without completing.
  predicate Unadmitted(pc: Pc) {
    pc.Checking? || pc.Opening? || pc.Opened? || pc.Contending? || pc.Locked? || pc.Killed?
    || (pc.Returned? && pc.outcome != Completed)
  }

  // Process `a`, if there is one, has the marker `p` and is not admitted.
  predicate Blocked(s: State, p: Path, a: Actor) {
    && p in s.markers
    && (a in s.procs && s.procs[a].call.blocked == p ==> Unadmitted(s.procs[a].pc))
  }

  lemma Arrives(s: State, step: Step, a: Actor)
    requires Enabled(s, step) && a !in s.procs
    ensures a in Apply(s, step).procs ==> Apply(s, step).procs[a].pc == Checking
  {
    match step
    case Advance(b, inode, pick) => AdvanceMoves(s, b, inode, pick);
    case Fail(b, signal) => AbortMoves(s, b, signal);
    case Look(o, pick) => LookFrame(s, o, pick);
    case Begin(_, _) =>
    case Kill(_) =>
    case ReplaceLock(_, _) =>
    case Observe(_, _, _) =>
    case StopLooking(_) =>
  }

  lemma StaysBlocked(s: State, step: Step, p: Path, a: Actor)
    requires Blocked(s, p, a) && Enabled(s, step)
    ensures Blocked(Apply(s, step), p, a)
  {
    MarkersStay(s, step);
    if a in s.procs { StepTurns(s, step, a); }
    else { Arrives(s, step, a); }
  }

  /**
    With its marker present, a call that begins later, or has not passed the second test yet, never
    gets past the attempt boundary and never completes.
   */
  lemma BlockedNeverEnters(t: State, more: seq<Step>, a: Actor)
    requires Exec(Next, t, more).Some? && a in Exec(Next, t, more).value.procs
    requires Exec(Next, t, more).value.procs[a].call.blocked in t.markers
    requires a in t.procs ==> Live(t.procs[a].pc) && (t.procs[a].pc.Locked? || !HoldsLock(t.procs[a].pc))
    ensures var u := Exec(Next, t, more).value;
            !PastEnter(u.procs[a].pc) && u.procs[a].pc != Returned(Completed)
  {
    var p := Exec(Next, t, more).value.procs[a].call.blocked;
    var keeps := (u: State) => Blocked(u, p, a);
    forall u, step | keeps(u) && Next(u, step).Some? ensures keeps(Next(u, step).value) {
      StaysBlocked(u, step, p, a);
    }
    ExecKeeps(Next, keeps, t, more);
  }

  // ---------------------------------------------------------------- replaced locks

  predicate Names(s: State, lock: Path, inode: Inode) { lock in s.locks && s.locks[lock] == inode }

  /** Steps after which `lock` does not name `inode`. */
  ghost function Away(lock: Path, inode: Inode): (State, Step) -> Option<State> {
    (s: State, step: Step) =>
      if Enabled(s, step) && !Names(Apply(s, step), lock, inode) then Next(s, step) else None
  }

  predicate Ended(pc: Pc) { pc.Killed? || (pc.Returned? && pc.outcome != Completed) }

  // Between opening the lock and each of the three comparisons.
  predicate BeforeFirst(pc: Pc) { pc.Opened? || Ended(pc) }

  predicate BeforeSecond(pc: Pc) { pc.Contending? || pc.Locked? || pc.Rechecking? || BeforeFirst(pc) }

  predicate BeforeThird(pc: Pc) {
    !pc.Checking? && !pc.Opening? && !pc.Certified? && !pc.WritingCompletion? && !pc.Closing?
    && pc != Returned(Completed)
  }

  predicate Astray(s: State, lock: Path, inode: Inode, a: Actor) {
    a in s.procs && s.procs[a].call.lock == lock && s.procs[a].fd == inode && !Names(s, lock, inode)
    && BeforeThird(s.procs[a].pc)
  }

  // Where a process whose lock is elsewhere can go.
  lemma StrayPc(s: State, p: Proc, pc: Pc)
    requires !SameInode(s, p) && BeforeThird(p.pc)
    requires NextPc(s, p, pc) || pc == AbortPc(p.pc, true) || pc == AbortPc(p.pc, false) || pc == Killed
    ensures BeforeThird(pc)
    ensures BeforeFirst(p.pc) ==> BeforeFirst(pc)
    ensures BeforeSecond(p.pc) ==> BeforeSecond(pc)
  {
  }

  lemma StaysAstray(s: State, step: Step, lock: Path, inode: Inode, a: Actor)
    requires Astray(s, lock, inode, a) && Away(lock, inode)(s, step).Some?
    ensures var t := Apply(s, step);
            && Astray(t, lock, inode, a)
            && (BeforeFirst(s.procs[a].pc) ==> BeforeFirst(t.procs[a].pc))
            && (BeforeSecond(s.procs[a].pc) ==> BeforeSecond(t.procs[a].pc))
  {
    StepTurns(s, step, a);
    if Acts(step, a) { StrayPc(s, s.procs[a], Apply(s, step).procs[a].pc); }
  }

  /**
    While its lock path does not name the inode it opened, a process does not complete; from before
    the second comparison it does not get past the attempt boundary, and from before the first one
    it takes no flock.
   */
  lemma ReplacedLockIsNoticed(t: State, a: Actor, more: seq<Step>)
    requires a in t.procs && !Names(t, t.procs[a].call.lock, t.procs[a].fd)
    requires BeforeThird(t.procs[a].pc)
    requires Exec(Away(t.procs[a].call.lock, t.procs[a].fd), t, more).Some?
    ensures var u := Exec(Away(t.procs[a].call.lock, t.procs[a].fd), t, more).value;
            && a in u.procs && u.procs[a].pc != Returned(Completed)
            && (BeforeSecond(t.procs[a].pc) ==> !PastEnter(u.procs[a].pc))
            && (BeforeFirst(t.procs[a].pc) ==> !HoldsLock(u.procs[a].pc))
  {
    var lock, inode, pc := t.procs[a].call.lock, t.procs[a].fd, t.procs[a].pc;
    var keeps := (u: State) =>
      && Astray(u, lock, inode, a) && (BeforeFirst(pc) ==> BeforeFirst(u.procs[a].pc))
      && (BeforeSecond(pc) ==> BeforeSecond(u.procs[a].pc));
    forall u, step | keeps(u) && Away(lock, inode)(u, step).Some?
      ensures keeps(Away(lock, inode)(u, step).value)
    {
      StaysAstray(u, step, lock, inode, a);
    }
    ExecKeeps(Away(lock, inode), keeps, t, more);
  }

  // ---------------------------------------------------------------- outcomes

  lemma EndPc(s: State, p: Proc, pc: Pc, fails: bool, signal: bool)
    requires Live(p.pc) && !Live(pc) && if fails then pc == AbortPc(p.pc, signal) else NextPc(s, p, pc)
    ensures !pc.Killed? && (pc == Returned(Completed) <==> !fails && p.pc.Closing?)
    ensures pc == Returned(Refused) <==> !PastEnter(p.pc) && !(fails && signal)
    ensures pc == Returned(Interrupted) <==>
              if p.pc.Marking? || p.pc.WritingMarker? then p.pc.signal else fails && signal
  {
  }

  /** The point and the step that ended a call say how it ended. */
  lemma EndsExactly(s: State, step: Step, a: Actor)
    requires Enabled(s, step) && a in s.procs && Live(s.procs[a].pc)
    requires a in Apply(s, step).procs && !Live(Apply(s, step).procs[a].pc)
    ensures var before, after := s.procs[a].pc, Apply(s, step).procs[a].pc;
            && (after.Killed? <==> step.Kill?)
            && (after == Returned(Completed) <==> step.Advance? && before.Closing?)
            && (after == Returned(Refused) <==>
                  !PastEnter(before) && !step.Kill? && !(step.Fail? && step.signal))
            && (after == Returned(Interrupted) <==>
                  if before.Marking? || before.WritingMarker? then !step.Kill? && before.signal
                  else step.Fail? && step.signal)
  {
    StepTurns(s, step, a);
    if !step.Kill? {
      EndPc(s, s.procs[a], Apply(s, step).procs[a].pc, step.Fail?, step.Fail? && step.signal);
    }
  }

  lemma Concludes(u: State, a: Actor)
    requires a in u.procs && PastEnter(u.procs[a].pc) && !WritesRun(u.procs[a].pc)
    ensures Next(u, Advance(a, 0, 0)) == Some(Conclude(u, a))
  {
  }

  lemma MarkerWritten(s: State, u: State, a: Actor) returns (t: State)
    requires Leads(Next, s, u) && a in u.procs && u.procs[a].pc.WritingMarker?
    ensures Leads(Next, s, t) && t == Return(u, a, Thrown(u.procs[a].pc.signal))
  {
    Concludes(u, a);
    LeadsOn(Next, s, u, Advance(a, 0, 0));
    t := Conclude(u, a);
  }

  lemma MarkingEnds(s: State, u: State, a: Actor) returns (t: State)
    requires Leads(Next, s, u) && a in u.procs && u.procs[a].pc.Marking?
    ensures Leads(Next, s, t) && a in t.procs && t.runs == u.runs && t.contract == u.contract
    ensures t.procs[a].pc == Returned(Thrown(u.procs[a].pc.signal))
    ensures t.markers == u.markers + {u.procs[a].call.blocked}
  {
    var p := u.procs[a].call.blocked;
    Concludes(u, a);
    LeadsOn(Next, s, u, Advance(a, 0, 0));
    t := Conclude(u, a);
    if p in u.markers { assert u.markers + {p} == u.markers; } else { t := MarkerWritten(s, t, a); }
  }

  /**
    An attempt that fails after its directory was made leaves the marker behind, which then blocks
    whoever comes with it, and leaves the runs as they are.
   */
  lemma FailedAttemptMarks(s: State, a: Actor, signal: bool) returns (t: State)
    requires a in s.procs && OwnsRun(s.procs[a].pc) && !s.procs[a].pc.Made?
    requires !s.procs[a].pc.Marking? && !s.procs[a].pc.WritingMarker?
    ensures Leads(Next, s, t) && a in t.procs && t.runs == s.runs && t.contract == s.contract
    ensures t.procs[a].pc == Returned(if signal then Interrupted else Raised)
    ensures t.markers == s.markers + {s.procs[a].call.blocked}
  {
    LeadsNowhere(Next, s);
    LeadsOn(Next, s, s, Fail(a, signal));
    t := MarkingEnds(s, Goto(s, a, Marking(signal)), a);
  }

  /** A step at which `a` does not fail to write its marker. */
  ghost function Sturdy(a: Actor): (State, Step) -> Option<State> {
    (s: State, step: Step) =>
      if step.Fail? && step.actor == a && a in s.procs && s.procs[a].pc.Marking? then None
      else Next(s, step)
  }

  // At work on its run, or ended well, killed, or with its marker in place.
  predicate Marks(s: State, a: Actor, p: Path) {
    && a in s.procs && s.procs[a].call.blocked == p
    && var pc := s.procs[a].pc;
       && ((OwnsRun(pc) && !pc.Made?) || pc.Killed? || pc == Returned(Completed) || p in s.markers)
       && (pc.WritingMarker? ==> p in s.markers)
  }

  lemma MarkingMarks(s: State, a: Actor, p: Path)
    requires Marks(s, a, p) && s.procs[a].pc.Marking?
    ensures Marks(Conclude(s, a), a, p)
  {
  }

  lemma TurnMarks(s: State, step: Step, t: State, a: Actor, p: Path)
    requires Marks(s, a, p) && Turned(s, step, t, a)
    requires Acts(step, a) ==> Live(s.procs[a].pc) && !step.Kill? && !s.procs[a].pc.Marking?
    ensures Marks(t, a, p)
  {
  }

  lemma StaysMarks(s: State, step: Step, a: Actor, p: Path)
    requires Marks(s, a, p) && Sturdy(a)(s, step).Some?
    ensures Marks(Apply(s, step), a, p)
  {
    if Acts(step, a) && step.Kill? { return; }
    if Acts(step, a) && s.procs[a].pc.Marking? {
      MarkingMarks(s, a, p);
      assert Apply(s, step) == Conclude(s, a);
    } else {
      StepTurns(s, step, a);
      TurnMarks(s, step, Apply(s, step), a, p);
    }
  }

  /**
    However a call ends that has made and noted its directory, if it is not killed, does not
    complete and can write the marker, the marker is in place.
   */
  lemma FailuresMark(s: State, a: Actor, more: seq<Step>)
    requires a in s.procs && OwnsRun(s.procs[a].pc) && !s.procs[a].pc.Made?
    requires !s.procs[a].pc.WritingMarker? && Exec(Sturdy(a), s, more).Some?
    ensures var t := Exec(Sturdy(a), s, more).value;
            && a in t.procs
            && (t.procs[a].pc.Returned? && t.procs[a].pc != Returned(Completed) ==>
                  s.procs[a].call.blocked in t.markers)
  {
    var p := s.procs[a].call.blocked;
    var keeps := (t: State) => Marks(t, a, p);
    forall t, step | keeps(t) && Sturdy(a)(t, step).Some? ensures keeps(Sturdy(a)(t, step).value) {
      StaysMarks(t, step, a, p);
    }
    ExecKeeps(Sturdy(a), keeps, s, more);
  }

  // ---------------------------------------------------------------- flocks are given back

  /** Whoever has a flock is a process or an observer that holds it now. */
  ghost predicate Held(s: State) {
    && (forall i :: i in s.exclusive ==>
          && s.exclusive[i] in s.procs && HoldsLock(s.procs[s.exclusive[i]].pc)
          && s.procs[s.exclusive[i]].fd == i)
    && (forall o :: o in s.shared ==>
          o in s.observers && HoldsShared(s.observers[o].pc) && s.observers[o].fd == s.shared[o])
  }

  lemma MoveHeld(s: State, t: State, a: Actor)
    requires Held(s) && Moved(s, t, a) && Live(s.procs[a].pc)
    requires HoldsLock(s.procs[a].pc) && Live(t.procs[a].pc) ==> HoldsLock(t.procs[a].pc)
    requires t.procs[a].pc.Locked? ==> s.procs[a].pc.Contending?
    requires HoldsLock(s.procs[a].pc) ==> !s.procs[a].pc.Opening?
    ensures Held(t)
  {
  }

  lemma AnswerHeld(s: State, o: Actor, report: Report)
    requires Held(s) && o in s.observers
    ensures Held(Answer(s, o, report))
  {
  }

  lemma LookOnHeld(s: State, o: Actor, pc: ObserverPc)
    requires Held(s) && o in s.observers && (HoldsShared(s.observers[o].pc) ==> HoldsShared(pc))
    ensures Held(LookOn(s, o, pc))
  {
  }

  lemma GlanceHeld(s: State, o: Actor)
    requires Held(s) && o in s.observers && !s.observers[o].pc.Reported?
    requires !LooksAtHistory(s.observers[o].pc)
    ensures Held(Glance(s, o))
  {
    var v := s.observers[o];
    AnswerHeld(s, o, BlockedReport);
    AnswerHeld(s, o, Unresolved);
    AnswerHeld(s, o, Busy);
    match v.pc
    case Looking =>
    case LookOpened => LookOnHeld(s, o, LookContending);
    case LookContending =>
    case LookUnblocked => LookOnHeld(s, o, LookListing);
  }

  lemma InspectHeld(s: State, o: Actor, pick: RunId)
    requires Held(s) && Enabled(s, Look(o, pick)) && LooksAtHistory(s.observers[o].pc)
    ensures Held(Inspect(s, o, pick))
  {
    var u := Inspect(s, o, pick);
    if u.observers[o].pc.Reported? { AnswerHeld(s, o, u.observers[o].pc.report); }
    else { LookOnHeld(s, o, u.observers[o].pc); }
  }

  lemma StaysHeld(s: State, step: Step)
    requires Held(s) && Enabled(s, step)
    ensures Held(Apply(s, step))
  {
    match step
    case Advance(a, inode, pick) =>
      AdvanceMoves(s, a, inode, pick);
      MoveHeld(s, Apply(s, step), a);
    case Fail(a, signal) =>
      AbortMoves(s, a, signal);
      MoveHeld(s, Apply(s, step), a);
    case Look(o, pick) =>
      if LooksAtHistory(s.observers[o].pc) { InspectHeld(s, o, pick); } else { GlanceHeld(s, o); }
    case StopLooking(o) => AnswerHeld(s, o, Unresolved);
    case Kill(a) => MoveHeld(s, Apply(s, step), a);
    case Begin(_, _) =>
    case ReplaceLock(_, _) =>
    case Observe(_, _, _) =>
  }

  lemma LocksAreReleased(t: State)
    requires Reachable(t)
    ensures Held(t)
  {
    var s :| Init(s) && Leads(Next, s, t);
    var steps :| Exec(Next, s, steps) == Some(t);
    forall u, step | Held(u) && Next(u, step).Some? ensures Held(Next(u, step).value) {
      StaysHeld(u, step);
    }
    ExecKeeps(Next, Held, s, steps);
  }
}
