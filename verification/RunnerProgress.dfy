/**
  What a call of the runner does when nobody disturbs it: it ends, in the one way that the state it
  found determines. Safety alone would also hold of a runner that refuses everything.
 */
module RunnerProgress {
  import opened Wrappers
  import opened Runs
  import opened RunnerControl
  import opened RunnerOutcome

  function Bound(call: Call, fd: Inode): Contract { Contract(call.lock, fd, call.blocked) }

  predicate Fresh(s: State) { s.contract == NoContract && s.runs == map[] }

  /** The history is this caller's, and every run in it is verified. */
  predicate Verified(s: State, c: Contract) {
    s.contract == SavedContract(c) && Unverified(s.contract, s.runs) == {}
  }

  /** How a call that opens the lock as `fd` ends when it is alone. */
  function Verdict(s: State, call: Call, fd: Inode): Outcome {
    if call.blocked in s.markers || Contended(s, fd) then Refused
    else if Fresh(s) then Completed
    else if !Verified(s, Bound(call, fd)) then Refused
    else if call.run in s.runs then Raised
    else Completed
  }

  /** And what it leaves: a run of its own if it completes, at most the lock file otherwise. */
  function Left(s: State, a: Actor, call: Call, fd: Inode): State {
    var v, c := Verdict(s, call, fd), Bound(call, fd);
    s.(locks := if call.blocked in s.markers then s.locks else s.locks[call.lock := fd],
       contract := if v.Completed? then SavedContract(c) else s.contract,
       runs := if v.Completed?
               then s.runs[call.run := RunDir(a, SavedPending(call.run, c), SavedCompletion(call.run))]
               else s.runs,
       procs := s.procs[a := Proc(call, fd, Returned(v))])
  }

  // ---------------------------------------------------------------- on the way

  predicate BeforeContract(pc: Pc) {
    !HoldsLock(pc) || pc.Locked? || pc.Rechecking? || pc.Listing? || pc.CreatingContract?
  }

  function ContractAt(s: State, c: Contract, pc: Pc): ContractFile {
    if BeforeContract(pc) || !Fresh(s) then s.contract
    else if pc.WritingContract? then TornContract
    else SavedContract(c)
  }

  function DirAt(a: Actor, r: RunId, c: Contract, pc: Pc): RunDir {
    RunDir(a,
           if pc.Made? || pc.Started? then NoPending
           else if pc.WritingPending? then TornPending
           else SavedPending(r, c),
           if pc.Closing? then SavedCompletion(r)
           else if pc.WritingCompletion? then TornCompletion
           else NoCompletion)
  }

  // What the tests passed so far say of `s`.
  predicate Passed(s: State, call: Call, fd: Inode, pc: Pc) {
    var c := Bound(call, fd);
    && (!pc.Checking? ==> call.blocked !in s.markers)
    && (!pc.Checking? && !pc.Opening? && call.lock in s.locks ==> s.locks[call.lock] == fd)
    && (HoldsLock(pc) ==> !Contended(s, fd))
    && (pc.CreatingContract? || pc.WritingContract? ==> Fresh(s))
    && (pc.Scanning? ==>
          && (Fresh(s) || s.contract == SavedContract(c))
          && Unverified(s.contract, s.runs) <= pc.todo <= s.runs.Keys)
    && (PastEnter(pc) ==> Fresh(s) || Verified(s, c))
    && (OwnsRun(pc) ==> call.run !in s.runs && !pc.Marking? && !pc.WritingMarker?)
  }

  /** Where a call that found `s` is, at point `pc`, when it is alone. */
  function Midway(s: State, a: Actor, call: Call, fd: Inode, pc: Pc): State {
    var c := Bound(call, fd);
    s.(locks := if pc.Checking? || pc.Opening? then s.locks else s.locks[call.lock := fd],
       exclusive := if HoldsLock(pc) then s.exclusive[fd := a] else s.exclusive,
       contract := ContractAt(s, c, pc),
       runs := if OwnsRun(pc) then s.runs[call.run := DirAt(a, call.run, c, pc)] else s.runs,
       procs := s.procs[a := Proc(call, fd, pc)])
  }

  ghost predicate Going(s: State, t: State, a: Actor, call: Call) {
    && a in t.procs && t.procs[a].call == call
    && var fd, pc := t.procs[a].fd, t.procs[a].pc;
       if Live(pc) then Passed(s, call, fd, pc) && t == Midway(s, a, call, fd, pc)
       else t == Left(s, a, call, fd)
            && (call.blocked !in s.markers && call.lock in s.locks ==> s.locks[call.lock] == fd)
  }

  // Nobody in `s` is `a`.
  ghost predicate New(s: State, a: Actor) { a !in s.procs && Held(s) }

  lemma Unlocks(s: State, a: Actor, call: Call, fd: Inode, pc: Pc)
    requires New(s, a) && Passed(s, call, fd, pc)
    ensures Unlock(Midway(s, a, call, fd, pc), a).exclusive == s.exclusive
  {
  }

  lemma MidwayGoes(s: State, a: Actor, call: Call, fd: Inode, pc: Pc)
    requires Live(pc) && Passed(s, call, fd, pc)
    ensures Going(s, Midway(s, a, call, fd, pc), a, call)
  {
  }

  lemma LeftGoes(s: State, a: Actor, call: Call, fd: Inode)
    requires call.blocked !in s.markers && call.lock in s.locks ==> s.locks[call.lock] == fd
    ensures Going(s, Left(s, a, call, fd), a, call)
  {
  }

  /** A call that ends as the verdict says leaves what it should. */
  lemma Ends(s: State, a: Actor, call: Call, fd: Inode, pc: Pc, u: State)
    requires New(s, a) && Live(pc) && Passed(s, call, fd, pc) && !pc.Opening?
    requires var v := Verdict(s, call, fd);
             if v == Completed then pc == Closing
             else !OwnsRun(pc) && ContractAt(s, Bound(call, fd), pc) == s.contract
                  && (pc.Checking? ==> call.blocked in s.markers)
    requires u == Return(Midway(s, a, call, fd, pc), a, Verdict(s, call, fd))
    ensures Going(s, u, a, call)
  {
    Unlocks(s, a, call, fd, pc);
    assert u.procs == Left(s, a, call, fd).procs;
    assert u == Left(s, a, call, fd);
    LeftGoes(s, a, call, fd);
  }

  // One process moves on, all else as it should be.
  lemma MovesOn(s: State, a: Actor, call: Call, fd: Inode, pc: Pc, next: Pc, u: State)
    requires Passed(s, call, fd, pc) && Passed(s, call, fd, next) && Live(pc) && Live(next)
    requires HoldsLock(pc) == HoldsLock(next) && OwnsRun(pc) == OwnsRun(next)
    requires if pc.Checking? then next.Opening?
             else !pc.Opening? && !next.Checking? && !next.Opening?
    requires ContractAt(s, Bound(call, fd), pc) == ContractAt(s, Bound(call, fd), next)
    requires OwnsRun(pc) ==>
               DirAt(a, call.run, Bound(call, fd), pc) == DirAt(a, call.run, Bound(call, fd), next)
    requires u == Goto(Midway(s, a, call, fd, pc), a, next)
    ensures Going(s, u, a, call)
  {
    assert u.procs == Midway(s, a, call, fd, next).procs;
    assert u == Midway(s, a, call, fd, next);
    MidwayGoes(s, a, call, fd, next);
  }

  lemma OpenGoing(s: State, a: Actor, call: Call, fd: Inode, inode: Inode)
    requires New(s, a) && Passed(s, call, fd, Opening)
    ensures Going(s, Admit(Midway(s, a, call, fd, Opening), a, inode), a, call)
  {
    var t := Midway(s, a, call, fd, Opening);
    var named := if call.lock in s.locks then s.locks[call.lock] else inode;
    var u := Midway(s, a, call, named, Opened);
    assert s.locks[call.lock := named]
        == if call.lock in s.locks then s.locks else s.locks[call.lock := inode];
    assert Admit(t, a, inode).procs == u.procs;
    assert Admit(t, a, inode) == u;
    MidwayGoes(s, a, call, named, Opened);
  }

  lemma AcquireGoing(s: State, a: Actor, call: Call, fd: Inode, inode: Inode)
    requires New(s, a) && Passed(s, call, fd, Contending)
    ensures Going(s, Admit(Midway(s, a, call, fd, Contending), a, inode), a, call)
  {
    var t, u := Midway(s, a, call, fd, Contending), Midway(s, a, call, fd, Locked);
    if Contended(s, fd) {
      Ends(s, a, call, fd, Contending, Admit(t, a, inode));
    } else {
      assert Admit(t, a, inode).procs == u.procs;
      assert Admit(t, a, inode) == u;
      MidwayGoes(s, a, call, fd, Locked);
    }
  }

  lemma AdmitGoing(s: State, a: Actor, call: Call, fd: Inode, pc: Pc, inode: Inode)
    requires New(s, a) && Passed(s, call, fd, pc) && Live(pc) && !HoldsLock(pc)
    ensures Going(s, Admit(Midway(s, a, call, fd, pc), a, inode), a, call)
  {
    var u := Admit(Midway(s, a, call, fd, pc), a, inode);
    match pc
    case Checking =>
      if call.blocked in s.markers { Ends(s, a, call, fd, pc, u); }
      else { MovesOn(s, a, call, fd, pc, Opening, u); }
    case Opening => OpenGoing(s, a, call, fd, inode);
    case Opened => MovesOn(s, a, call, fd, pc, Contending, u);
    case Contending => AcquireGoing(s, a, call, fd, inode);
  }

  lemma ScanGoing(s: State, a: Actor, call: Call, fd: Inode, todo: set<RunId>, pick: RunId)
    requires New(s, a) && Passed(s, call, fd, Scanning(todo)) && (todo != {} ==> pick in todo)
    ensures Going(s, Examine(Midway(s, a, call, fd, Scanning(todo)), a, pick), a, call)
  {
    var c, pc := Bound(call, fd), Scanning(todo);
    var u := Examine(Midway(s, a, call, fd, pc), a, pick);
    if todo == {} {
      MovesOn(s, a, call, fd, pc, Entered, u);
    } else if Verifies(c, pick, s.runs[pick]) {
      MovesOn(s, a, call, fd, pc, Scanning(todo - {pick}), u);
    } else {
      assert pick in Unverified(s.contract, s.runs);
      Ends(s, a, call, fd, pc, u);
    }
  }

  lemma ContractGoing(s: State, a: Actor, call: Call, fd: Inode, pc: Pc, pick: RunId)
    requires New(s, a) && Passed(s, call, fd, pc) && (pc.CreatingContract? || pc.WritingContract?)
    ensures Going(s, Examine(Midway(s, a, call, fd, pc), a, pick), a, call)
  {
    var next := if pc.CreatingContract? then WritingContract else ReadingContract;
    var t, u := Examine(Midway(s, a, call, fd, pc), a, pick), Midway(s, a, call, fd, next);
    assert t.procs == u.procs;
    assert t == u;
    MidwayGoes(s, a, call, fd, next);
  }

  lemma ReadGoing(s: State, a: Actor, call: Call, fd: Inode, pick: RunId)
    requires New(s, a) && Passed(s, call, fd, ReadingContract)
    ensures Going(s, Examine(Midway(s, a, call, fd, ReadingContract), a, pick), a, call)
  {
    var c := Bound(call, fd);
    var u := Examine(Midway(s, a, call, fd, ReadingContract), a, pick);
    if ContractAt(s, c, ReadingContract) == SavedContract(c) {
      MovesOn(s, a, call, fd, ReadingContract, Scanning(s.runs.Keys), u);
    } else {
      Ends(s, a, call, fd, ReadingContract, u);
    }
  }

  lemma TestGoing(s: State, a: Actor, call: Call, fd: Inode, pc: Pc, pick: RunId)
    requires New(s, a) && Passed(s, call, fd, pc) && (pc.Locked? || pc.Rechecking? || pc.Listing?)
    ensures Going(s, Examine(Midway(s, a, call, fd, pc), a, pick), a, call)
  {
    var m := Midway(s, a, call, fd, pc);
    assert m.procs[a] == Proc(call, fd, pc) && SameInode(m, m.procs[a]);
    var u := Examine(m, a, pick);
    if pc.Locked? { MovesOn(s, a, call, fd, pc, Rechecking, u); }
    else if pc.Rechecking? { MovesOn(s, a, call, fd, pc, Listing, u); }
    else { MovesOn(s, a, call, fd, pc, if Fresh(s) then CreatingContract else ReadingContract, u); }
  }

  lemma ExamineGoing(s: State, a: Actor, call: Call, fd: Inode, pc: Pc, pick: RunId)
    requires New(s, a) && Passed(s, call, fd, pc) && HoldsLock(pc) && !PastEnter(pc)
    requires pc.Scanning? && pc.todo != {} ==> pick in pc.todo
    ensures Going(s, Examine(Midway(s, a, call, fd, pc), a, pick), a, call)
  {
    if pc.ReadingContract? { ReadGoing(s, a, call, fd, pick); }
    else if pc.Scanning? { ScanGoing(s, a, call, fd, pc.todo, pick); }
    else if pc.CreatingContract? || pc.WritingContract? { ContractGoing(s, a, call, fd, pc, pick); }
    else { TestGoing(s, a, call, fd, pc, pick); }
  }

  lemma EnterGoing(s: State, a: Actor, call: Call, fd: Inode)
    requires New(s, a) && Passed(s, call, fd, Entered)
    ensures Going(s, Record(Midway(s, a, call, fd, Entered), a), a, call)
  {
    var t := Record(Midway(s, a, call, fd, Entered), a);
    if call.run in s.runs {
      Ends(s, a, call, fd, Entered, t);
    } else {
      var u := Midway(s, a, call, fd, Made);
      assert t.procs == u.procs;
      assert t == u;
      MidwayGoes(s, a, call, fd, Made);
    }
  }

  predicate WritesNext(pc: Pc, next: Pc) {
    || (pc == Started && next == WritingPending) || (pc == WritingPending && next == Monitoring)
    || (pc == Certified && next == WritingCompletion) || (pc == WritingCompletion && next == Closing)
  }

  lemma WritesDir(s: State, a: Actor, call: Call, fd: Inode, pc: Pc, next: Pc)
    requires Passed(s, call, fd, pc) && WritesNext(pc, next)
    ensures var m := Midway(s, a, call, fd, pc);
            var dir := DirAt(a, call.run, Bound(call, fd), next);
            Record(m, a) == Goto(SetRun(m, call.run, dir), a, next)
  {
  }

  lemma WriteGoing(s: State, a: Actor, call: Call, fd: Inode, pc: Pc, next: Pc)
    requires New(s, a) && Passed(s, call, fd, pc) && WritesNext(pc, next)
    ensures Going(s, Record(Midway(s, a, call, fd, pc), a), a, call)
  {
    var c := Bound(call, fd);
    var dir := DirAt(a, call.run, c, next);
    var m, u := Midway(s, a, call, fd, pc), Midway(s, a, call, fd, next);
    WritesDir(s, a, call, fd, pc, next);
    assert s.runs[call.run := DirAt(a, call.run, c, pc)][call.run := dir] == s.runs[call.run := dir];
    assert Goto(SetRun(m, call.run, dir), a, next).procs == u.procs;
    assert Goto(SetRun(m, call.run, dir), a, next) == u;
    MidwayGoes(s, a, call, fd, next);
  }

  lemma RecordGoing(s: State, a: Actor, call: Call, fd: Inode, pc: Pc)
    requires New(s, a) && Passed(s, call, fd, pc) && WritesRun(pc)
    ensures Going(s, Record(Midway(s, a, call, fd, pc), a), a, call)
  {
    if pc.Entered? { EnterGoing(s, a, call, fd); }
    else if pc.Started? { WriteGoing(s, a, call, fd, pc, WritingPending); }
    else if pc.WritingPending? { WriteGoing(s, a, call, fd, pc, Monitoring); }
    else if pc.Certified? { WriteGoing(s, a, call, fd, pc, WritingCompletion); }
    else { WriteGoing(s, a, call, fd, pc, Closing); }
  }

  lemma CloseGoing(s: State, a: Actor, call: Call, fd: Inode)
    requires New(s, a) && Passed(s, call, fd, Closing)
    ensures Going(s, Conclude(Midway(s, a, call, fd, Closing), a), a, call)
  {
    Ends(s, a, call, fd, Closing, Conclude(Midway(s, a, call, fd, Closing), a));
  }

  lemma MonitorGoing(s: State, a: Actor, call: Call, fd: Inode, pc: Pc)
    requires New(s, a) && Passed(s, call, fd, pc) && (pc.Made? || pc.Monitoring?)
    ensures Going(s, Conclude(Midway(s, a, call, fd, pc), a), a, call)
  {
    var u := Conclude(Midway(s, a, call, fd, pc), a);
    MovesOn(s, a, call, fd, pc, if pc.Made? then Started else Sealing, u);
  }

  lemma SealGoing(s: State, a: Actor, call: Call, fd: Inode)
    requires New(s, a) && Passed(s, call, fd, Sealing)
    ensures Going(s, Conclude(Midway(s, a, call, fd, Sealing), a), a, call)
  {
    var m := Midway(s, a, call, fd, Sealing);
    assert m.procs[a] == Proc(call, fd, Sealing) && SameInode(m, m.procs[a]);
    MovesOn(s, a, call, fd, Sealing, Certified, Conclude(m, a));
  }

  lemma ConcludeGoing(s: State, a: Actor, call: Call, fd: Inode, pc: Pc)
    requires New(s, a) && Passed(s, call, fd, pc) && PastEnter(pc) && !WritesRun(pc)
    ensures Going(s, Conclude(Midway(s, a, call, fd, pc), a), a, call)
  {
    if pc.Closing? { CloseGoing(s, a, call, fd); }
    else if pc.Sealing? { SealGoing(s, a, call, fd); }
    else { MonitorGoing(s, a, call, fd, pc); }
  }

  lemma GoesOn(s: State, t: State, a: Actor, call: Call, inode: Inode, pick: RunId)
    requires New(s, a) && Going(s, t, a, call) && Enabled(t, Advance(a, inode, pick))
    ensures Going(s, Apply(t, Advance(a, inode, pick)), a, call)
  {
    var fd, pc := t.procs[a].fd, t.procs[a].pc;
    if !HoldsLock(pc) { AdmitGoing(s, a, call, fd, pc, inode); }
    else if !PastEnter(pc) { ExamineGoing(s, a, call, fd, pc, pick); }
    else if WritesRun(pc) { RecordGoing(s, a, call, fd, pc); }
    else { ConcludeGoing(s, a, call, fd, pc); }
  }

  // ---------------------------------------------------------------- to the end

  ghost function Solo(a: Actor): (State, Step) -> Option<State> {
    (s: State, step: Step) => if step.Advance? && step.actor == a then Next(s, step) else None
  }

  lemma Begins(s: State, a: Actor, call: Call)
    requires a !in s.procs
    ensures Going(s, Apply(s, Begin(a, call)), a, call)
  {
    MidwayGoes(s, a, call, 0, Checking);
  }

  /**
    However a call goes that nobody disturbs, when it has ended it has ended by the verdict, and left
    what goes with it: a blocked or busy runner, or a history that is not this caller's or not
    verified, refuses and leaves at most the lock file; an existing run id raises; anything else
    completes with the caller's own verified run.
   */
  lemma SoloVerdict(s: State, a: Actor, call: Call, more: seq<Step>)
    requires Reachable(s) && a !in s.procs
    requires Exec(Solo(a), Apply(s, Begin(a, call)), more).Some?
    ensures var t := Exec(Solo(a), Apply(s, Begin(a, call)), more).value;
            && a in t.procs
            && (!Live(t.procs[a].pc) ==>
                  var fd := t.procs[a].fd;
                  && t == Left(s, a, call, fd)
                  && (call.blocked !in s.markers && call.lock in s.locks ==> s.locks[call.lock] == fd))
  {
    var keeps := (t: State) => Going(s, t, a, call);
    LocksAreReleased(s);
    Begins(s, a, call);
    forall t, step | keeps(t) && Solo(a)(t, step).Some? ensures keeps(Solo(a)(t, step).value) {
      GoesOn(s, t, a, call, step.inode, step.pick);
    }
    ExecKeeps(Solo(a), keeps, Apply(s, Begin(a, call)), more);
  }

  /** How many points are left. */
  function Rank(pc: Pc): nat {
    match pc
    case Checking => 20
    case Opening => 19
    case Opened => 18
    case Contending => 17
    case Locked => 16
    case Rechecking => 15
    case Listing => 14
    case CreatingContract => 13
    case WritingContract => 12
    case ReadingContract => 11
    case Scanning(_) => 10
    case Entered => 9
    case Made => 8
    case Started => 7
    case WritingPending => 6
    case Monitoring => 5
    case Sealing => 4
    case Certified => 3
    case WritingCompletion => 2
    case Closing => 1
    case _ => 0
  }

  lemma RankFalls(s: State, p: Proc, pc: Pc)
    requires Live(p.pc) && NextPc(s, p, pc) && !pc.Marking? && !pc.WritingMarker?
    requires !p.pc.Marking? && !p.pc.WritingMarker?
    ensures Rank(pc) < Rank(p.pc) || (p.pc.Scanning? && pc.Scanning? && pc.todo < p.pc.todo)
  {
  }

  lemma Nearer(s: State, t: State, a: Actor, call: Call, pick: RunId)
    requires New(s, a) && Going(s, t, a, call) && Enabled(t, Advance(a, 0, pick))
    requires Going(s, Apply(t, Advance(a, 0, pick)), a, call)
    ensures var pc, u := t.procs[a].pc, Apply(t, Advance(a, 0, pick));
            && a in u.procs
            && (Rank(u.procs[a].pc) < Rank(pc)
                || (pc.Scanning? && u.procs[a].pc.Scanning? && u.procs[a].pc.todo < pc.todo))
  {
    AdvanceMoves(t, a, 0, pick);
    RankFalls(t, t.procs[a], Apply(t, Advance(a, 0, pick)).procs[a].pc);
  }

  /** And it does end. */
  lemma {:induction false} SoloEnds(s: State, t0: State, a: Actor, call: Call) returns (t: State)
    requires New(s, a) && Going(s, t0, a, call) && Leads(Next, s, t0)
    ensures Leads(Next, s, t) && Going(s, t, a, call) && !Live(t.procs[a].pc)
    decreases Rank(t0.procs[a].pc),
              if t0.procs[a].pc.Scanning? then t0.procs[a].pc.todo else {}
  {
    t := t0;
    var pc := t0.procs[a].pc;
    if Live(pc) {
      var pick := 0;
      if pc.Scanning? && pc.todo != {} { pick :| pick in pc.todo; }
      LeadsOn(Next, s, t0, Advance(a, 0, pick));
      GoesOn(s, t0, a, call, 0, pick);
      Nearer(s, t0, a, call, pick);
      t := SoloEnds(s, Apply(t0, Advance(a, 0, pick)), a, call);
    }
  }

  /** Left alone, every call ends as the verdict says. */
  lemma UndisturbedRunEnds(s: State, a: Actor, call: Call) returns (t: State)
    requires Reachable(s) && a !in s.procs
    ensures Leads(Next, s, t) && a in t.procs && t == Left(s, a, call, t.procs[a].fd)
    ensures call.blocked !in s.markers && call.lock in s.locks ==> s.locks[call.lock] == t.procs[a].fd
  {
    LocksAreReleased(s);
    LeadsNowhere(Next, s);
    LeadsOn(Next, s, s, Begin(a, call));
    Begins(s, a, call);
    t := SoloEnds(s, Apply(s, Begin(a, call)), a, call);
  }

  /**
    So an undisturbed call over an empty or wholly verified history completes. It adds exactly its
    own run, verified, so the history is wholly verified again.
   */
  lemma UndisturbedRunCompletes(s: State, a: Actor, call: Call) returns (t: State)
    requires Reachable(s) && a !in s.procs && call.run !in s.runs
    requires call.blocked !in s.markers && call.lock in s.locks && !Contended(s, s.locks[call.lock])
    requires Fresh(s) || Verified(s, Bound(call, s.locks[call.lock]))
    ensures Leads(Next, s, t) && a in t.procs && t.procs[a].pc == Returned(Completed)
    ensures t.contract == SavedContract(Bound(call, s.locks[call.lock]))
    ensures Unverified(t.contract, t.runs) == {} && t.runs.Keys == s.runs.Keys + {call.run}
    ensures forall r :: r in s.runs ==> t.runs[r] == s.runs[r]
  {
    t := UndisturbedRunEnds(s, a, call);
    var c := Bound(call, s.locks[call.lock]);
    forall r | r in t.runs ensures Verifies(c, r, t.runs[r]) {
      if r != call.run { assert r !in Unverified(s.contract, s.runs); }
    }
  }

  /** And with its marker present it is refused, and changes nothing but that. */
  lemma BlockedRunIsRefused(s: State, a: Actor, call: Call) returns (t: State)
    requires Reachable(s) && a !in s.procs && call.blocked in s.markers
    ensures Leads(Next, s, t) && a in t.procs && t.procs[a].pc == Returned(Refused)
    ensures t == s.(procs := s.procs[a := t.procs[a]])
  {
    t := UndisturbedRunEnds(s, a, call);
  }
}
