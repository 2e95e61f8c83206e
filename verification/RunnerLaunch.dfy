/** The host runner as lab jobs see it. */
module RunnerLaunch {
  // Every step of a runner process is a step of the launch that `LabJob` describes, or none. So what
  // `LabJob` takes for granted of `run_controlled`, a refusal that made no directory in particular,
  // is what `RunnerControl` does.

  import opened Wrappers
  import R = RunnerControl
  import L = LabJob

  // Where a launch stands, and the run directory it has made.
  datatype View = View(pc: L.Pc, run: Option<L.Run>)

  /** The point of the launch that a point of the runner process is. */
  function PcOf(pc: R.Pc): L.Pc {
    if pc.Returned? then
      if pc.outcome.Refused? then L.PublishRefusal
      else if pc.outcome.Completed? then L.ReadRecord(true)
      else L.Finished(L.NoAnswer)
    else if pc.Killed? || pc.Marking? || pc.WritingMarker? then L.Finished(L.NoAnswer)
    else if !R.OwnsRun(pc) then L.Running
    else if pc.Closing? then L.ReadRecord(true)
    else if pc.Made? || pc.Started? || pc.WritingPending? then L.RunMade
    else L.RunBound
  }

  /** The run directory as `LabJob` keeps it: the caller owns it, and pending.json binds the job. */
  function RunOf(dir: R.RunDir, c: L.Caller, own: L.Binding): L.Run {
    L.Run(c, if dir.pending.SavedPending? then Some(own) else None, dir.completion.SavedCompletion?)
  }

  function ViewAt(pc: R.Pc, dir: Option<R.RunDir>, c: L.Caller, own: L.Binding): View {
    View(PcOf(pc), if dir.Some? then Some(RunOf(dir.value, c, own)) else None)
  }

  /** The directory under the process's run id, if it is its own. */
  function OwnDir(p: R.Proc, a: R.Actor, runs: map<R.RunId, R.RunDir>): Option<R.RunDir> {
    var r := p.call.run;
    if r in runs && runs[r].owner == a then Some(runs[r]) else None
  }

  function ViewOf(s: R.State, a: R.Actor, c: L.Caller, own: L.Binding): View
    requires a in s.procs
  {
    ViewAt(s.procs[a].pc, OwnDir(s.procs[a], a, s.runs), c, own)
  }

  /** The lab's state with the launch of `c` where the view has it. */
  function Embed(l: L.State, c: L.Caller, v: View): L.State
    requires c in l.calls
  {
    var call := l.calls[c];
    l.(calls := l.calls[c := call.(pc := v.pc)],
       runs := if v.run.Some? then l.runs[call.native := v.run.value] else l.runs - {call.native})
  }

  /** The launch stays where it is, moves on, is refused or ends. */
  ghost predicate Simulates(l: L.State, c: L.Caller, v: View, w: View)
    requires c in l.calls
  {
    || v == w
    || exists step :: step in {L.Advance(c, 0), L.Refuse(c), L.Stop(c)} && Takes(l, c, v, w, step)
  }

  ghost predicate Takes(l: L.State, c: L.Caller, v: View, w: View, step: L.Step)
    requires c in l.calls
  {
    L.Enabled(Embed(l, c, v), step) && L.Apply(Embed(l, c, v), step) == Embed(l, c, w)
  }

  /** `own` is the binding that the call hands to the runner. */
  predicate Launched(l: L.State, c: L.Caller, own: L.Binding) {
    c in l.calls && own == L.Binding(l.calls[c].job, l.calls[c].native)
  }

  // The ways a view changes.
  predicate Moves(v: View, w: View, c: L.Caller, own: L.Binding) {
    || v == w
    || (v.pc.Running? && v.run == None && w == View(L.RunMade, Some(L.Run(c, None, false))))
    || (v == View(L.RunMade, Some(L.Run(c, None, false)))
        && w == View(L.RunBound, Some(L.Run(c, Some(own), false))))
    || (v == View(L.RunBound, Some(L.Run(c, Some(own), false)))
        && w == View(L.ReadRecord(true), Some(L.Run(c, Some(own), true))))
    || (v.pc.Running? && v.run == None && w == View(L.PublishRefusal, None))
    || (!v.pc.Finished? && w == v.(pc := L.Finished(L.NoAnswer)))
  }

  lemma MovesSimulate(l: L.State, c: L.Caller, v: View, w: View, own: L.Binding)
    requires Launched(l, c, own) && Moves(v, w, c, own)
    ensures Simulates(l, c, v, w)
  {
    if v != w {
      var step := if w.pc.Finished? then L.Stop(c)
                  else if w.pc.PublishRefusal? then L.Refuse(c) else L.Advance(c, 0);
      var e, call := Embed(l, c, v), l.calls[c];
      assert e.calls[c := e.calls[c].(pc := w.pc)] == l.calls[c := call.(pc := w.pc)];
      if v.run.Some? && w.run.Some? {
        assert l.runs[call.native := v.run.value][call.native := w.run.value]
            == l.runs[call.native := w.run.value];
      }
      if v.run.None? && w.run.Some? {
        assert (l.runs - {call.native})[call.native := w.run.value]
            == l.runs[call.native := w.run.value];
      }
      assert Takes(l, c, v, w, step);
    }
  }

  // ---------------------------------------------------------------- steps of the process itself

  // A process that is not past mkdir has no directory; one that is has its own, at its stage.
  predicate Coherent(p: R.Proc, dir: Option<R.RunDir>) {
    && (dir.Some? ==> R.MayOwn(p.pc))
    && (R.OwnsRun(p.pc) ==>
          dir.Some? && R.StageOf(p.pc, R.ContractOf(p), p.call.run, dir.value))
  }

  lemma InvIsCoherent(s: R.State, a: R.Actor)
    requires R.Inv(s) && a in s.procs
    ensures Coherent(s.procs[a], OwnDir(s.procs[a], a, s.runs))
  {
    var p := s.procs[a];
    assert R.ProcInv(a, p, s.exclusive, s.contract, s.runs);
    assert p.call.run in s.runs ==> R.DirInv(p.call.run, s.runs[p.call.run], s.procs);
  }

  // Without touching its directory a process stays at its point of the launch, is refused or ends;
  // or, having written both records, returns.
  predicate Onward(before: R.Pc, after: R.Pc) {
    || PcOf(after) == PcOf(before)
    || (R.Live(before) && PcOf(after).Finished?)
    || (PcOf(before).Running? && PcOf(after).PublishRefusal?)
  }

  lemma OnwardMoves(p: R.Proc, dir: Option<R.RunDir>, after: R.Pc, c: L.Caller, own: L.Binding)
    requires Coherent(p, dir) && Onward(p.pc, after)
    ensures Moves(ViewAt(p.pc, dir, c, own), ViewAt(after, dir, c, own), c, own)
  {
  }

  // Of processes and directories only `a`'s counter moves.
  predicate KeepsDirs(s: R.State, t: R.State, a: R.Actor) {
    && a in s.procs && t.runs == s.runs && a in t.procs
    && t.procs[a].call == s.procs[a].call && Onward(s.procs[a].pc, t.procs[a].pc)
    && t.procs == s.procs[a := t.procs[a]]
  }

  lemma ReturnKeepsDirs(s: R.State, a: R.Actor, outcome: R.Outcome)
    requires a in s.procs && Onward(s.procs[a].pc, R.Returned(outcome))
    ensures KeepsDirs(s, R.Return(s, a, outcome), a)
  {
    assert R.Unlock(s, a).procs == s.procs && R.Unlock(s, a).runs == s.runs;
  }

  lemma AbortKeepsDirs(s: R.State, a: R.Actor, signal: bool)
    requires a in s.procs && R.Live(s.procs[a].pc)
    ensures KeepsDirs(s, R.Abort(s, a, signal), a)
  {
    var pc := s.procs[a].pc;
    if pc.Marking? || pc.WritingMarker? { ReturnKeepsDirs(s, a, R.Thrown(pc.signal)); }
    else if R.PastEnter(pc) || signal { ReturnKeepsDirs(s, a, R.Thrown(signal)); }
    else { ReturnKeepsDirs(s, a, R.Refused); }
  }

  lemma GotoKeepsDirs(s: R.State, s1: R.State, a: R.Actor, pc: R.Pc)
    requires a in s.procs && s1.procs == s.procs && s1.runs == s.runs && Onward(s.procs[a].pc, pc)
    ensures KeepsDirs(s, R.Goto(s1, a, pc), a)
  {
  }

  // A test that the process passes takes it to `pc`.
  lemma TestKeepsDirs(s: R.State, a: R.Actor, pass: bool, pc: R.Pc)
    requires a in s.procs && R.Live(s.procs[a].pc) && (pass ==> Onward(s.procs[a].pc, pc))
    ensures KeepsDirs(s, if pass then R.Goto(s, a, pc) else R.Abort(s, a, false), a)
  {
    if !pass { AbortKeepsDirs(s, a, false); }
  }

  lemma OpenKeepsDirs(s: R.State, a: R.Actor, inode: R.Inode)
    requires a in s.procs && s.procs[a].pc.Opening?
    ensures KeepsDirs(s, R.Admit(s, a, inode), a)
  {
  }

  lemma AdmitKeepsDirs(s: R.State, a: R.Actor, inode: R.Inode)
    requires a in s.procs && R.Live(s.procs[a].pc) && !R.HoldsLock(s.procs[a].pc)
    ensures KeepsDirs(s, R.Admit(s, a, inode), a)
  {
    var p := s.procs[a];
    match p.pc
    case Checking => TestKeepsDirs(s, a, p.call.blocked !in s.markers, R.Opening);
    case Opening => OpenKeepsDirs(s, a, inode);
    case Opened => TestKeepsDirs(s, a, R.SameInode(s, p), R.Contending);
    case Contending =>
      if R.Contended(s, p.fd) { AbortKeepsDirs(s, a, false); }
      else { GotoKeepsDirs(s, s.(exclusive := s.exclusive[p.fd := a]), a, R.Locked); }
  }

  lemma ExamineKeepsDirs(s: R.State, a: R.Actor, pick: R.RunId)
    requires a in s.procs && R.HoldsLock(s.procs[a].pc) && !R.PastEnter(s.procs[a].pc)
    ensures KeepsDirs(s, R.Examine(s, a, pick), a)
  {
    var p := s.procs[a];
    match p.pc
    case Locked => TestKeepsDirs(s, a, p.call.blocked !in s.markers, R.Rechecking);
    case Rechecking => TestKeepsDirs(s, a, R.SameInode(s, p), R.Listing);
    case Listing =>
      GotoKeepsDirs(s, s, a, R.CreatingContract);
      GotoKeepsDirs(s, s, a, R.ReadingContract);
    case CreatingContract =>
      if s.contract != R.NoContract { AbortKeepsDirs(s, a, false); }
      else { GotoKeepsDirs(s, s.(contract := R.TornContract), a, R.WritingContract); }
    case WritingContract =>
      GotoKeepsDirs(s, s.(contract := R.SavedContract(R.ContractOf(p))), a, R.ReadingContract);
    case ReadingContract =>
      TestKeepsDirs(s, a, s.contract == R.SavedContract(R.ContractOf(p)), R.Scanning(s.runs.Keys));
    case Scanning(todo) =>
      if todo == {} {
        GotoKeepsDirs(s, s, a, R.Entered);
      } else {
        TestKeepsDirs(s, a, pick in s.runs && R.Verifies(R.ContractOf(p), pick, s.runs[pick]),
                      R.Scanning(todo - {pick}));
      }
  }

  lemma ConcludeKeepsDirs(s: R.State, a: R.Actor)
    requires a in s.procs && R.PastEnter(s.procs[a].pc) && !R.WritesRun(s.procs[a].pc)
    ensures KeepsDirs(s, R.Conclude(s, a), a)
  {
    match s.procs[a].pc
    case Made => TestKeepsDirs(s, a, true, R.Started);
    case Monitoring => TestKeepsDirs(s, a, true, R.Sealing);
    case Sealing => TestKeepsDirs(s, a, R.SameInode(s, s.procs[a]), R.Certified);
    case Closing => ReturnKeepsDirs(s, a, R.Completed);
    case Marking(signal) => ReturnKeepsDirs(s, a, R.Thrown(signal));
    case WritingMarker(signal) => ReturnKeepsDirs(s, a, R.Thrown(signal));
  }

  // The process goes on with its directory as `dir`.
  predicate Writes(s: R.State, t: R.State, a: R.Actor, pc: R.Pc, dir: R.RunDir) {
    && a in s.procs && a in t.procs && t.procs[a] == s.procs[a].(pc := pc)
    && OwnDir(t.procs[a], a, t.runs) == Some(dir)
  }

  lemma WritesMoves(s: R.State, t: R.State, a: R.Actor, pc: R.Pc, dir: R.RunDir, c: L.Caller,
                    own: L.Binding)
    requires Writes(s, t, a, pc, dir) && Coherent(s.procs[a], OwnDir(s.procs[a], a, s.runs))
    requires R.StageOf(pc, R.ContractOf(s.procs[a]), s.procs[a].call.run, dir)
    requires match s.procs[a].pc
             case Entered => pc == R.Made
             case Started => pc == R.WritingPending
             case WritingPending => pc == R.Monitoring
             case Certified => pc == R.WritingCompletion
             case _ => s.procs[a].pc.WritingCompletion? && pc == R.Closing
    ensures Moves(ViewOf(s, a, c, own), ViewOf(t, a, c, own), c, own)
  {
  }

  lemma RecordMoves(s: R.State, a: R.Actor, c: L.Caller, own: L.Binding)
    requires a in s.procs && R.WritesRun(s.procs[a].pc)
    requires Coherent(s.procs[a], OwnDir(s.procs[a], a, s.runs))
    ensures Moves(ViewOf(s, a, c, own), ViewOf(R.Record(s, a), a, c, own), c, own)
  {
    var p, r, t := s.procs[a], s.procs[a].call.run, R.Record(s, a);
    match p.pc
    case Entered =>
      if r in s.runs {
        AbortKeepsDirs(s, a, false);
        OnwardMoves(p, None, t.procs[a].pc, c, own);
      } else {
        WritesMoves(s, t, a, R.Made, R.RunDir(a, R.NoPending, R.NoCompletion), c, own);
      }
    case Started =>
      WritesMoves(s, t, a, R.WritingPending, s.runs[r].(pending := R.TornPending), c, own);
    case WritingPending =>
      WritesMoves(s, t, a, R.Monitoring,
                  s.runs[r].(pending := R.SavedPending(r, R.ContractOf(p))), c, own);
    case Certified =>
      WritesMoves(s, t, a, R.WritingCompletion, s.runs[r].(completion := R.TornCompletion), c, own);
    case WritingCompletion =>
      WritesMoves(s, t, a, R.Closing, s.runs[r].(completion := R.SavedCompletion(r)), c, own);
  }

  lemma AdvanceMoves(s: R.State, a: R.Actor, inode: R.Inode, pick: R.RunId, c: L.Caller,
                     own: L.Binding)
    requires R.Enabled(s, R.Advance(a, inode, pick))
    requires Coherent(s.procs[a], OwnDir(s.procs[a], a, s.runs))
    ensures var t := R.Apply(s, R.Advance(a, inode, pick));
            a in t.procs && Moves(ViewOf(s, a, c, own), ViewOf(t, a, c, own), c, own)
  {
    var p, t := s.procs[a], R.Apply(s, R.Advance(a, inode, pick));
    if R.HoldsLock(p.pc) && R.WritesRun(p.pc) {
      RecordMoves(s, a, c, own);
    } else {
      if !R.HoldsLock(p.pc) { AdmitKeepsDirs(s, a, inode); }
      else if !R.PastEnter(p.pc) { ExamineKeepsDirs(s, a, pick); }
      else { ConcludeKeepsDirs(s, a); }
      assert KeepsDirs(s, t, a);
      OnwardMoves(p, OwnDir(p, a, s.runs), t.procs[a].pc, c, own);
    }
  }

  // ---------------------------------------------------------------- steps of the others

  // `a` is where it was, and so is its directory.
  predicate Spares(s: R.State, t: R.State, a: R.Actor) {
    && a in s.procs && a in t.procs && t.procs[a] == s.procs[a]
    && OwnDir(t.procs[a], a, t.runs) == OwnDir(s.procs[a], a, s.runs)
  }

  lemma WritingSpares(s: R.State, b: R.Actor, r: R.RunId, dir: R.RunDir, pc: R.Pc, a: R.Actor)
    requires a in s.procs && b in s.procs && a != b && dir.owner == b
    requires r in s.runs ==> s.runs[r].owner == b
    ensures Spares(s, R.Goto(R.SetRun(s, r, dir), b, pc), a)
  {
  }

  /** Whoever writes a run directory writes its own. */
  lemma OthersSpare(s: R.State, b: R.Actor, a: R.Actor)
    requires R.Inv(s) && a in s.procs && b in s.procs && a != b && R.WritesRun(s.procs[b].pc)
    ensures Spares(s, R.Record(s, b), a)
  {
    var p, r := s.procs[b], s.procs[b].call.run;
    assert R.ProcInv(b, p, s.exclusive, s.contract, s.runs);
    match p.pc
    case Entered =>
      if r in s.runs { AbortKeepsDirs(s, b, false); }
      else { WritingSpares(s, b, r, R.RunDir(b, R.NoPending, R.NoCompletion), R.Made, a); }
    case Started =>
      WritingSpares(s, b, r, s.runs[r].(pending := R.TornPending), R.WritingPending, a);
    case WritingPending =>
      WritingSpares(s, b, r, s.runs[r].(pending := R.SavedPending(r, R.ContractOf(p))),
                    R.Monitoring, a);
    case Certified =>
      WritingSpares(s, b, r, s.runs[r].(completion := R.TornCompletion), R.WritingCompletion, a);
    case WritingCompletion =>
      WritingSpares(s, b, r, s.runs[r].(completion := R.SavedCompletion(r)), R.Closing, a);
  }

  lemma OtherAdvances(s: R.State, b: R.Actor, inode: R.Inode, pick: R.RunId, a: R.Actor)
    requires R.Inv(s) && R.Enabled(s, R.Advance(b, inode, pick)) && a in s.procs && a != b
    ensures Spares(s, R.Apply(s, R.Advance(b, inode, pick)), a)
  {
    var pc := s.procs[b].pc;
    if !R.HoldsLock(pc) { AdmitKeepsDirs(s, b, inode); }
    else if !R.PastEnter(pc) { ExamineKeepsDirs(s, b, pick); }
    else if R.WritesRun(pc) { OthersSpare(s, b, a); }
    else { ConcludeKeepsDirs(s, b); }
  }

  /** A runner's step, whoever takes it, leaves every process's directory to that process. */
  lemma OthersKeep(s: R.State, step: R.Step, a: R.Actor)
    requires R.Inv(s) && R.Enabled(s, step) && a in s.procs
    requires !(step.Advance? && step.actor == a) && !(step.Fail? && step.actor == a)
    requires !(step.Kill? && step.actor == a)
    ensures Spares(s, R.Apply(s, step), a)
  {
    match step
    case Advance(b, inode, pick) => OtherAdvances(s, b, inode, pick, a);
    case Fail(b, signal) => AbortKeepsDirs(s, b, signal);
    case Look(o, pick) => R.LookFrame(s, o, pick);
    case Begin(_, _) =>
    case Kill(_) =>
    case ReplaceLock(_, _) =>
    case Observe(_, _, _) =>
    case StopLooking(_) =>
  }

  /**
    Every step of a runner run, by this process or any other, is for the launch a step that
    `LabJob` allows or no step at all.
   */
  lemma RunnerRefinesLaunch(s: R.State, step: R.Step, a: R.Actor, l: L.State, c: L.Caller,
                            own: L.Binding)
    requires R.Reachable(s) && R.Enabled(s, step) && a in s.procs && Launched(l, c, own)
    ensures var t := R.Apply(s, step);
            a in t.procs && Simulates(l, c, ViewOf(s, a, c, own), ViewOf(t, a, c, own))
  {
    R.ReachableInv(s);
    InvIsCoherent(s, a);
    var t := R.Apply(s, step);
    if step.Advance? && step.actor == a {
      AdvanceMoves(s, a, step.inode, step.pick, c, own);
    } else if step.Fail? && step.actor == a {
      AbortKeepsDirs(s, a, step.signal);
      OnwardMoves(s.procs[a], OwnDir(s.procs[a], a, s.runs), t.procs[a].pc, c, own);
    } else if step.Kill? && step.actor == a {
      OnwardMoves(s.procs[a], OwnDir(s.procs[a], a, s.runs), R.Killed, c, own);
    } else {
      OthersKeep(s, step, a);
    }
    MovesSimulate(l, c, ViewOf(s, a, c, own), ViewOf(t, a, c, own), own);
  }

  /** A process begins where the launch enters the runner, with no directory. */
  lemma BeginsAsRunning(s: R.State, a: R.Actor, call: R.Call, c: L.Caller, own: L.Binding)
    requires R.Reachable(s) && R.Enabled(s, R.Begin(a, call))
    ensures ViewOf(R.Apply(s, R.Begin(a, call)), a, c, own) == View(L.Running, None)
  {
    R.ReachableInv(s);
    assert call.run in s.runs ==> R.DirInv(call.run, s.runs[call.run], s.procs);
  }
}
