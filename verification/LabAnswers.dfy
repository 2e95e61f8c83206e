/**
  What the callers of `LabJob` are told, and that it stays so: records are append-only, every answer
  is true of them, and an undisturbed question has one answer.
 */
module LabAnswers {
  import opened Wrappers
  import opened Runs
  import opened LabJob

  // ---------------------------------------------------------------- records only grow

  // What is there stays.
  predicate Stays<T(==)>(a: Option<T>, b: Option<T>) { a.Some? ==> b == a }

  predicate EntryGrows(e: Evidence, f: Evidence) {
    && f.owner == e.owner && Stays(e.manifest, f.manifest) && Stays(e.prepared, f.prepared)
    && Stays(e.refusal, f.refusal) && Stays(e.summary, f.summary)
  }

  predicate AttemptGrows(a: Attempt, b: Attempt) { b.owner == a.owner && Stays(a.saved, b.saved) }

  predicate RunGrows(r: Run, q: Run) {
    q.owner == r.owner && Stays(r.pending, q.pending) && (r.verified ==> q.verified)
  }

  /** Every record of `s` is in `t`, with at least what it had. */
  ghost predicate Grows(s: State, t: State) {
    && (forall j :: j in s.evidence ==> j in t.evidence && EntryGrows(s.evidence[j], t.evidence[j]))
    && (forall i :: i in s.attempts ==> i in t.attempts && AttemptGrows(s.attempts[i], t.attempts[i]))
    && (forall r :: r in s.runs ==> r in t.runs && RunGrows(s.runs[r], t.runs[r]))
  }

  function Own(call: Call): Binding { Binding(call.job, call.native) }

  // Manifests, attempt entries and pending records speak of their owner's call.
  predicate EntrySigned(e: Evidence, calls: map<Caller, Call>) {
    e.manifest.Some? ==> e.owner in calls && e.manifest == Some(calls[e.owner].job)
  }

  predicate AttemptSigned(a: Attempt, calls: map<Caller, Call>) {
    && a.owner in calls
    && (a.saved.Some? ==> a.saved == Some(Own(calls[a.owner])) && calls[a.owner].native != 0)
  }

  predicate RunSigned(r: Run, calls: map<Caller, Call>) {
    && r.owner in calls && calls[r.owner].native != 0
    && (r.pending.Some? ==> r.pending == Some(Own(calls[r.owner])))
  }

  ghost predicate Signed(s: State) {
    && (forall j :: j in s.evidence ==> EntrySigned(s.evidence[j], s.calls))
    && (forall i :: i in s.attempts ==> AttemptSigned(s.attempts[i], s.calls))
    && (forall r :: r in s.runs ==> RunSigned(s.runs[r], s.calls))
  }

  // A call keeps its job, and its native id once it has one that anything is signed with.
  predicate SameCall(s: State, c: Caller, call: Call) {
    c in s.calls && call.job == s.calls[c].job
    && (call.native == s.calls[c].native || s.calls[c].native == 0)
  }

  // Signatures hold after a call has moved.
  lemma StaySigned(s: State, c: Caller, call: Call)
    requires Signed(s) && SameCall(s, c, call)
    ensures Signed(s.(calls := s.calls[c := call]))
  {
  }

  lemma MoveGrows(s: State, c: Caller, call: Call)
    requires Signed(s) && SameCall(s, c, call)
    ensures var t := s.(calls := s.calls[c := call]); Grows(s, t) && Signed(t)
  {
    StaySigned(s, c, call);
  }

  lemma EvidenceWritten(s: State, c: Caller, e: Evidence, call: Call)
    requires Signed(s) && SameCall(s, c, call)
    requires call.job.jobId in s.evidence ==> EntryGrows(s.evidence[call.job.jobId], e)
    requires EntrySigned(e, s.calls[c := call])
    ensures var t := s.(calls := s.calls[c := call], evidence := s.evidence[call.job.jobId := e]);
            Grows(s, t) && Signed(t)
  {
    StaySigned(s, c, call);
  }

  lemma AttemptWritten(s: State, c: Caller, a: Attempt, call: Call)
    requires Signed(s) && SameCall(s, c, call)
    requires call.job.attemptId in s.attempts ==> AttemptGrows(s.attempts[call.job.attemptId], a)
    requires AttemptSigned(a, s.calls[c := call])
    ensures var t := s.(calls := s.calls[c := call], attempts := s.attempts[call.job.attemptId := a]);
            Grows(s, t) && Signed(t)
  {
    StaySigned(s, c, call);
  }

  lemma RunWritten(s: State, c: Caller, run: Run, call: Call)
    requires Signed(s) && SameCall(s, c, call)
    requires call.native in s.runs ==> RunGrows(s.runs[call.native], run)
    requires RunSigned(run, s.calls[c := call])
    ensures var t := s.(calls := s.calls[c := call], runs := s.runs[call.native := run]);
            Grows(s, t) && Signed(t)
  {
    StaySigned(s, c, call);
  }

  lemma AdmitGrows(s: State, c: Caller, uuid: RunId)
    requires Inv(s) && Signed(s) && Enabled(s, Advance(c, uuid)) && AdmitPc(s.calls[c].pc)
    ensures var t := Admit(s, c, uuid); Grows(s, t) && Signed(t)
  {
    var call, t := s.calls[c], Admit(s, c, uuid);
    var j, i := call.job.jobId, call.job.attemptId;
    assert OneCallInv(c, call, s.evidence, s.attempts, s.runs, s.launches);
    if t.evidence != s.evidence { EvidenceWritten(s, c, t.evidence[j], t.calls[c]); }
    else if t.attempts != s.attempts { AttemptWritten(s, c, t.attempts[i], t.calls[c]); }
    else { MoveGrows(s, c, t.calls[c]); }
  }

  lemma LaunchGrows(s: State, c: Caller)
    requires Inv(s) && Signed(s) && c in s.calls && LaunchPc(s.calls[c].pc)
    ensures var t := Launch(s, c); Grows(s, t) && Signed(t)
  {
    var call := s.calls[c];
    assert OneCallInv(c, call, s.evidence, s.attempts, s.runs, s.launches);
    assert call.native in s.runs ==> RunInv(call.native, s.runs[call.native], s.calls);
    match call.pc
    case Launching => MoveGrows(s, c, call.(launched := true, pc := Running));
    case Running => RunWritten(s, c, Run(c, None, false), call.(pc := RunMade));
    case RunMade =>
      RunWritten(s, c, s.runs[call.native].(pending := Some(Own(call))), call.(pc := RunBound));
    case RunBound =>
      RunWritten(s, c, s.runs[call.native].(verified := true), call.(pc := ReadRecord(true)));
    case PublishRefusal =>
      EvidenceWritten(s, c, s.evidence[call.job.jobId].(refusal := Some(Own(call))),
                      call.(pc := ReadRecord(false)));
  }

  lemma SummaryGrows(s: State, c: Caller)
    requires Inv(s) && Signed(s) && c in s.calls && s.calls[c].pc.PublishSummary?
    ensures var t := Report(s, c); Grows(s, t) && Signed(t)
  {
    var call := s.calls[c];
    var j := call.job.jobId;
    assert OneCallInv(c, call, s.evidence, s.attempts, s.runs, s.launches);
    assert EvidenceInv(j, s.evidence[j], s.calls, s.runs);
    EvidenceWritten(s, c, s.evidence[j].(summary := Some(call.pc.prepared)),
                    call.(pc := Finished(Collected(call.pc.prepared))));
  }

  // Questions write nothing.
  lemma AskMoves(s: State, c: Caller)
    requires c in s.calls && !AdmitPc(s.calls[c].pc) && !LaunchPc(s.calls[c].pc)
    requires !s.calls[c].pc.Finished? && !s.calls[c].pc.PublishSummary?
    ensures var call := Report(s, c).calls[c];
            Report(s, c) == s.(calls := s.calls[c := call]) && SameCall(s, c, call)
  {
  }

  lemma ReportGrows(s: State, c: Caller)
    requires Inv(s) && Signed(s) && c in s.calls && !AdmitPc(s.calls[c].pc) && !LaunchPc(s.calls[c].pc)
    requires !s.calls[c].pc.Finished?
    ensures var t := Report(s, c); Grows(s, t) && Signed(t)
  {
    if s.calls[c].pc.PublishSummary? {
      SummaryGrows(s, c);
    } else {
      AskMoves(s, c);
      MoveGrows(s, c, Report(s, c).calls[c]);
    }
  }

  lemma BeginGrows(s: State, c: Caller, call: Call)
    requires Signed(s) && c !in s.calls
    ensures var t := s.(calls := s.calls[c := call]); Grows(s, t) && Signed(t)
  {
  }

  lemma StepGrows(s: State, step: Step)
    requires Inv(s) && Signed(s) && Enabled(s, step)
    ensures Grows(s, Apply(s, step)) && Signed(Apply(s, step))
  {
    match step
    case Begin(c, verb, job) => BeginGrows(s, c, Call(job, 0, false, Start(verb)));
    case Advance(c, uuid) =>
      if AdmitPc(s.calls[c].pc) { AdmitGrows(s, c, uuid); }
      else if LaunchPc(s.calls[c].pc) { LaunchGrows(s, c); }
      else { ReportGrows(s, c); }
    case Refuse(c) => MoveGrows(s, c, s.calls[c].(pc := PublishRefusal));
    case Stop(c) => MoveGrows(s, c, s.calls[c].(pc := Finished(NoAnswer)));
  }

  // ---------------------------------------------------------------- answers are true

  predicate Told(answer: Answer, job: Job, evidence: map<JobId, Evidence>, runs: map<RunId, Run>) {
    match answer
    case NoAnswer => true
    case RefusedBeforeLaunch(b) =>
      b.job == job && job.jobId in evidence && evidence[job.jobId].refusal == Some(b)
    case Collected(b) =>
      && b.job == job && job.jobId in evidence && evidence[job.jobId].summary == Some(b)
      && Bound(b, runs)
    case Collectable(b) => b.job == job && b.run in runs && runs[b.run].verified
    case UnknownOrRunning(b) =>
      b.job == job && job.jobId in evidence && evidence[job.jobId].prepared == Some(b)
  }

  // A launched call that reads the record without collecting has come from a refusal.
  predicate Sealed(call: Call, evidence: map<JobId, Evidence>) {
    call.launched && (call.pc == ReadRecord(false) || call.pc.ReadSummary?
                      || (call.pc.ReadRefusal? && !call.pc.collect)) ==>
      call.job.jobId in evidence && evidence[call.job.jobId].refusal == Some(Own(call))
  }

  predicate Reads(call: Call) {
    ReadBinding(call.pc).Some? ==> ReadBinding(call.pc).value.job == call.job
  }

  predicate CallTold(call: Call, evidence: map<JobId, Evidence>, runs: map<RunId, Run>) {
    && Reads(call) && Sealed(call, evidence)
    && (call.pc.Finished? ==> Told(call.pc.answer, call.job, evidence, runs))
  }

  ghost predicate AllTold(s: State) {
    forall c :: c in s.calls ==> CallTold(s.calls[c], s.evidence, s.runs)
  }

  ghost predicate Ledger(s: State) { Inv(s) && Signed(s) && AllTold(s) }

  lemma AllStayTold(s: State, t: State, c: Caller)
    requires Grows(s, t) && AllTold(s) && c in t.calls && CallTold(t.calls[c], t.evidence, t.runs)
    requires t.calls == s.calls[c := t.calls[c]]
    ensures AllTold(t)
  {
    forall d | d in t.calls ensures CallTold(t.calls[d], t.evidence, t.runs) {
      assert d != c ==> CallTold(s.calls[d], s.evidence, s.runs);
    }
  }

  lemma AdmitTold(s: State, c: Caller, uuid: RunId)
    requires c in s.calls && AdmitPc(s.calls[c].pc) && !s.calls[c].launched
    ensures var t := Admit(s, c, uuid);
            c in t.calls && t.calls == s.calls[c := t.calls[c]]
            && CallTold(t.calls[c], t.evidence, t.runs)
  {
  }

  lemma LaunchTold(s: State, c: Caller)
    requires c in s.calls && LaunchPc(s.calls[c].pc)
    requires OneCallInv(c, s.calls[c], s.evidence, s.attempts, s.runs, s.launches)
    ensures var t := Launch(s, c);
            c in t.calls && t.calls == s.calls[c := t.calls[c]]
            && CallTold(t.calls[c], t.evidence, t.runs)
  {
  }

  lemma ReportIsOwn(s: State, c: Caller)
    requires c in s.calls && !AdmitPc(s.calls[c].pc) && !LaunchPc(s.calls[c].pc)
    requires !s.calls[c].pc.Finished?
    ensures var t := Report(s, c); c in t.calls && t.calls == s.calls[c := t.calls[c]]
  {
  }

  lemma ReportTold(s: State, c: Caller)
    requires c in s.calls && !AdmitPc(s.calls[c].pc) && !LaunchPc(s.calls[c].pc)
    requires !s.calls[c].pc.Finished? && CallTold(s.calls[c], s.evidence, s.runs)
    requires OneCallInv(c, s.calls[c], s.evidence, s.attempts, s.runs, s.launches)
    requires var j := s.calls[c].job.jobId;
             j in s.evidence && s.evidence[j].refusal.Some? ==>
                s.evidence[j].refusal == s.evidence[j].prepared
    ensures var t := Report(s, c);
            c in t.calls && CallTold(t.calls[c], t.evidence, t.runs)
  {
    var j, pc := s.calls[c].job.jobId, s.calls[c].pc;
    if j in s.evidence {
      match pc
      case ReadRecord(_) =>
      case ReadRefusal(_, _) =>
      case ReadSummary(_) =>
      case VerifyRun(_) =>
      case PublishSummary(_) =>
    }
  }

  lemma CallerTold(s: State, c: Caller, uuid: RunId)
    requires Ledger(s) && Enabled(s, Advance(c, uuid))
    ensures var t := Apply(s, Advance(c, uuid));
            c in t.calls && t.calls == s.calls[c := t.calls[c]]
            && CallTold(t.calls[c], t.evidence, t.runs)
  {
    var call := s.calls[c];
    assert OneCallInv(c, call, s.evidence, s.attempts, s.runs, s.launches);
    assert CallTold(call, s.evidence, s.runs);
    if AdmitPc(call.pc) {
      AdmitTold(s, c, uuid);
    } else if LaunchPc(call.pc) {
      LaunchTold(s, c);
    } else {
      var j := call.job.jobId;
      assert j in s.evidence ==> EvidenceInv(j, s.evidence[j], s.calls, s.runs);
      ReportIsOwn(s, c);
      ReportTold(s, c);
    }
  }

  lemma LedgerStep(s: State, step: Step)
    requires Ledger(s) && Enabled(s, step)
    ensures Ledger(Apply(s, step))
  {
    StepKeeps(s, step);
    StepGrows(s, step);
    if step.Advance? { CallerTold(s, step.caller, step.uuid); }
    AllStayTold(s, Apply(s, step), step.caller);
  }

  lemma ReachableLedger(t: State)
    requires Reachable(t)
    ensures Signed(t) && AllTold(t)
  {
    var s :| Init(s) && Leads(Next, s, t);
    var steps :| Exec(Next, s, steps) == Some(t);
    forall u, step | Ledger(u) && Next(u, step).Some? ensures Ledger(Next(u, step).value) {
      LedgerStep(u, step);
    }
    ExecKeeps(Next, Ledger, s, steps);
  }

  lemma GrowsOn(s: State, t: State, u: State)
    requires Grows(s, t) && Grows(t, u)
    ensures Grows(s, u)
  {
  }

  /** No record of a job, an attempt or a run is ever removed, replaced or taken back. */
  lemma RecordsAreAppendOnly(t: State, more: seq<Step>)
    requires Reachable(t) && Exec(Next, t, more).Some?
    ensures Grows(t, Exec(Next, t, more).value)
  {
    var keeps := (u: State) => Ledger(u) && Grows(t, u);
    ReachableInv(t);
    ReachableLedger(t);
    forall u, step | keeps(u) && Next(u, step).Some? ensures keeps(Next(u, step).value) {
      StepGrows(u, step);
      GrowsOn(t, u, Apply(u, step));
      LedgerStep(u, step);
    }
    ExecKeeps(Next, keeps, t, more);
  }

  /**
    What a call returned is true, and stays so: a refusal is sealed and its run was never made, a
    collected run is summarised, verified and bound to the job, a collectable one verified.
   */
  lemma AnswersAreTrue(t: State, c: Caller)
    requires Reachable(t) && c in t.calls && t.calls[c].pc.Finished?
    ensures var answer, job := t.calls[c].pc.answer, t.calls[c].job;
            && Told(answer, job, t.evidence, t.runs)
            && (answer.RefusedBeforeLaunch? ==> answer.binding.run !in t.runs)
  {
    ReachableInv(t);
    ReachableLedger(t);
    assert CallTold(t.calls[c], t.evidence, t.runs);
    var j := t.calls[c].job.jobId;
    assert j in t.evidence ==> EvidenceInv(j, t.evidence[j], t.calls, t.runs);
  }

  /** A launched call that did not collect and was not cut off has its refusal on file. */
  lemma RefusalIsSealed(t: State, c: Caller)
    requires Reachable(t) && c in t.calls && t.calls[c].launched
    requires t.calls[c].pc == ReadRecord(false)
             || (t.calls[c].pc.Finished? && t.calls[c].pc.answer.RefusedBeforeLaunch?)
    ensures t.calls[c].job.jobId in t.evidence
    ensures t.evidence[t.calls[c].job.jobId].refusal == Some(Own(t.calls[c]))
  {
    ReachableInv(t);
    ReachableLedger(t);
    var j := t.calls[c].job.jobId;
    assert CallTold(t.calls[c], t.evidence, t.runs);
    assert OneCallInv(c, t.calls[c], t.evidence, t.attempts, t.runs, t.launches);
    assert EvidenceInv(j, t.evidence[j], t.calls, t.runs);
  }

  // ---------------------------------------------------------------- one question alone

  ghost function Solo(c: Caller): (State, Step) -> Option<State> {
    (s: State, step: Step) => if step.Advance? && step.caller == c then Next(s, step) else None
  }

  /** The one answer of `status`, or of `collect`, to the records as they are. */
  function Verdict(s: State, job: Job, collect: bool): Answer {
    var j := job.jobId;
    if !(j in s.evidence && s.evidence[j].prepared.Some?
         && RecordAgrees(s, job, s.evidence[j].prepared.value))
    then NoAnswer
    else
      var b := s.evidence[j].prepared.value;
      if s.evidence[j].refusal.Some? then RefusedBeforeLaunch(b)
      else if collect || s.evidence[j].summary.Some? then
        if Bound(b, s.runs) then Collected(b) else NoAnswer
      else if b.run in s.runs && s.runs[b.run].verified then Collectable(b)
      else UnknownOrRunning(b)
  }

  // What a question may write: the summary, once the run is verified.
  function Summed(s: State, job: Job, answer: Answer): map<JobId, Evidence> {
    if answer.Collected? && job.jobId in s.evidence
    then s.evidence[job.jobId := s.evidence[job.jobId].(summary := Some(answer.binding))]
    else s.evidence
  }

  // Where a question on its way from `s` can be.
  ghost predicate OnTheWay(s: State, t: State, c: Caller, job: Job, collect: bool) {
    && c in t.calls && t.calls[c].job == job
    && t.attempts == s.attempts && t.runs == s.runs && t.launches == s.launches
    && (t.calls[c].pc.Finished? ==>
          t.calls[c].pc.answer == Verdict(s, job, collect)
          && t.evidence == Summed(s, job, t.calls[c].pc.answer))
    && (!t.calls[c].pc.Finished? ==> t.evidence == s.evidence && Asks(s, t.calls[c].pc, job, collect))
  }

  ghost predicate Asks(s: State, pc: Pc, job: Job, collect: bool) {
    var j := job.jobId;
    && (pc.ReadRecord? ==>
          pc.collect == collect || (pc.collect && j in s.evidence && s.evidence[j].summary.Some?))
    && (!pc.ReadRecord? ==>
          && ReadBinding(pc).Some? && j in s.evidence && s.evidence[j].prepared == ReadBinding(pc)
          && RecordAgrees(s, job, ReadBinding(pc).value))
    && (pc.ReadRefusal? ==>
          pc.collect == collect || (pc.collect && s.evidence[j].summary.Some?))
    && (pc.ReadSummary? ==> !collect)
    && (pc.ReadSummary? || pc.VerifyRun? || pc.PublishSummary? ==> s.evidence[j].refusal.None?)
    && (pc.VerifyRun? || pc.PublishSummary? ==> collect || s.evidence[j].summary.Some?)
    && (pc.PublishSummary? ==> Bound(pc.prepared, s.runs))
    && (AdmitPc(pc) || LaunchPc(pc) ==> false)
  }

  lemma ReadsRecord(s: State, t: State, c: Caller, job: Job, collect: bool)
    requires OnTheWay(s, t, c, job, collect) && t.calls[c].pc.ReadRecord?
    ensures OnTheWay(s, Report(t, c), c, job, collect)
  {
  }

  lemma ReadsRefusal(s: State, t: State, c: Caller, job: Job, collect: bool)
    requires OnTheWay(s, t, c, job, collect) && t.calls[c].pc.ReadRefusal?
    ensures OnTheWay(s, Report(t, c), c, job, collect)
  {
  }

  lemma ReadsSummary(s: State, t: State, c: Caller, job: Job, collect: bool)
    requires OnTheWay(s, t, c, job, collect) && t.calls[c].pc.ReadSummary?
    ensures OnTheWay(s, Report(t, c), c, job, collect)
  {
  }

  lemma SumsUp(s: State, t: State, c: Caller, job: Job, collect: bool)
    requires OnTheWay(s, t, c, job, collect)
    requires t.calls[c].pc.VerifyRun? || t.calls[c].pc.PublishSummary?
    ensures OnTheWay(s, Report(t, c), c, job, collect)
  {
  }

  lemma GoesOn(s: State, t: State, c: Caller, job: Job, collect: bool, uuid: RunId)
    requires OnTheWay(s, t, c, job, collect) && Enabled(t, Advance(c, uuid))
    ensures OnTheWay(s, Apply(t, Advance(c, uuid)), c, job, collect)
  {
    var pc := t.calls[c].pc;
    if pc.ReadRecord? { ReadsRecord(s, t, c, job, collect); }
    else if pc.ReadRefusal? { ReadsRefusal(s, t, c, job, collect); }
    else if pc.ReadSummary? { ReadsSummary(s, t, c, job, collect); }
    else { SumsUp(s, t, c, job, collect); }
  }

  lemma Begins(s: State, c: Caller, job: Job, collect: bool)
    requires c !in s.calls
    ensures var step := Begin(c, if collect then Collecting else Asking, job);
            Enabled(s, step) && OnTheWay(s, Apply(s, step), c, job, collect)
  {
  }

  /**
    A question that nobody disturbs has one answer, which the records determine, and changes no
    record; but a verified run that it collects is summarised.
   */
  lemma QuestionHasOneAnswer(s: State, c: Caller, job: Job, collect: bool, more: seq<Step>)
    requires c !in s.calls
    requires var begin := Begin(c, if collect then Collecting else Asking, job);
             Exec(Solo(c), Apply(s, begin), more).Some?
    ensures var begin := Begin(c, if collect then Collecting else Asking, job);
            var t := Exec(Solo(c), Apply(s, begin), more).value;
            && c in t.calls && t.attempts == s.attempts && t.runs == s.runs
            && (t.calls[c].pc.Finished? ==>
                  t.calls[c].pc.answer == Verdict(s, job, collect)
                  && t.evidence == Summed(s, job, Verdict(s, job, collect)))
  {
    var begin := Begin(c, if collect then Collecting else Asking, job);
    var keeps := (t: State) => OnTheWay(s, t, c, job, collect);
    Begins(s, c, job, collect);
    forall t, step | keeps(t) && Solo(c)(t, step).Some? ensures keeps(Solo(c)(t, step).value) {
      GoesOn(s, t, c, job, collect, step.uuid);
    }
    ExecKeeps(Solo(c), keeps, Apply(s, begin), more);
  }
}
