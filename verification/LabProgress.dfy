/**
  The other half of at-most-once: a job whose ids are new is launched, and its run collected, when
  nobody disturbs the caller.
 */
module LabProgress {
  import opened Wrappers
  import opened Runs
  import opened LabJob

  // ---------------------------------------------------------------- the undisturbed course

  /** The point from which `left` actions remain. */
  function PcAt(own: Binding, left: nat): Pc {
    match left
    case 0 => Finished(Collected(own))
    case 1 => PublishSummary(own)
    case 2 => VerifyRun(own)
    case 3 => ReadRefusal(true, own)
    case 4 => ReadRecord(true)
    case 5 => RunBound
    case 6 => RunMade
    case 7 => Running
    case 8 => Launching
    case 9 => Staging
    case 10 => PublishPrepared
    case 11 => WriteAttempt
    case 12 => CreateAttempt
    case 13 => PublishManifest
    case 14 => MakingEvidence
    case 15 => Preparing
    case _ => Looking
  }

  function CallAt(own: Binding, left: nat): Call {
    Call(own.job, if left <= 14 then own.run else 0, left <= 7, PcAt(own, left))
  }

  function EvidenceAt(c: Caller, own: Binding, left: nat): Evidence {
    Evidence(c, if left <= 12 then Some(own.job) else None, if left <= 9 then Some(own) else None,
             None, if left == 0 then Some(own) else None)
  }

  function AttemptAt(c: Caller, own: Binding, left: nat): Attempt {
    Attempt(c, if left <= 10 then Some(own) else None)
  }

  function RunAt(c: Caller, own: Binding, left: nat): Run {
    Run(c, if left <= 5 then Some(own) else None, left <= 4)
  }

  /** What `s` has become when nobody but the caller acted and `left` actions remain. */
  function StateAt(s: State, c: Caller, own: Binding, left: nat): State {
    var j, i := own.job.jobId, own.job.attemptId;
    State(if left <= 13 then s.evidence[j := EvidenceAt(c, own, left)] else s.evidence,
          if left <= 11 then s.attempts[i := AttemptAt(c, own, left)] else s.attempts,
          if left <= 6 then s.runs[own.run := RunAt(c, own, left)] else s.runs,
          s.calls[c := CallAt(own, left)],
          if left <= 7 then s.launches + [c] else s.launches)
  }

  /** The ids are new. */
  ghost predicate New(s: State, c: Caller, own: Binding) {
    && c !in s.calls && own.job.jobId !in s.evidence && own.job.attemptId !in s.attempts
    && own.run != 0 && Fresh(s, own.run)
  }

  lemma PrepareTick(s: State, c: Caller, own: Binding, left: nat)
    requires New(s, c, own) && 13 <= left <= 16
    ensures Admit(StateAt(s, c, own, left), c, own.run) == StateAt(s, c, own, left - 1)
  {
    var t, u := StateAt(s, c, own, left), StateAt(s, c, own, left - 1);
    assert Admit(t, c, own.run).calls == u.calls && Admit(t, c, own.run).evidence == u.evidence;
  }

  lemma IndexTick(s: State, c: Caller, own: Binding, left: nat)
    requires New(s, c, own) && 11 <= left <= 12
    ensures Admit(StateAt(s, c, own, left), c, own.run) == StateAt(s, c, own, left - 1)
  {
    var t, u := StateAt(s, c, own, left), StateAt(s, c, own, left - 1);
    assert Admit(t, c, own.run).calls == u.calls && Admit(t, c, own.run).attempts == u.attempts;
    assert Admit(t, c, own.run).evidence == u.evidence;
  }

  lemma BindTick(s: State, c: Caller, own: Binding, left: nat)
    requires New(s, c, own) && 9 <= left <= 10
    ensures Admit(StateAt(s, c, own, left), c, own.run) == StateAt(s, c, own, left - 1)
  {
    var t, u := StateAt(s, c, own, left), StateAt(s, c, own, left - 1);
    assert Admit(t, c, own.run).calls == u.calls && Admit(t, c, own.run).evidence == u.evidence;
  }

  lemma EnterTick(s: State, c: Caller, own: Binding, left: nat)
    requires New(s, c, own) && 7 <= left <= 8
    ensures Launch(StateAt(s, c, own, left), c) == StateAt(s, c, own, left - 1)
  {
    var t, u := StateAt(s, c, own, left), StateAt(s, c, own, left - 1);
    assert Launch(t, c).calls == u.calls && Launch(t, c).runs == u.runs;
  }

  lemma RunTick(s: State, c: Caller, own: Binding, left: nat)
    requires New(s, c, own) && 5 <= left <= 6
    ensures Launch(StateAt(s, c, own, left), c) == StateAt(s, c, own, left - 1)
  {
    var t, u := StateAt(s, c, own, left), StateAt(s, c, own, left - 1);
    assert Launch(t, c).calls == u.calls && Launch(t, c).runs == u.runs;
  }

  lemma ReadTick(s: State, c: Caller, own: Binding, left: nat)
    requires New(s, c, own) && 3 <= left <= 4
    ensures Report(StateAt(s, c, own, left), c) == StateAt(s, c, own, left - 1)
  {
    var t, u := StateAt(s, c, own, left), StateAt(s, c, own, left - 1);
    assert Report(t, c).calls == u.calls;
  }

  lemma SumUpTick(s: State, c: Caller, own: Binding, left: nat)
    requires New(s, c, own) && 1 <= left <= 2
    ensures Report(StateAt(s, c, own, left), c) == StateAt(s, c, own, left - 1)
  {
    var t, u := StateAt(s, c, own, left), StateAt(s, c, own, left - 1);
    assert Report(t, c).calls == u.calls && Report(t, c).evidence == u.evidence;
  }

  lemma Tick(s: State, c: Caller, own: Binding, left: nat)
    requires New(s, c, own) && 1 <= left <= 16
    ensures var t, step := StateAt(s, c, own, left), Advance(c, own.run);
            Enabled(t, step) && Apply(t, step) == StateAt(s, c, own, left - 1)
  {
    if left >= 13 { PrepareTick(s, c, own, left); }
    else if left >= 11 { IndexTick(s, c, own, left); }
    else if left >= 9 { BindTick(s, c, own, left); }
    else if left >= 7 { EnterTick(s, c, own, left); }
    else if left >= 5 { RunTick(s, c, own, left); }
    else if left >= 3 { ReadTick(s, c, own, left); }
    else { SumUpTick(s, c, own, left); }
  }

  /** It comes from any point to any later one. */
  lemma {:induction false} Comes(s: State, c: Caller, own: Binding, left: nat, stop: nat)
    requires New(s, c, own) && stop <= left <= 16 && Leads(Next, s, StateAt(s, c, own, left))
    ensures Leads(Next, s, StateAt(s, c, own, stop))
  {
    if left > stop {
      Tick(s, c, own, left);
      LeadsOn(Next, s, StateAt(s, c, own, left), Advance(c, own.run));
      Comes(s, c, own, left - 1, stop);
    }
  }

  lemma ComesTo(s: State, c: Caller, own: Binding, stop: nat)
    requires New(s, c, own) && stop <= 16
    ensures Leads(Next, s, StateAt(s, c, own, stop))
  {
    LeadsNowhere(Next, s);
    LeadsOn(Next, s, s, Begin(c, Admitting, own.job));
    assert Apply(s, Begin(c, Admitting, own.job)) == StateAt(s, c, own, 16);
    Comes(s, c, own, 16, stop);
  }

  /** A handoff with a new job id and a new attempt id is launched once, and its run summarised. */
  lemma UndisturbedJobIsCollected(s: State, c: Caller, job: Job, native: RunId) returns (t: State)
    requires c !in s.calls && job.jobId !in s.evidence && job.attemptId !in s.attempts
    requires native != 0 && Fresh(s, native)
    ensures Leads(Next, s, t) && t.launches == s.launches + [c]
    ensures job.jobId in t.evidence && t.evidence[job.jobId].summary == Some(Binding(job, native))
    ensures Bound(Binding(job, native), t.runs)
  {
    var own := Binding(job, native);
    ComesTo(s, c, own, 0);
    t := StateAt(s, c, own, 0);
  }

  // ---------------------------------------------------------------- refused by the runner

  function RefusedPc(own: Binding, left: nat): Pc {
    match left
    case 0 => Finished(RefusedBeforeLaunch(own))
    case 1 => ReadRefusal(false, own)
    case 2 => ReadRecord(false)
    case _ => PublishRefusal
  }

  /** What `s` has become when the runner has refused and `left` actions remain. */
  function RefusedAt(s: State, c: Caller, own: Binding, left: nat): State {
    var e := EvidenceAt(c, own, 7).(refusal := if left <= 2 then Some(own) else None);
    State(s.evidence[own.job.jobId := e], s.attempts[own.job.attemptId := AttemptAt(c, own, 7)],
          s.runs, s.calls[c := Call(own.job, own.run, true, RefusedPc(own, left))],
          s.launches + [c])
  }

  lemma RefusedTick(s: State, c: Caller, own: Binding, left: nat)
    requires New(s, c, own) && 1 <= left <= 3
    ensures var t, step := RefusedAt(s, c, own, left), Advance(c, own.run);
            Enabled(t, step) && Apply(t, step) == RefusedAt(s, c, own, left - 1)
  {
    var t, u := RefusedAt(s, c, own, left), RefusedAt(s, c, own, left - 1);
    assert Apply(t, Advance(c, own.run)).calls == u.calls;
    assert Apply(t, Advance(c, own.run)).evidence == u.evidence;
  }

  lemma Refusing(s: State, c: Caller, own: Binding)
    requires New(s, c, own)
    ensures Leads(Next, s, RefusedAt(s, c, own, 3))
  {
    ComesTo(s, c, own, 7);
    LeadsOn(Next, s, StateAt(s, c, own, 7), Refuse(c));
    assert Apply(StateAt(s, c, own, 7), Refuse(c)).calls == RefusedAt(s, c, own, 3).calls;
  }

  lemma {:induction false} Refused(s: State, c: Caller, own: Binding, left: nat)
    requires New(s, c, own) && left <= 3
    ensures Leads(Next, s, RefusedAt(s, c, own, 3 - left))
  {
    if left == 0 {
      Refusing(s, c, own);
    } else {
      Refused(s, c, own, left - 1);
      RefusedTick(s, c, own, 4 - left);
      LeadsOn(Next, s, RefusedAt(s, c, own, 4 - left), Advance(c, own.run));
    }
  }

  /**
    A handoff with new ids whose launch the runner refuses, otherwise undisturbed: the refusal is
    sealed, nothing is summarised, no run is made, and the caller is told so.
   */
  lemma RefusedJobIsSealed(s: State, c: Caller, job: Job, native: RunId) returns (t: State)
    requires c !in s.calls && job.jobId !in s.evidence && job.attemptId !in s.attempts
    requires native != 0 && Fresh(s, native)
    ensures Leads(Next, s, t) && t.launches == s.launches + [c] && t.runs == s.runs
    ensures job.jobId in t.evidence && t.evidence[job.jobId].refusal == Some(Binding(job, native))
    ensures t.evidence[job.jobId].summary == None && native !in t.runs
    ensures c in t.calls && t.calls[c].pc == Finished(RefusedBeforeLaunch(Binding(job, native)))
  {
    Refused(s, c, Binding(job, native), 3);
    t := RefusedAt(s, c, Binding(job, native), 0);
  }
}
