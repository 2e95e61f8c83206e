/** Admission, status and collection of lab jobs (`lab_job.py`). */
module LabJob {
  // Any number of callers interleave, each of which may fail or be killed between any two file-
  // system actions.
  //
  // The host runner appears through what a caller can see of it: `run_controlled` either refuses
  // before its attempt boundary, and has then made no run directory (`RunnerControl` proves that),
  // or it makes the directory, records the job binding in pending.json and ends later.

  import opened Wrappers
  import opened Runs

  type Root = nat

  // Ids are unique within one evidence root: a handoff that names another root is another job.
  datatype JobId = JobId(root: Root, id: nat)
  datatype AttemptId = AttemptId(root: Root, id: nat)

  type RunId = nat
  type Caller = nat

  // `root` is the evidence root the handoff names and `manifest` stands for everything else in it;
  // two handoffs may reuse an id.
  datatype Job = Job(root: Root, job: nat, attempt: nat, manifest: nat) {
    const jobId: JobId := JobId(root, job)
    const attemptId: AttemptId := AttemptId(root, attempt)
  }

  datatype Binding = Binding(job: Job, run: RunId)

  // `owner` is the caller whose exclusive create made the directory or file.
  datatype Evidence = Evidence(
    owner: Caller, manifest: Option<Job>, prepared: Option<Binding>,
    refusal: Option<Binding>, summary: Option<Binding>)
  // The attempt index entry is created before its content is written.
  datatype Attempt = Attempt(owner: Caller, saved: Option<Binding>)
  datatype Run = Run(owner: Caller, pending: Option<Binding>, verified: bool)

  datatype Verb = Admitting | Asking | Collecting

  // What a call returns; none when it raises, or is stopped or killed.
  datatype Answer =
    | NoAnswer
    | RefusedBeforeLaunch(binding: Binding)
    | Collected(binding: Binding)
    | Collectable(binding: Binding)
    | UnknownOrRunning(binding: Binding)

  datatype Pc =
    | Looking            // admit: does the evidence directory exist?
    | Preparing          // admit: host, source and declaration checks; choose a native id
    | MakingEvidence     // admit: exclusive mkdir of the evidence directory
    | PublishManifest
    | CreateAttempt      // exclusive create of the attempt index entry
    | WriteAttempt
    | PublishPrepared
    | Staging            // inputs, scratch, worktree and policy
    | Launching          // run_controlled is called next
    | Running            // inside run_controlled, no run directory made
    | RunMade            // run directory made, pending.json not yet complete
    | RunBound           // pending.json holds the binding
    | PublishRefusal     // run_controlled refused before its attempt boundary
    | ReadRecord(collect: bool)
    | ReadRefusal(collect: bool, prepared: Binding)
    | ReadSummary(prepared: Binding)
    | VerifyRun(prepared: Binding)
    | PublishSummary(prepared: Binding)
    | Finished(answer: Answer)

  datatype Call = Call(job: Job, native: RunId, launched: bool, pc: Pc)

  datatype State = State(
    evidence: map<JobId, Evidence>,
    attempts: map<AttemptId, Attempt>,
    runs: map<RunId, Run>,
    calls: map<Caller, Call>,
    launches: seq<Caller>)   // every entry into run_controlled, in order

  ghost predicate Init(s: State) {
    s.evidence == map[] && s.attempts == map[] && s.runs == map[] && s.calls == map[]
    && s.launches == []
  }

  datatype Step =
    | Begin(caller: Caller, verb: Verb, job: Job)
    | Advance(caller: Caller, uuid: RunId)   // `uuid`: what uuid4 would return
    | Refuse(caller: Caller)                  // run_controlled raises RunnerPreflightRefused
    | Stop(caller: Caller)                    // an exception, or a kill

  // uuid4 returns an id no caller drew before and no run directory has.
  ghost predicate Fresh(s: State, id: RunId) {
    id !in s.runs && forall c :: c in s.calls ==> s.calls[c].native != id
  }

  ghost predicate Enabled(s: State, step: Step) {
    match step
    case Begin(c, _, _) => c !in s.calls
    case Advance(c, uuid) =>
      && c in s.calls && !s.calls[c].pc.Finished?
      && (s.calls[c].pc.Preparing? ==> uuid != 0 && Fresh(s, uuid))
    case Refuse(c) => c in s.calls && s.calls[c].pc.Running?
    case Stop(c) => c in s.calls && !s.calls[c].pc.Finished?
  }

  function Goto(s: State, c: Caller, pc: Pc): State
    requires c in s.calls
  {
    s.(calls := s.calls[c := s.calls[c].(pc := pc)])
  }

  function SetEvidence(s: State, j: JobId, e: Evidence): State { s.(evidence := s.evidence[j := e]) }

  function SetAttempt(s: State, i: AttemptId, a: Attempt): State { s.(attempts := s.attempts[i := a]) }

  function SetRun(s: State, r: RunId, run: Run): State { s.(runs := s.runs[r := run]) }

  predicate AdmitPc(pc: Pc) {
    pc.Looking? || pc.Preparing? || pc.MakingEvidence? || pc.PublishManifest? || pc.CreateAttempt?
    || pc.WriteAttempt? || pc.PublishPrepared? || pc.Staging?
  }

  /** The next action of `admit` up to the launch. */
  function Admit(s: State, c: Caller, uuid: RunId): State
    requires c in s.calls && AdmitPc(s.calls[c].pc)
  {
    var call := s.calls[c];
    var j, i := call.job.jobId, call.job.attemptId;
    var own := Binding(call.job, call.native);
    match call.pc
    case Looking =>
      if j in s.evidence then Goto(s, c, ReadRecord(false)) else Goto(s, c, Preparing)
    case Preparing =>
      s.(calls := s.calls[c := call.(native := uuid, pc := MakingEvidence)])
    case MakingEvidence =>
      if j in s.evidence then Goto(s, c, ReadRecord(false))
      else Goto(SetEvidence(s, j, Evidence(c, None, None, None, None)), c, PublishManifest)
    case PublishManifest =>
      if j in s.evidence
      then Goto(SetEvidence(s, j, s.evidence[j].(manifest := Some(call.job))), c, CreateAttempt)
      else Goto(s, c, Finished(NoAnswer))
    case CreateAttempt =>
      if i in s.attempts then Goto(s, c, Finished(NoAnswer))
      else Goto(SetAttempt(s, i, Attempt(c, None)), c, WriteAttempt)
    case WriteAttempt =>
      if i in s.attempts
      then Goto(SetAttempt(s, i, s.attempts[i].(saved := Some(own))), c, PublishPrepared)
      else Goto(s, c, Finished(NoAnswer))
    case PublishPrepared =>
      if j in s.evidence
      then Goto(SetEvidence(s, j, s.evidence[j].(prepared := Some(own))), c, Staging)
      else Goto(s, c, Finished(NoAnswer))
    case Staging => Goto(s, c, Launching)
  }

  predicate LaunchPc(pc: Pc) {
    pc.Launching? || pc.Running? || pc.RunMade? || pc.RunBound? || pc.PublishRefusal?
  }

  /** The next action of `admit` from the launch on. */
  function Launch(s: State, c: Caller): State
    requires c in s.calls && LaunchPc(s.calls[c].pc)
  {
    var call := s.calls[c];
    var j, r := call.job.jobId, call.native;
    var own := Binding(call.job, r);
    match call.pc
    case Launching =>
      s.(calls := s.calls[c := call.(launched := true, pc := Running)],
         launches := s.launches + [c])
    case Running =>
      // The runner's mkdir fails on an existing directory without refusing.
      if r in s.runs then Goto(s, c, Finished(NoAnswer))
      else Goto(SetRun(s, r, Run(c, None, false)), c, RunMade)
    case RunMade =>
      if r in s.runs
      then Goto(SetRun(s, r, s.runs[r].(pending := Some(own))), c, RunBound)
      else Goto(s, c, Finished(NoAnswer))
    case RunBound =>
      if r in s.runs
      then Goto(SetRun(s, r, s.runs[r].(verified := true)), c, ReadRecord(true))
      else Goto(s, c, Finished(NoAnswer))
    case PublishRefusal =>
      if j in s.evidence
      then Goto(SetEvidence(s, j, s.evidence[j].(refusal := Some(own))), c, ReadRecord(false))
      else Goto(s, c, Finished(NoAnswer))
  }

  /** `_record`: manifest, prepared and attempt entry must all name this handoff. */
  predicate RecordAgrees(s: State, job: Job, prepared: Binding) {
    && job.jobId in s.evidence && job.attemptId in s.attempts
    && s.evidence[job.jobId].manifest == Some(job)
    && s.evidence[job.jobId].prepared == Some(prepared) && prepared.job == job
    && s.attempts[job.attemptId].saved == Some(prepared)
  }

  /** The next action of `status` or `collect`. */
  function Report(s: State, c: Caller): State
    requires c in s.calls && !AdmitPc(s.calls[c].pc) && !LaunchPc(s.calls[c].pc)
    requires !s.calls[c].pc.Finished?
  {
    var call := s.calls[c];
    var j := call.job.jobId;
    match call.pc
    case ReadRecord(collect) =>
      if j in s.evidence && s.evidence[j].prepared.Some?
         && RecordAgrees(s, call.job, s.evidence[j].prepared.value)
      then Goto(s, c, ReadRefusal(collect, s.evidence[j].prepared.value))
      else Goto(s, c, Finished(NoAnswer))
    case ReadRefusal(collect, prepared) =>
      if j !in s.evidence then Goto(s, c, Finished(NoAnswer))
      else if s.evidence[j].refusal.Some? then Goto(s, c, Finished(RefusedBeforeLaunch(prepared)))
      else if collect then Goto(s, c, VerifyRun(prepared))
      else Goto(s, c, ReadSummary(prepared))
    case ReadSummary(prepared) =>
      if j in s.evidence && s.evidence[j].summary.Some? then Goto(s, c, ReadRecord(true))
      else if prepared.run in s.runs && s.runs[prepared.run].verified
      then Goto(s, c, Finished(Collectable(prepared)))
      else Goto(s, c, Finished(UnknownOrRunning(prepared)))
    case VerifyRun(prepared) =>
      if prepared.run in s.runs && s.runs[prepared.run].verified
         && s.runs[prepared.run].pending == Some(prepared)
      then Goto(s, c, PublishSummary(prepared))
      else Goto(s, c, Finished(NoAnswer))
    case PublishSummary(prepared) =>
      if j in s.evidence
      then Goto(SetEvidence(s, j, s.evidence[j].(summary := Some(prepared))), c,
                Finished(Collected(prepared)))
      else Goto(s, c, Finished(NoAnswer))
  }

  function Start(verb: Verb): Pc {
    match verb
    case Admitting => Looking
    case Asking => ReadRecord(false)
    case Collecting => ReadRecord(true)
  }

  ghost function Apply(s: State, step: Step): State
    requires Enabled(s, step)
  {
    match step
    case Begin(c, verb, job) => s.(calls := s.calls[c := Call(job, 0, false, Start(verb))])
    case Advance(c, uuid) =>
      var pc := s.calls[c].pc;
      if AdmitPc(pc) then Admit(s, c, uuid)
      else if LaunchPc(pc) then Launch(s, c)
      else Report(s, c)
    case Refuse(c) => Goto(s, c, PublishRefusal)
    case Stop(c) => Goto(s, c, Finished(NoAnswer))
  }

  // ---------------------------------------------------------------- invariants

  // Between the exclusive mkdir of evidence and the launch.
  predicate HasEvidence(pc: Pc) {
    pc.PublishManifest? || pc.CreateAttempt? || HasAttempt(pc)
  }

  predicate HasAttempt(pc: Pc) {
    pc.WriteAttempt? || pc.PublishPrepared? || pc.Staging? || pc.Launching?
  }

  predicate InRunner(pc: Pc) { pc.Running? || pc.RunMade? || pc.RunBound? || pc.PublishRefusal? }

  // The call's own run directory does not exist at these points.
  predicate RunUnmade(call: Call) {
    !call.launched || call.pc.Running? || call.pc.PublishRefusal?
  }

  // The binding a reporting call has read from prepared.json.
  function ReadBinding(pc: Pc): Option<Binding> {
    match pc
    case ReadRefusal(_, b) => Some(b)
    case ReadSummary(b) => Some(b)
    case VerifyRun(b) => Some(b)
    case PublishSummary(b) => Some(b)
    case _ => None
  }

  predicate OwnsEvidence(c: Caller, j: JobId, evidence: map<JobId, Evidence>) {
    j in evidence && evidence[j].owner == c
  }

  predicate OwnsAttempt(c: Caller, i: AttemptId, attempts: map<AttemptId, Attempt>) {
    i in attempts && attempts[i].owner == c
  }

  // What a call's point says about the evidence directory of its job.
  predicate CallEvidence(c: Caller, call: Call, evidence: map<JobId, Evidence>) {
    var j, own := call.job.jobId, Binding(call.job, call.native);
    && (HasEvidence(call.pc) || call.launched ==> OwnsEvidence(c, j, evidence))
    && (HasEvidence(call.pc) && !call.pc.Staging? && !call.pc.Launching? ==>
          evidence[j].prepared == None)
    && (call.pc.Staging? || call.pc.Launching? || InRunner(call.pc) ==>
          j in evidence && evidence[j].prepared == Some(own))
    && (HasEvidence(call.pc) || InRunner(call.pc) ==>
          j in evidence && evidence[j].refusal == None)
    && (ReadBinding(call.pc).Some? ==>
          j in evidence && evidence[j].prepared == ReadBinding(call.pc))
  }

  predicate CallAttempt(c: Caller, call: Call, attempts: map<AttemptId, Attempt>) {
    HasAttempt(call.pc) || call.launched ==> OwnsAttempt(c, call.job.attemptId, attempts)
  }

  predicate Bound(b: Binding, runs: map<RunId, Run>) {
    b.run in runs && runs[b.run].verified && runs[b.run].pending == Some(b)
  }

  predicate CallRun(c: Caller, call: Call, runs: map<RunId, Run>) {
    && (RunUnmade(call) && call.native != 0 ==> call.native !in runs)
    && (call.pc.RunMade? ==> call.native in runs)
    && (call.pc.RunBound? ==>
          call.native in runs && runs[call.native].pending == Some(Binding(call.job, call.native)))
    && (call.pc.PublishSummary? ==> Bound(call.pc.prepared, runs))
  }

  predicate CallInv(c: Caller, call: Call, launches: seq<Caller>) {
    && (call.launched <==> c in launches)
    && (AdmitPc(call.pc) || call.pc.Launching? ==> !call.launched)
    && (InRunner(call.pc) ==> call.launched)
    && (call.pc.Looking? || call.pc.Preparing? ==> call.native == 0)
    && (HasEvidence(call.pc) || call.pc.MakingEvidence? || call.launched ==> call.native != 0)
  }

  // An evidence directory speaks only of its owner's binding; a refusal means the run was never
  // made and the owner is past the runner; a summary means the run is verified.
  predicate EvidenceInv(j: JobId, e: Evidence, calls: map<Caller, Call>, runs: map<RunId, Run>) {
    && e.owner in calls && calls[e.owner].job.jobId == j && calls[e.owner].native != 0
    && (e.prepared.Some? ==>
          e.prepared == Some(Binding(calls[e.owner].job, calls[e.owner].native)))
    && (e.refusal.Some? ==>
          && e.refusal == e.prepared && e.refusal.value.run !in runs
          && calls[e.owner].launched && !InRunner(calls[e.owner].pc))
    && (e.summary.Some? ==> e.summary == e.prepared && Bound(e.summary.value, runs))
  }

  predicate RunInv(r: RunId, run: Run, calls: map<Caller, Call>) {
    && run.owner in calls && calls[run.owner].native == r && calls[run.owner].launched
    && !calls[run.owner].pc.Running? && !calls[run.owner].pc.PublishRefusal?
    && (calls[run.owner].pc.RunMade? ==> !run.verified)
    && (run.verified ==> run.pending.Some?)
  }

  predicate OneCallInv(c: Caller, call: Call, evidence: map<JobId, Evidence>,
                       attempts: map<AttemptId, Attempt>, runs: map<RunId, Run>,
                       launches: seq<Caller>)
  {
    CallInv(c, call, launches) && CallEvidence(c, call, evidence) && CallAttempt(c, call, attempts)
    && CallRun(c, call, runs)
  }

  ghost predicate CallsInv(calls: map<Caller, Call>, evidence: map<JobId, Evidence>,
                           attempts: map<AttemptId, Attempt>, runs: map<RunId, Run>,
                           launches: seq<Caller>)
  {
    forall c :: c in calls ==> OneCallInv(c, calls[c], evidence, attempts, runs, launches)
  }

  ghost predicate EvidencesInv(evidence: map<JobId, Evidence>, calls: map<Caller, Call>,
                               runs: map<RunId, Run>)
  {
    forall j :: j in evidence ==> EvidenceInv(j, evidence[j], calls, runs)
  }

  ghost predicate RunsInv(runs: map<RunId, Run>, calls: map<Caller, Call>) {
    forall r :: r in runs ==> RunInv(r, runs[r], calls)
  }

  // Native ids are drawn once; only callers that never got that far share the blank one.
  ghost predicate NativesDistinct(calls: map<Caller, Call>) {
    forall c, d | c in calls && d in calls && c != d ::
      calls[c].native == 0 || calls[c].native != calls[d].native
  }

  ghost predicate LaunchesInv(launches: seq<Caller>, calls: map<Caller, Call>) {
    && (forall k :: 0 <= k < |launches| ==> launches[k] in calls)
    && (forall k, m :: 0 <= k < m < |launches| ==> launches[k] != launches[m])
  }

  ghost predicate Inv(s: State) {
    && CallsInv(s.calls, s.evidence, s.attempts, s.runs, s.launches)
    && EvidencesInv(s.evidence, s.calls, s.runs)
    && RunsInv(s.runs, s.calls) && NativesDistinct(s.calls) && LaunchesInv(s.launches, s.calls)
  }

  // ---------------------------------------------------------------- every step keeps them

  // Replacing one call record: what the directories say about their owner stays true.
  lemma CallKeeps(s: State, c: Caller, call: Call)
    requires Inv(s) && c in s.calls
    requires call.job == s.calls[c].job && call.native == s.calls[c].native
    requires call.launched == s.calls[c].launched
    requires InRunner(call.pc) ==> InRunner(s.calls[c].pc)
    requires call.pc.Running? || call.pc.PublishRefusal? ==>
        s.calls[c].pc.Running? || call.pc == s.calls[c].pc
    requires call.pc.RunMade? ==> s.calls[c].pc.RunMade?
    requires OneCallInv(c, call, s.evidence, s.attempts, s.runs, s.launches)
    ensures Inv(s.(calls := s.calls[c := call]))
  {
  }

  // Drawing the native id.
  lemma DrawKeeps(s: State, c: Caller, uuid: RunId)
    requires Inv(s) && c in s.calls && s.calls[c].pc.Preparing?
    requires uuid != 0 && Fresh(s, uuid)
    ensures Inv(s.(calls := s.calls[c := s.calls[c].(native := uuid, pc := MakingEvidence)]))
  {
  }

  // Entering run_controlled.
  lemma LaunchKeeps(s: State, c: Caller)
    requires Inv(s) && c in s.calls && s.calls[c].pc.Launching?
    ensures Inv(s.(calls := s.calls[c := s.calls[c].(launched := true, pc := Running)],
                   launches := s.launches + [c]))
  {
  }

  // Changing an evidence directory: only its owner touches anything but the summary.
  lemma EvidenceKeeps(s: State, c: Caller, e: Evidence, call: Call)
    requires Inv(s) && c in s.calls
    requires call.job == s.calls[c].job && call.native == s.calls[c].native
    requires call.launched == s.calls[c].launched && !InRunner(call.pc)
    requires var j := call.job.jobId;
      if j in s.evidence then
        && e.owner == s.evidence[j].owner
        && (s.evidence[j].prepared.Some? ==> e.prepared == s.evidence[j].prepared)
        && (e.owner == c || (e.refusal == s.evidence[j].refusal && e.prepared == s.evidence[j].prepared))
      else e.owner == c
    requires EvidenceInv(call.job.jobId, e, s.calls[c := call], s.runs)
    requires OneCallInv(c, call, s.evidence[call.job.jobId := e], s.attempts, s.runs, s.launches)
    ensures Inv(s.(calls := s.calls[c := call], evidence := s.evidence[call.job.jobId := e]))
  {
  }

  lemma AttemptKeeps(s: State, c: Caller, a: Attempt, call: Call)
    requires Inv(s) && c in s.calls
    requires call.job == s.calls[c].job && call.native == s.calls[c].native
    requires call.launched == s.calls[c].launched && !InRunner(call.pc)
    requires var i := call.job.attemptId;
      a.owner == if i in s.attempts then s.attempts[i].owner else c
    requires OneCallInv(c, call, s.evidence, s.attempts[call.job.attemptId := a], s.runs, s.launches)
    ensures Inv(s.(calls := s.calls[c := call], attempts := s.attempts[call.job.attemptId := a]))
  {
  }

  // What a launched call may make of its own run directory.
  predicate OwnRun(s: State, c: Caller, run: Run, call: Call) {
    && c in s.calls && s.calls[c].launched && s.calls[c].native != 0
    && (s.calls[c].pc.Running? || s.calls[c].pc.RunMade? || s.calls[c].pc.RunBound?)
    && call.job == s.calls[c].job && call.native == s.calls[c].native && call.launched
    && (call.pc.RunMade? || call.pc.RunBound? || !InRunner(call.pc))
    && run.owner == c
    && (call.native in s.runs && s.runs[call.native].verified ==> run == s.runs[call.native])
    && RunInv(call.native, run, s.calls[c := call])
  }

  // The owner is still inside the runner, so no refusal of its can be on file.
  lemma RunSparesEvidence(s: State, c: Caller, run: Run, call: Call)
    requires Inv(s) && OwnRun(s, c, run, call)
    ensures EvidencesInv(s.evidence, s.calls[c := call], s.runs[call.native := run])
  {
    forall j | j in s.evidence
      ensures EvidenceInv(j, s.evidence[j], s.calls[c := call], s.runs[call.native := run])
    {
      assert EvidenceInv(j, s.evidence[j], s.calls, s.runs);
    }
  }

  // Changing the call's own run directory.
  lemma RunKeeps(s: State, c: Caller, run: Run, call: Call)
    requires Inv(s) && OwnRun(s, c, run, call)
    requires OneCallInv(c, call, s.evidence, s.attempts, s.runs[call.native := run], s.launches)
    ensures Inv(s.(calls := s.calls[c := call], runs := s.runs[call.native := run]))
  {
    RunSparesEvidence(s, c, run, call);
  }

  lemma GotoKeeps(s: State, c: Caller, pc: Pc)
    requires Inv(s) && c in s.calls && !LaunchPc(pc)
    requires OneCallInv(c, s.calls[c].(pc := pc), s.evidence, s.attempts, s.runs, s.launches)
    ensures Inv(Goto(s, c, pc))
  {
    CallKeeps(s, c, s.calls[c].(pc := pc));
  }

  lemma StopKeeps(s: State, c: Caller, answer: Answer)
    requires Inv(s) && c in s.calls
    ensures Inv(Goto(s, c, Finished(answer)))
  {
    assert OneCallInv(c, s.calls[c], s.evidence, s.attempts, s.runs, s.launches);
    GotoKeeps(s, c, Finished(answer));
  }

  lemma RefuseKeeps(s: State, c: Caller)
    requires Inv(s) && c in s.calls && s.calls[c].pc.Running?
    ensures Inv(Goto(s, c, PublishRefusal))
  {
    assert OneCallInv(c, s.calls[c], s.evidence, s.attempts, s.runs, s.launches);
    CallKeeps(s, c, s.calls[c].(pc := PublishRefusal));
  }

  lemma MakeEvidenceKeeps(s: State, c: Caller, uuid: RunId)
    requires Inv(s) && c in s.calls && s.calls[c].pc.MakingEvidence?
    ensures Inv(Admit(s, c, uuid))
  {
    var call := s.calls[c];
    assert OneCallInv(c, call, s.evidence, s.attempts, s.runs, s.launches);
    if call.job.jobId in s.evidence { GotoKeeps(s, c, ReadRecord(false)); }
    else { EvidenceKeeps(s, c, Evidence(c, None, None, None, None), call.(pc := PublishManifest)); }
  }

  lemma AdmitEvidenceKeeps(s: State, c: Caller, uuid: RunId)
    requires Inv(s) && c in s.calls
    requires s.calls[c].pc.PublishManifest? || s.calls[c].pc.PublishPrepared?
    ensures Inv(Admit(s, c, uuid))
  {
    var call := s.calls[c];
    var e := s.evidence[call.job.jobId];
    assert OneCallInv(c, call, s.evidence, s.attempts, s.runs, s.launches);
    match call.pc
    case PublishManifest =>
      EvidenceKeeps(s, c, e.(manifest := Some(call.job)), call.(pc := CreateAttempt));
    case PublishPrepared =>
      EvidenceKeeps(s, c, e.(prepared := Some(Binding(call.job, call.native))),
                    call.(pc := Staging));
  }

  lemma AdmitAttemptKeeps(s: State, c: Caller, uuid: RunId)
    requires Inv(s) && c in s.calls
    requires s.calls[c].pc.CreateAttempt? || s.calls[c].pc.WriteAttempt?
    ensures Inv(Admit(s, c, uuid))
  {
    var call := s.calls[c];
    var i := call.job.attemptId;
    assert OneCallInv(c, call, s.evidence, s.attempts, s.runs, s.launches);
    match call.pc
    case CreateAttempt =>
      if i in s.attempts { StopKeeps(s, c, NoAnswer); }
      else { AttemptKeeps(s, c, Attempt(c, None), call.(pc := WriteAttempt)); }
    case WriteAttempt =>
      AttemptKeeps(s, c, s.attempts[i].(saved := Some(Binding(call.job, call.native))),
                   call.(pc := PublishPrepared));
  }

  lemma AdmitKeeps(s: State, c: Caller, uuid: RunId)
    requires Inv(s) && Enabled(s, Advance(c, uuid)) && AdmitPc(s.calls[c].pc)
    ensures Inv(Admit(s, c, uuid))
  {
    var call := s.calls[c];
    assert OneCallInv(c, call, s.evidence, s.attempts, s.runs, s.launches);
    match call.pc
    case Looking =>
      GotoKeeps(s, c, if call.job.jobId in s.evidence then ReadRecord(false) else Preparing);
    case Preparing => DrawKeeps(s, c, uuid);
    case MakingEvidence => MakeEvidenceKeeps(s, c, uuid);
    case PublishManifest => AdmitEvidenceKeeps(s, c, uuid);
    case CreateAttempt => AdmitAttemptKeeps(s, c, uuid);
    case WriteAttempt => AdmitAttemptKeeps(s, c, uuid);
    case PublishPrepared => AdmitEvidenceKeeps(s, c, uuid);
    case Staging => CallKeeps(s, c, call.(pc := Launching));
  }

  lemma LaunchesKeep(s: State, c: Caller)
    requires Inv(s) && c in s.calls && LaunchPc(s.calls[c].pc)
    ensures Inv(Launch(s, c))
  {
    var call := s.calls[c];
    var j, r := call.job.jobId, call.native;
    var own := Binding(call.job, r);
    assert OneCallInv(c, call, s.evidence, s.attempts, s.runs, s.launches);
    match call.pc
    case Launching => LaunchKeeps(s, c);
    case Running => RunKeeps(s, c, Run(c, None, false), call.(pc := RunMade));
    case RunMade => RunKeeps(s, c, s.runs[r].(pending := Some(own)), call.(pc := RunBound));
    case RunBound => RunKeeps(s, c, s.runs[r].(verified := true), call.(pc := ReadRecord(true)));
    case PublishRefusal =>
      EvidenceKeeps(s, c, s.evidence[j].(refusal := Some(own)), call.(pc := ReadRecord(false)));
  }

  // A reporting call moves on when its test passes and ends otherwise.
  lemma ReadKeeps(s: State, c: Caller, pass: bool, pc: Pc, answer: Answer)
    requires Inv(s) && c in s.calls && !LaunchPc(pc)
    requires pass ==>
        OneCallInv(c, s.calls[c].(pc := pc), s.evidence, s.attempts, s.runs, s.launches)
    ensures Inv(Goto(s, c, if pass then pc else Finished(answer)))
  {
    if pass { GotoKeeps(s, c, pc); } else { StopKeeps(s, c, answer); }
  }

  lemma ReadRecordKeeps(s: State, c: Caller)
    requires Inv(s) && c in s.calls && s.calls[c].pc.ReadRecord?
    ensures Inv(Report(s, c))
  {
    var call := s.calls[c];
    var j := call.job.jobId;
    assert OneCallInv(c, call, s.evidence, s.attempts, s.runs, s.launches);
    if j in s.evidence && s.evidence[j].prepared.Some? {
      var b := s.evidence[j].prepared.value;
      ReadKeeps(s, c, RecordAgrees(s, call.job, b), ReadRefusal(call.pc.collect, b), NoAnswer);
    } else {
      StopKeeps(s, c, NoAnswer);
    }
  }

  lemma VerifyRunKeeps(s: State, c: Caller)
    requires Inv(s) && c in s.calls && s.calls[c].pc.VerifyRun?
    ensures Inv(Report(s, c))
  {
    var prepared := s.calls[c].pc.prepared;
    assert OneCallInv(c, s.calls[c], s.evidence, s.attempts, s.runs, s.launches);
    ReadKeeps(s, c, Bound(prepared, s.runs), PublishSummary(prepared), NoAnswer);
  }

  lemma PublishSummaryKeeps(s: State, c: Caller)
    requires Inv(s) && c in s.calls && s.calls[c].pc.PublishSummary?
    ensures Inv(Report(s, c))
  {
    var call := s.calls[c];
    var e := s.evidence[call.job.jobId];
    assert OneCallInv(c, call, s.evidence, s.attempts, s.runs, s.launches);
    EvidenceKeeps(s, c, e.(summary := Some(call.pc.prepared)),
                  call.(pc := Finished(Collected(call.pc.prepared))));
  }

  lemma ReportKeeps(s: State, c: Caller)
    requires Inv(s) && c in s.calls && !AdmitPc(s.calls[c].pc) && !LaunchPc(s.calls[c].pc)
    requires !s.calls[c].pc.Finished?
    ensures Inv(Report(s, c))
  {
    var call := s.calls[c];
    var j := call.job.jobId;
    assert OneCallInv(c, call, s.evidence, s.attempts, s.runs, s.launches);
    match call.pc
    case ReadRecord(_) => ReadRecordKeeps(s, c);
    case ReadRefusal(collect, prepared) =>
      ReadKeeps(s, c, s.evidence[j].refusal.None?,
                if collect then VerifyRun(prepared) else ReadSummary(prepared),
                RefusedBeforeLaunch(prepared));
    case ReadSummary(prepared) =>
      ReadKeeps(s, c, s.evidence[j].summary.Some?, ReadRecord(true),
                if prepared.run in s.runs && s.runs[prepared.run].verified
                then Collectable(prepared) else UnknownOrRunning(prepared));
    case VerifyRun(_) => VerifyRunKeeps(s, c);
    case PublishSummary(_) => PublishSummaryKeeps(s, c);
  }

  lemma StepKeeps(s: State, step: Step)
    requires Inv(s) && Enabled(s, step)
    ensures Inv(Apply(s, step))
  {
    match step
    case Begin(c, verb, job) =>
    case Advance(c, uuid) =>
      if AdmitPc(s.calls[c].pc) { AdmitKeeps(s, c, uuid); }
      else if LaunchPc(s.calls[c].pc) { LaunchesKeep(s, c); }
      else { ReportKeeps(s, c); }
    case Refuse(c) => RefuseKeeps(s, c);
    case Stop(c) => StopKeeps(s, c, NoAnswer);
  }

  // ---------------------------------------------------------------- all runs

  ghost function Next(s: State, step: Step): Option<State> {
    if Enabled(s, step) then Some(Apply(s, step)) else None
  }

  ghost predicate Reachable(t: State) { exists s :: Init(s) && Leads(Next, s, t) }

  lemma InvIsKept()
    ensures forall s, step :: Inv(s) && Next(s, step).Some? ==> Inv(Next(s, step).value)
  {
    forall s, step | Inv(s) && Next(s, step).Some? ensures Inv(Next(s, step).value) {
      StepKeeps(s, step);
    }
  }

  lemma ReachableInv(t: State)
    requires Reachable(t)
    ensures Inv(t)
  {
    var s :| Init(s) && Leads(Next, s, t);
    var steps :| Exec(Next, s, steps) == Some(t);
    InvIsKept();
    ExecKeeps(Next, Inv, s, steps);
  }

  /**
    Within one evidence root, two entries into `run_controlled` for one job id, or for one attempt
    id, are one entry.
   */
  lemma AtMostOnce(t: State, k: nat, m: nat)
    requires Reachable(t) && k < |t.launches| && m < |t.launches|
    ensures t.launches[k] in t.calls && t.launches[m] in t.calls
    ensures var a, b := t.calls[t.launches[k]].job, t.calls[t.launches[m]].job;
      a.root == b.root && (a.job == b.job || a.attempt == b.attempt) ==> k == m
  {
    ReachableInv(t);
    var c, d := t.launches[k], t.launches[m];
    assert OneCallInv(c, t.calls[c], t.evidence, t.attempts, t.runs, t.launches);
    assert OneCallInv(d, t.calls[d], t.evidence, t.attempts, t.runs, t.launches);
  }

  /** Run directories are made only inside a launch, one per launch, under its own native id. */
  lemma RunsComeFromLaunches(t: State, r: RunId, q: RunId)
    requires Reachable(t) && r in t.runs && q in t.runs
    ensures t.runs[r].owner in t.launches
    ensures t.runs[r].owner == t.runs[q].owner ==> r == q
  {
    ReachableInv(t);
    var c := t.runs[r].owner;
    assert RunInv(r, t.runs[r], t.calls) && RunInv(q, t.runs[q], t.calls);
    assert OneCallInv(c, t.calls[c], t.evidence, t.attempts, t.runs, t.launches);
  }

  /** A call about to seal a refusal, and any call that never launched, made no run directory. */
  lemma RefusalMadeNothing(t: State, c: Caller, r: RunId)
    requires Reachable(t) && c in t.calls && r in t.runs
    requires t.calls[c].pc.PublishRefusal? || !t.calls[c].launched
    ensures t.runs[r].owner != c
  {
    ReachableInv(t);
    assert RunInv(r, t.runs[r], t.calls);
  }

  /** A sealed refusal names a run that does not exist; a summary names a verified one it binds. */
  lemma SealsAreTrue(t: State, j: JobId)
    requires Reachable(t) && j in t.evidence
    ensures t.evidence[j].refusal.Some? ==> t.evidence[j].refusal.value.run !in t.runs
    ensures t.evidence[j].summary.Some? ==> Bound(t.evidence[j].summary.value, t.runs)
    ensures !(t.evidence[j].refusal.Some? && t.evidence[j].summary.Some?)
  {
    ReachableInv(t);
    assert EvidenceInv(j, t.evidence[j], t.calls, t.runs);
  }
}
