# Verified models of SparseLab's runner, accounting, hashing and planning

SparseLab trains small sparse models on a host that several people share. Much of its code is not
about models at all: it must never start two workloads on one host, never lose or overwrite
evidence, state the size of records that contain their own size, address memory tables with a hash
that keeps tokens apart, and choose batch sizes and worker counts that fit. This project models
that code in Dafny and proves what it is for.

`dafny verify dfyconfig.toml` checks everything.

## The parts

**The fail-closed runner** (`RunnerControl`, `RunnerOutcome`, `RunnerProgress`, `RunnerStatus`). Any
number of processes call `run_controlled` with their own lock path, marker path and run id. They
interleave one file-system action at a time; any of them may raise, be interrupted or be killed between
any two actions; and the environment may put another inode behind any lock path at any moment. `Enabled`
and `Apply` are the transition system, `Inv` its inductive invariant. At most one live process is ever
past the attempt boundary, at most one run directory is unverified, and once such a run has lost its
owner the history never changes again. `FlockAloneDoesNotExclude` reaches a state in which two processes
own a flock at the same time, so it is the contract record, bound to the lock's inode, that excludes.
`RunnerOutcome` says for all runs which calls a blocked marker or a replaced lock stops, how each call
ends, and that failed attempts leave their marker. In the other direction, `RunnerProgress` gives the
one verdict on a call that nobody disturbs, from every reachable state, and `RunnerStatus` the one
report.

**Lab jobs** (`LabJob`, `LabAnswers`, `LabProgress`, `RunnerLaunch`). Admission, status and collection
by any number of callers: within one evidence root every job id and every attempt id enters the runner
at most once, refusals and summaries tell the truth, and no job has both. `LabAnswers` adds that no
record is taken back, that what a call returned stays true, and that each question has one answer.
`RunnerLaunch` joins the two models: every step of the runner is a step of the launch that the job model
allows, or none.

**Processes below a supervisor** (`ProcessTree`, `OwnedDiscovery`, `Supervision`, `ShutdownGaps`). A
kernel with fork, exit, reparenting to the subreaper and reaping keeps every living descendant linked to
the root. `Attribution` is the object around the `known` map with the least-fixpoint loop of `_owned`.
On top, the supervisor's launch, cleanup rounds and receipt, and the monitor's status decision. The
kernel keeps the command's exit code, which the supervisor cannot write.

**Records that state their own size** (`Decimal`, `SummarySize`, `SlowOrbit`, `StorageProjection`,
`ReceiptText`). The summary loop of `collect` ends at the least consistent record. The receipt
projection moves in one direction, reaches its fixed point by the sixth round whatever the inputs, and
so never gives up. `ReceiptText` ties both size formulas to the texts they measure.

**Exclusive publication** (`ResultPublication`, `PublicationProgress`). Concurrent publishers, a
volatile and a durable file system, and crashes at any moment that keep any parent-closed part of what
was not synced.

**Address hashing** (`NumberTheory`, `Mersenne`, `Recurrence`, `AddressHash`, `AddressWidth`,
`ByteHash`, `AddressIdentity`). Greatest common divisors with Bezout coefficients, and a proof that
2**31 - 1 is prime: an element of order 151 * 331 modulo any divisor forces that divisor above the
square root. On that rest the exact conditions under which each scheme keeps keys apart and its sums
stay below 62 bits, and the theorem that a configuration gets a marker exactly when its tables read some
key whose row has changed.

**Graphs and trees** (`Documents`, `Archive`, `WorkspaceSample`). The document walk accepts exactly what
has no cycle and no non-finite number. The closure over evaluation indexes ends on cyclic references,
fails on them exactly, and otherwise places every file under every branch. The workspace sample is
independent of listing order and charges every inode once.

**Planning and moving data** (`MemoryEstimate`, `MemoryPlanner`, `HostCapacity`, `OrderedRun`,
`OwnedCopy`, `BatchCandidates`).

`Runs` is what the transition systems share: the states a sequence of steps leads to, and that what
every step keeps, every run keeps. `Basics`, `Wrappers` and `Collections` serve everybody.

Objects that the source updates in place are classes here (`Attribution`, `Checker`, `Inventory`,
`Planner`, `Pool`, `Copy`), loops are loops, and each is proved against functions and predicates about
which the lemmas speak. The multi-process protocols are transition systems: their state is the file
system, and no single object holds it.

## What turned out not to hold

- `write_bytes_exclusive` promises durability on return. With two publishers and a fresh directory
  the promise can be lost (`ReturnCanBeLost`): the second publisher finds the directory in place,
  though the first has not synced it. `ReturnIsDurable` says exactly when the promise holds.
- A receipt with `living_descendants` 0 does not always mean that nobody is alive: `_owned` refuses
  to adopt a process on a recycled pid, and passes over one that denies access unless it knows its
  pid. `RecycledPidHides` and `DeniedChildHides` are supervised runs, from launch to receipt, that end
  as FAILED and as COMPLETE with a grandchild alive; `ZeroCount` gives the exact condition.
- A command that a signal kills is never FAILED: the receipt states its negative code, the monitor sees
  that code modulo 256, and the mismatch is a MONITOR_ERROR (`SignalledIsMonitorError`).
- A v1 row can lie outside the table, for an empty key only (`EmptyKeyLeavesTheTable`, `RowInTable`).
- The comment at `data/byte_hash.py` lines 60-63 says that v1 sends every input to row 0 for every
  multiple of 257. It does so exactly for table sizes that divide 257 (`LegacyWouldUseRowZero`).
- Hash head 521984201 would make the mixed multiplier equal to the modulus, and the mixed address
  forgets all but one token (`FirstHeadThatForgets`); all smaller heads mix. `PlaceReachesExactly`
  and `MixedKeysCollide` hold for every head and say what such a one still tells apart.
- The arithmetic of `address_hash.py` does not always stay below 2**62: `SixtyTwoBitsExactly` says for
  which tables and heads it does, and `MixedIsNarrowExactly` that the v2 heads from 521984203 on are
  not among them.
- Activation checkpointing lowers the estimate exactly for two or more layers. So a plan of
  `low_memory`, or of `balanced` for an estimate that does not fit, raises the estimated peak exactly
  where checkpointing is all it can do: one layer, micro-batch 1, checkpointing off before and
  supported (`PeakRisesExactly`).
- The number of workers shows in the results of `run_ordered` where the input iterator raises.
  `WorkersShowExactly` says when two worker counts can be told apart.
- Job ids are unique within an evidence root only: a handoff that names another root is another job.

## Model

| member | source | states |
|---|---|---|
| RunnerControl.StepKeeps | src/sparselab/runner_control.py:217-376 | every step of any process, observer or environment keeps the invariant that ties locks, contract, run directories and program counters together |
| RunnerControl.MutualExclusion | src/sparselab/runner_control.py:266-318 | in every reachable state at most one live process is past the attempt boundary, although the lock file may be replaced at any time |
| RunnerControl.FlockAloneDoesNotExclude | src/sparselab/runner_control.py:266-283 | a reachable state in which two live processes own a flock: the lock by itself is not enough |
| RunnerControl.AtMostOneUnresolved | src/sparselab/runner_control.py:107-173 | at most one run directory lacks a verified pending and completion pair, and any process past the boundary is its owner |
| RunnerControl.FailClosed | src/sparselab/runner_control.py:316-371 | once the owner of an unverified run is gone, killed at whatever point after mkdir, no continuation adds or changes a run directory or lets anyone past the boundary |
| RunnerControl.OutcomesTellTheTruth | src/sparselab/runner_control.py:193-214 | a preflight refusal made no run directory; a completed call left its own verified one |
| RunnerControl.HistoryIsAppendOnly | src/sparselab/runner_control.py:60-68 | the saved contract and every verified run stay as they are in all continuations |
| RunnerControl.VerifiedHistoryIsTrue | src/sparselab/runner_control.py:379-488 | an observer's step changes no file; a report of verified history counts every run, all of them are verified, and no process is past the boundary |
| RunnerOutcome.MarkersAreForever | src/sparselab/runner_control.py:229-247 | no step of anybody removes a blocked marker |
| RunnerOutcome.BlockedNeverEnters | src/sparselab/runner_control.py:247-291 | once its marker is there, a call that begins later, or has not passed the second test yet, never gets past the attempt boundary and never completes, in any continuation |
| RunnerOutcome.ReplacedLockIsNoticed | src/sparselab/runner_control.py:262-345 | as long as the lock path does not name the inode it opened, a process does not complete; before the second comparison it does not enter, before the first it takes no flock |
| RunnerOutcome.EndsExactly | src/sparselab/runner_control.py:193-214 | completed, refused, interrupted, raised and killed: each exactly where a call was and by what it ended |
| RunnerOutcome.FailuresMark | src/sparselab/runner_control.py:365-371 | in all continuations of a call that has made and noted its directory: if it ends without completing, is not killed and its marker could be written, the marker is there |
| RunnerOutcome.FailedAttemptMarks | src/sparselab/runner_control.py:365-371 | and such a failure does end that way, with the runs as they were |
| RunnerOutcome.LocksAreReleased | src/sparselab/runner_control.py:372-376 | whoever has a flock is a live process or observer that holds it now |
| RunnerProgress.SoloVerdict | src/sparselab/runner_control.py:234-376 | from every reachable state, an undisturbed call that has ended has ended by one verdict on marker, lock, contract and history, and changed exactly what goes with it |
| RunnerProgress.UndisturbedRunEnds | src/sparselab/runner_control.py:234-376 | and it does end |
| RunnerProgress.UndisturbedRunCompletes | src/sparselab/runner_control.py:234-364 | from any reachable state with no marker, a free lock and an empty or wholly verified history, an undisturbed call completes and adds exactly its own verified run |
| RunnerProgress.BlockedRunIsRefused | src/sparselab/runner_control.py:92-98 | with its marker present it is refused, and no file changes |
| RunnerStatus.StatusIsExact | src/sparselab/runner_control.py:379-488 | an undisturbed `runner_status` gives the one report that marker, lock, flock and history call for, changes no file and gives its flock back |
| LabJob.StepKeeps | src/sparselab/lab_job.py:201-307 | every interleaved action, refusal, failure or kill keeps the invariant of evidence, attempt entries, runs and calls |
| LabJob.AtMostOnce | src/sparselab/lab_job.py:201-307 | within one evidence root, two entries into `run_controlled` for one job id, or for one attempt id, are the same entry |
| LabJob.RunsComeFromLaunches | src/sparselab/lab_job.py:276-289 | each run directory belongs to a launch, and no launch makes two |
| LabJob.RefusalMadeNothing | src/sparselab/lab_job.py:290-306 | a call that is about to seal a refusal, or never launched, owns no run directory |
| RunnerLaunch.RunnerRefinesLaunch | src/sparselab/runner_control.py:176-376 | every step of a runner run, by the process itself or any other, is for its launch a step the job model allows or none: a refusal made no directory, the binding is on file before the monitor runs, and a return comes after the verified record |
| RunnerLaunch.BeginsAsRunning | src/sparselab/runner_control.py:193-210 | a runner process begins where the launch enters the runner, owning no directory |
| LabJob.SealsAreTrue | src/sparselab/lab_job.py:155-181 | a sealed refusal names a run that does not exist, a summary names a verified run bound to it, and no job ever has both |
| LabAnswers.RecordsAreAppendOnly | src/sparselab/lab_job.py:201-307 | in all continuations no evidence, attempt entry, run or launch is removed or replaced |
| LabAnswers.AnswersAreTrue | src/sparselab/lab_job.py:184-198 | whatever a call returned is true for good: a refusal is sealed and its run never made, a collected run summarised, verified and bound to the job, a collectable one verified |
| LabAnswers.RefusalIsSealed | src/sparselab/lab_job.py:290-306 | a launched call that answers for a refusal, or is past sealing it, has its own refusal on file |
| LabAnswers.QuestionHasOneAnswer | src/sparselab/lab_job.py:184-198 | an undisturbed `status` or `collect` gives the one answer its records call for, and writes at most the summary of a verified run |
| LabProgress.UndisturbedJobIsCollected | src/sparselab/lab_job.py:201-307 | a handoff with new ids, undisturbed, is launched once and ends with a summary bound to its verified run |
| LabProgress.RefusedJobIsSealed | src/sparselab/lab_job.py:290-306 | a handoff with new ids whose launch the runner refuses ends with the refusal sealed, no summary and no run, and says so |
| ProcessTree.EventKeeps | src/sparselab/owned_process.py:46-50 | with a subreaper at the root, fork, exit with reparenting, and reaping keep exactly the descendants linked to the root by parent links |
| ProcessTree.AloneStays | src/sparselab/owned_process.py:122-130 | a root without living descendants that does not fork never has one again |
| OwnedDiscovery.Attribution.Owned | src/sparselab/operational_monitor.py:449-490 | returns, in ascending order, exactly the processes reachable from root and known identities by parent links that avoid recycled pids, updates `known` to match, and fails exactly on a denied known process or a reused root |
| OwnedDiscovery.OwnedIsSound | src/sparselab/operational_monitor.py:449-490 | whatever is returned or remembered is a living descendant of the root, whoever vanishes or denies access during the listing |
| OwnedDiscovery.OwnedIsComplete | src/sparselab/operational_monitor.py:449-490 | exactly the root and its living descendants are returned if and only if no living descendant denies access or sits on a recycled pid |
| OwnedDiscovery.NobodyFound | src/sparselab/operational_monitor.py:449-490 | when only the root is found, somebody else is alive if and only if a living child of the root denies access or sits on a recycled pid |
| Supervision.StepKeeps | src/sparselab/owned_process.py:81-147 | every poll, cleanup round, drain, exception and kernel event keeps the supervisor's invariant; a discovery that refuses ends polling in the cleanup, and ends the cleanup without a receipt |
| Supervision.SignalsStayBelow | src/sparselab/operational_monitor.py:719-745 | only descendants are signalled, never the supervisor; the first round is TERM and all later ones KILL |
| Supervision.ZeroCount | src/sparselab/owned_process.py:129-140 | when the final count is taken and is zero, a descendant is alive if and only if a living child of the root denied access or sat on a recycled pid |
| ShutdownGaps.RecycledPidHides | src/sparselab/operational_monitor.py:470-490 | a reachable supervised run whose receipt counts nobody although a descendant is alive on a recycled pid, and which is reported as FAILED |
| ShutdownGaps.DeniedChildHides | src/sparselab/operational_monitor.py:462-467 | a reachable supervised run that is reported as COMPLETE although a descendant is alive, which the supervisor never discovered and which denies access |
| Supervision.CertifiedShutdown | src/sparselab/operational_monitor.py:1254-1280 | an enhanced run that ends other than MONITOR_ERROR had nobody alive below its supervisor at the receipt or later, unless a child of the root denied access or sat on a recycled pid at the final count; its status follows from violations and code, and any code but 1 is the one the command exited with |
| Supervision.ReceiptStatesExit | src/sparselab/owned_process.py:81-107 | if the watch ended because the command had exited and nobody was found, and the cleanup was not cut short, every receipt in every continuation states the command's own code |
| Supervision.ReceiptStatesOne | src/sparselab/owned_process.py:81-124 | if anything else ended the watch, or the cleanup deadline passed with somebody alive, every later receipt states 1 |
| Supervision.NobodyIsDisturbed | src/sparselab/owned_process.py:81-120 | without a signal, deadline, exception or refused listing, nobody is signalled before the command has exited |
| Supervision.FoundIsRemembered | src/sparselab/operational_monitor.py:470-490 | whoever a poll finds is remembered under the identity it has |
| Supervision.CleaningSignalsAll | src/sparselab/owned_process.py:112-127 | each cleanup round signals everybody it found, TERM first and KILL once the grace is over, and ends exactly when nobody is found or the time is up |
| Supervision.SignalledIsMonitorError | src/sparselab/operational_monitor.py:1254-1280 | a command with a negative code, one that a signal killed, is a MONITOR_ERROR whatever it left |
| SummarySize.Finish | src/sparselab/lab_job.py:522-543 | the rewriting loop ends; its record states file bytes plus its own encoding, the size check and PASS accordingly; it is the least such record; on the way the size never fell and the check never recovered |
| StorageProjection.Project | src/sparselab/operational_monitor.py:845-909 | for all inputs the sixteen rounds suffice; the receipt states exactly the bytes its two encodings add, carries the given violations on in order, adds each exceeded limit once, and has the status that follows |
| StorageProjection.ReceiptConverges | src/sparselab/operational_monitor.py:867-908 | for all inputs the seventh round repeats the sixth |
| StorageProjection.StatedMovesOneWay | src/sparselab/operational_monitor.py:867-908 | the stated bytes only rise or only fall from round to round |
| StorageProjection.FixedPointIsExact | src/sparselab/operational_monitor.py:868-907 | a receipt that a round leaves unchanged is exact |
| ReceiptText.PendingIsText | src/sparselab/operational_monitor.py:867-873 | the bytes charged for a receipt are the lengths of its compact and its indented text |
| ReceiptText.SummaryIsText | src/sparselab/lab_job.py:522-543 | likewise for the summary |
| ResultPublication.StepKeeps | src/sparselab/result_publication.py:19-64 | every publisher's action, failure and crash keeps the invariant |
| ResultPublication.AbsentOrComplete | src/sparselab/result_publication.py:41-50 | the destination is absent or holds all of one publisher's synced bytes |
| ResultPublication.OneWinner | src/sparselab/result_publication.py:49-55 | between crashes exactly one publisher wins |
| ResultPublication.NeverReplaced | src/sparselab/result_publication.py:19-31 | without a crash a published destination keeps its file and bytes |
| ResultPublication.DurableForever | src/sparselab/result_publication.py:56-62 | once the path is durable no continuation, crashes included, changes the destination |
| ResultPublication.ReturnIsDurable | src/sparselab/result_publication.py:32-58 | on a normal return or FileExistsError the destination's entry is durable, and the whole path is if and only if the ancestors found in place are |
| ResultPublication.ReturnSurvives | src/sparselab/result_publication.py:25-31 | then the published bytes survive every continuation |
| ResultPublication.FoundDurableSuffices | src/sparselab/result_publication.py:32-62 | if the ancestors are durable when the call finds them, then whatever others do until it returns the whole path is durable then, and no continuation takes the file away |
| ResultPublication.UndisturbedPublishes | src/sparselab/result_publication.py:32-64 | an undisturbed publisher that finds its directory and a free destination publishes |
| PublicationProgress.UndisturbedEnds | src/sparselab/result_publication.py:32-64 | from every reachable state an undisturbed call makes and syncs exactly the missing directories, and publishes if the destination is free; otherwise it reports that it exists and leaves it as it is |
| PublicationProgress.AbsentBecomesDurable | src/sparselab/result_publication.py:32-40 | whatever others do, a directory that is missing once the call has looked is durable when the call returns |
| ResultPublication.ReturnCanBeLost | src/sparselab/result_publication.py:32-40 | two publishers and a fresh directory: one returns and a crash loses what it published |
| Mersenne.PrimeIsPrime | src/sparselab/address_hash.py:15-29 | 2**31 - 1, the modulus of the mixed field, is prime |
| Recurrence.StepIsInjective | src/sparselab/address_hash.py:5-9 | a step of the recurrence is injective on addresses exactly when multiplier and modulus are coprime |
| Recurrence.OneTokenDecides | src/sparselab/address_hash.py:65-87 | with a coprime multiplier, keys that differ in one token collide exactly if the tokens are congruent |
| AddressHash.TokenNgramAddress | src/sparselab/address_hash.py:82-87 | the fold over the key, newest first, with the error cases of head and table size |
| AddressHash.LegacyIsAHashExactlyWhereUsed | src/sparselab/address_hash.py:51-57 | the guard admits v1 if and only if its step is injective on rows |
| AddressHash.LegacyKeysCollide | src/sparselab/address_hash.py:5-9 | where v1 is used, keys that differ in one token share a row if and only if the tokens are congruent modulo the table size |
| AddressHash.LegacyFoldIsBijective | src/sparselab/address_hash.py:5-9 | where v1 is used, folding any key permutes the rows |
| AddressHash.LegacyWouldReadOneToken | src/sparselab/address_hash.py:10-14 | where the table size divides the multiplier, v1 is the oldest token modulo the table size |
| AddressHash.MixedStepLosesNothing | src/sparselab/address_hash.py:71-72 | the mixed step can be undone if and only if the modulus does not divide the multiplier |
| AddressHash.SmallHeadsMix | src/sparselab/address_hash.py:28-30 | so it can for every head below 521984201 |
| AddressHash.FirstHeadThatForgets | src/sparselab/address_hash.py:71-72 | at head 521984201 the running address is the last token plus one |
| AddressHash.MixedKeysCollide | src/sparselab/address_hash.py:65-79 | before the reduction, mixed keys that differ in one token collide if and only if the tokens are congruent modulo 2**31 - 1, or that modulus divides the head's multiplier and a later token follows |
| AddressHash.PlaceReachesExactly | src/sparselab/address_hash.py:14-16 | exactly the rows a token at a given place of a key can steer it to: under v1 all of them; under v2 all below 2**31 - 1, or, where that modulus divides the head's multiplier and a later token follows, the one row that token fixes |
| AddressHash.RowInTable | src/sparselab/address_hash.py:75-87 | rows lie in the table if and only if the key is not empty, the scheme is mixed, or head + 1 is below the table size |
| AddressHash.EmptyKeyLeavesTheTable | src/sparselab/address_hash.py:60-62 | the empty key in a table of one row gets address 1 |
| AddressWidth.SixtyTwoBitsExactly | src/sparselab/address_hash.py:18-19 | for every table and head, no sum on the way to the address of any key of tokens below 2**31 reaches 2**62, if and only if the largest start or row times the multiplier, plus the largest token and the offset, does not |
| AddressWidth.MixedIsNarrowExactly | src/sparselab/address_hash.py:71-72 | under v2 that is so exactly for the heads up to 521984202 |
| AddressWidth.SmallTablesStayBelow | src/sparselab/address_hash.py:18-19 | with at most 2**31 rows it is so for all of those heads, whatever the scheme |
| AddressWidth.SixtyFourBitsSuffice | src/sparselab/address_hash.py:18-19 | where it is so, wrapping 64-bit arithmetic gives the same address |
| AddressHash.MixedByteAddress | src/sparselab/address_hash.py:99-106 | the v2 byte address, with its error case |
| AddressHash.MixedBytesDiffer | src/sparselab/address_hash.py:99-106 | strings that differ in one byte never share a mixed address before the reduction |
| ByteHash.ComputeHash | src/sparselab/data/byte_hash.py:44-49 | the loop computes the base-257 hash |
| ByteHash.TableAddress | src/sparselab/data/byte_hash.py:57-68 | the row under the scheme in use, with its error case |
| ByteHash.HashIsInjective | src/sparselab/data/byte_hash.py:44-49 | no two byte strings, of whatever lengths, share an unreduced hash |
| ByteHash.HornerIsFold | src/sparselab/data/byte_hash.py:44-49 | reducing once at the end agrees with the recurrence that reduces at every step |
| ByteHash.LegacyBytesCollide | src/sparselab/data/byte_hash.py:57-68 | under v1, strings that differ in one byte share a row if and only if the bytes are congruent modulo the table size |
| ByteHash.LegacyWouldUseRowZero | src/sparselab/data/byte_hash.py:60-63 | v1 would send every string to row 0 if and only if the table size divides 257 |
| ByteHash.LegacyWouldUseFewRows | src/sparselab/data/byte_hash.py:60-63 | for a multiple of 257, v1 would use only rows that are multiples of 257 |
| AddressIdentity.TokensUnchangedExactly | src/sparselab/address_hash.py:51-57 | over the keys of any one order of at least two and any vocabulary of at least 260 tokens, a head that is below 517838480 or shares a factor of at least 8291443 with the table size keeps v1 if and only if no row differs from what the old code computed; any other head does over more than 2**31 - 1 tokens |
| AddressIdentity.LargeHeadMayAgree | src/sparselab/address_hash.py:51-79 | one head alone needs that condition: at head 521984282 a table of three rows uses v2 and no key of two out of 260 tokens has another row than under v1 |
| AddressIdentity.BytesUnchangedExactly | src/sparselab/address_hash.py:90-96 | byte tables keep v1 if and only if no row of the strings of any one length differs |
| AddressIdentity.MarkedExactlyWhenChanged | src/sparselab/address_hash.py:114-147 | for every table size, number of heads, orders and vocabulary that a configuration may have, it gets an identity marker if and only if the row of some key that its tables read has changed |
| AddressIdentity.MarkersAgree | src/sparselab/address_hash.py:138-159 | the n-gram identity and the token addressing marker are absent together and otherwise name the same schemes |
| Documents.Checker.Finite | src/sparselab/documents.py:118-141 | a success adds the value's containers to the completed order, children before parents, and restores the active set; a failure names a field where it is so |
| Documents.CheckDocument | src/sparselab/documents.py:115-144 | accepts if and only if no field leads to a non-finite number and no field passes one container twice; a refusal names such a field; no container is entered twice |
| Documents.Descends | src/sparselab/documents.py:131-141 | every step down from a completed value moves strictly forward in the order of completion |
| Archive.Inventory.Add | src/sparselab/archive.py:58-66 | adds one file, or fails with the first error that applies and changes nothing |
| Archive.Inventory.IndexDependencies | src/sparselab/archive.py:148-213 | ends on every reference graph and does to the inventory what the events of the closure do one after another |
| Archive.CycleMetExactly | src/sparselab/archive.py:158-163 | the walk meets a cycle if and only if some path from the root repeats an identity |
| Archive.EventsAreDue | src/sparselab/archive.py:161-213 | off cycles, the walk asks for exactly the files of each index on each path under that path's name, shared siblings included |
| Archive.ClosureIsExact | src/sparselab/archive.py:148-213 | success if and only if there is no cycle, every file due is safe and regular and no two claim one name; then the inventory holds exactly the old entries and the files due, each with a role that something due gives it |
| Archive.CycleIsReported | src/sparselab/archive.py:158-160 | the cycle error only where there is a cycle, and there always unless something else fails |
| WorkspaceSample.SampleTree | src/sparselab/operational_monitor.py:276-307 | whatever order directories list in: one entry for each path short of foreign directories, and the sum of file sizes with each multiply linked regular inode charged once; the deadline error exactly when the clock says so at one of the paths |
| WorkspaceSample.HardLinkIsFree | src/sparselab/operational_monitor.py:295-303 | one more name for a counted file, which raises the link count under all its names, is one more entry and no more bytes, be it the second name or a later one |
| MemoryEstimate.EstimateIsSound | src/sparselab/memory.py:224-290 | the peak is the sum of the categories, also when calibrated; the verdict is a fit if and only if a physical ceiling is known and it and the budget hold the peak |
| MemoryEstimate.VerdictIsExact | src/sparselab/memory.py:63-105 | all three verdicts from the readings of the host's own backend, the share and the budget |
| MemoryEstimate.ActivationsAsStated | src/sparselab/memory.py:196-219 | retained activations in terms of batch, length, widths and layers, with and without checkpointing |
| MemoryEstimate.WorkingAsStated | src/sparselab/memory.py:204-227 | likewise attention and workspace |
| MemoryEstimate.CalibrationCovers | src/sparselab/memory.py:373-388 | an estimate calibrated by a native peak under the same settings is at least that peak |
| MemoryEstimate.AdafactorNeedsLess | src/sparselab/memory.py:112-149 | Adafactor never raises the peak over AdamW |
| MemoryEstimate.SmallerBatchNeedsLess | src/sparselab/memory.py:197-237 | fewer or shorter sequences never raise the peak |
| MemoryEstimate.CheckpointingLowersExactly | src/sparselab/memory.py:216-223 | checkpointing lowers the peak if and only if there are two or more layers, and raises it if and only if there is one |
| MemoryEstimate.HalfBatchPaysForCheckpointing | src/sparselab/memory.py:216-223 | for one layer, half the micro-batch with checkpointing needs no more than the whole without |
| MemoryPlanner.Planner.Consider | src/sparselab/memory.py:517-534 | adopts a proposal with its own estimate and records the two peaks, unless it is the candidate or the schema rejects it |
| MemoryPlanner.Planner.GrowMicrobatch | src/sparselab/memory.py:592-605 | the largest divisor above the present micro-batch that fits, if any does |
| MemoryPlanner.Planner.ShrinkToFit | src/sparselab/memory.py:625-644 | the largest smaller divisor that fits, or else 1 |
| MemoryPlanner.Planner.ShortenToFit | src/sparselab/memory.py:656-677 | the longest allowed shorter length that fits, or else the shortest |
| MemoryPlanner.Planner.ChangeOptimizer | src/sparselab/memory.py:690-730 | only lowers the peak; unless the result fits, no allowed optimizer would need less |
| MemoryPlanner.PlanMemory | src/sparselab/memory.py:481-746 | whatever the policy: the effective batch and the model are kept, lengths and optimizers come from the allowed lists, the estimate is sound and belongs to the returned configuration, the recorded peaks link up and every changed setting is named; each policy's own promise; it fails only if the schema rejects something it may propose |
| MemoryPlanner.SmallestNeedsMoreExactly | src/sparselab/memory.py:536-568 | micro-batch 1 with checkpointing needs more than the given configuration if and only if that has one layer, micro-batch 1, checkpointing off and an engine that supports it |
| MemoryPlanner.PeakRisesExactly | src/sparselab/memory.py:570-746 | given an estimate no lower than the plain one, `low_memory` raises the peak if and only if that condition holds, `balanced` if and only if it holds and the given estimate does not fit, and `max_fit` only then |
| HostCapacity.PlanIsLargestThatFits | src/sparselab/host_capacity.py:55-107 | a worker count is within the plan if and only if it is within processors, cap and measured memory after the reserve; unmeasured memory admits one small hashing worker |
| HostCapacity.RefusalsAreExact | src/sparselab/host_capacity.py:65-94 | each of the three errors is given exactly for its own reason |
| HostCapacity.ShaPlanIsSerial | src/sparselab/host_capacity.py:110-121 | the default hashing plan is one worker, unless measured memory is below 8 MiB and the larger of 1 GiB and a tenth of the total |
| OrderedRun.RunOrdered | src/sparselab/host_capacity.py:124-161 | whatever the threads do, the consumer sees what mapping one after another shows, up to the first failure, the window of a raising iterator or its own close; at most `workers` tasks are ever submitted and not consumed; afterwards every task is done or cancelled |
| OrderedRun.FirstFailureIs | src/sparselab/host_capacity.py:134-137 | everything before the first failure succeeds, and there the worker raises |
| OrderedRun.WorkersShowExactly | src/sparselab/host_capacity.py:124-157 | a consumer sees the same from two worker counts if and only if the iterator does not raise, the counts agree once cut at one past the number of items, or a failing worker or the consumer's own close comes inside the smaller of the two windows |
| OwnedCopy.Copy.Native | src/sparselab/owned_copy.py:80-91 | done only when every byte has arrived; otherwise file and offsets are arbitrary and the reports still rise |
| OwnedCopy.Copy.Fallback | src/sparselab/owned_copy.py:99-112 | short reads and writes notwithstanding, a return means that every byte has arrived |
| OwnedCopy.Copy.Transfer | src/sparselab/owned_copy.py:67-112 | on return the output is the first `length` bytes, by the native call exactly where there is one and it never failed; an error is the one that was met; reports rise strictly through both phases, never pass `length` and end at it |
| BatchCandidates.Divisors | src/sparselab/batch_calibration.py:23-26 | the square-root loop with co-divisors finds exactly the divisors |
| BatchCandidates.NearerExactly | src/sparselab/batch_calibration.py:27 | the ranking, in whole numbers: the ratios of larger to smaller size multiplied out, ties to the smaller size |
| BatchCandidates.OriginalIsNearest | src/sparselab/batch_calibration.py:27-29 | the original ranks before every other size, so adding it never enlarges the selection |
| BatchCandidates.BatchCandidates | src/sparselab/batch_calibration.py:18-30 | ascending divisors of the effective batch, the original among them, as many as asked for or exist, and everything left out ranks behind everything kept |
| BatchCandidates.ProposalIsUnique | src/sparselab/batch_calibration.py:27-30 | that description determines the result |

## Left out

- Bytes of JSON, YAML, TAR and SHA-256: records are values, digests are equality of values, and the two size loops use the length of the encodings as a function of digits and variants.
- Power loss inside the runner and the job store: their records are durable once written, and a torn record is one that a killed process left. Loss of unsynced data is modelled in `ResultPublication` only.
- The name of the temporary in `write_bytes_exclusive`: making and removing it are steps that may fail, and it is nobody's destination.
- Ownership and mode tests of `_safe`: an unsafe file is a step that fails.
- Editing of records, receipts or run directories by others: only the lock file is replaced from outside.
- The comparison of monitor and owned receipts in `_verify_prior_runs`: a run is verified when its pending and completion records are; the decision behind the receipts is in `Supervision`.
- The individual gates, source tests and file listing of `collect`: one verdict `passed` and one conjunction of other checks enter `SummarySize`.
- `_record` reads three files; the model reads them in one step. Each is written once, and the model keeps the order in which they appear.
- Signals reach a process between two file-system actions only, and the handler's masking of repeated signals is not modelled.
- Process listings are taken in one instant, in which a process shows, has vanished or denies access; forks, exits and pid reuse while one listing is being read are not modelled.
- The wording and clocks of the supervisor: deadlines are conditions that hold or not at each poll.
- StorageProjection.Project: starts after the workspace has been sampled; the branch that turns a sampling failure into MONITOR_ERROR is not modelled.
- The retry loop `sample_workspace_tree` and trees that change while they are walked.
- Copy-on-write clones, hashing and publication around `_transfer` in `owned_copy.py`.
- MemoryEstimate.EstimateIsSound: `0.15`, `0.1`, the device fraction and the calibration ratio are exact fractions and reals, where the source rounds binary floating point.
- BatchCandidates.BatchCandidates: sizes are ranked by the exact ratio, where the source compares rounded logarithms.
- MemoryPlanner.PlanMemory: schema validation is a parameter that accepts or rejects a configuration; texts and extra fields of decisions are left out, and of the remarks that change nothing the contract says only that.
- HostCapacity.PlanIsLargestThatFits: observation errors of the operating system are absent values.
- OrderedRun.RunOrdered: workers are functions of their item; two runs of one item cannot differ.
- Archive.Inventory.IndexDependencies: names are sequences of parts; the identifiers of a suite and the file names are taken to contain no slash, and an index that fails to verify is one the store does not hold.
- Documents.CheckDocument: the reader that builds the document, and its rejection of duplicate keys; a child is named by its position where the source prints keys.
- The one-branch field checks of the schemas, the command lines, benchmarks, campaigns, model and tensor code, and the `_verify_*` equality tests of `archive.py`.
