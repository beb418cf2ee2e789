# Verification of the qwe workflow kernel

qwe runs workflows: jobs with needs between them, each a list of steps, on one
event loop. This project models the parts of the kernel whose correctness is
decided by its own code and proves what they guarantee for every input, every
run and every interleaving. `dafny verify dfyconfig.toml` checks all of it.

Four parts, each a pure specification with its theorems, and beside it the
code's own loops and in-place updates proved against that specification.

**The job lifecycle and the shell that drives it** (`Lifecycle`, `Shell`,
`ShellSafety`, `ShellProtocol`, `ShellResults`, `ShellHistory`, `ShellStory`,
`ShellRuns`, `ShellHears`, `ShellReach`, `Handlers`, `Tags`). The transition table composed with the shell's unbounded
state: step cursor, live step, reaping, told flags, an owed follow-up, three
one-shot timers. The outside world is a relation (`Shell.Possible`): a timer is
reported until it is read, or late with the tag of an ended step; a leader exits once;
a group is empty only after its leader is reaped; a cancel comes at any time.

**The scheduler, the graph check and the run loop** (`Dag`, `Select`, `Sched`,
`SchedFacts`, `Engine`, `EngineRuns`, `EngineSchedules`, `RunLoop`, `Setup`, `Workflow`). From the depth-first
search to the claim that the loop's "neither finished nor runnable" branch is
never taken, also after a selection with `--job`. The engine drives the in-place
shells of the first part.

**The output pipeline** (`Bytes`, `Redact`, `RedactFacts`, `RedactLeaks`,
`RedactStars`, `RedactSteps`, `Ring`, `Sink`, `Pipeline`). A streaming matcher, a wrapping ring and a line
splitter, each against a sequence specification, and then joined.

**The YAML edge** (`Pointer`, `Scalars`, `Yaml`, `YamlTree`, `YamlSyntax`,
`Transcode`, `Decode`, `DecodeFacts`, `Edge`, `Positions`, `TreePositions`, `Preamble`). Documents are trees; the
machine's table and items are compared with the tree's own, decoding with what
the tree denotes. CBOR is an abstract item stream with indefinite-length containers
(section 3.2 of RFC 8949) and tags (section 3.4); pointers follow sections 3 and 4 of RFC 6901.

## Where the code falls short of the simple statement

Each is a lemma with a concrete input or family, and a lemma with the exact condition.

- Redaction depends on the chunking as soon as one secret is a proper prefix of
  another (`PrefixesBreakChunking`, `ChunkingExactly`).
- The final flush can put out a secret that stands inside the held beginning of
  another one, so the stream is not always the leftmost replacement
  (`FlushLeaksExactly`, `ReplacementExactly`).
- Each step is flushed on its own, so a secret written half by one step and half by
  the next is spelled in the log (`SplitSecretIsSpelled`, `JobLogExactly`).
- A variable named `qwe_l` or `qwe_v` is accepted by the preamble but unset before
  the script starts (`ReservedNameIsLost`, `ReachesTheScript`).
- A secret that starts or ends with a star, or contains the mask, can be spelled
  by a mask in the output (`StarsExactly`).
- A key repeated over a map, a list and a map can give one pointer an unkeyed row
  between two keyed ones, and then the sort's comparison is no order
  (`RepeatsBreakTheOrder`, `OrderExactly`). The duplicate report does not depend on it (`ReportsExactly`).
- Asked for the key of a list element or of the root, `locate` passes over the
  node's own row (`LocatesInDocument`).
- Event tags have 24 bits of step (`FarStepsCollide`, `TagComesBackExactly`).
- A session cap of zero would stop a run, and so would a loop of needs
  (`StuckExactly`); the inventory schema asks for at least one session and validation refuses loops.

## Model

| member | source | states |
|---|---|---|
| `Lifecycle.TableMatchesModel` | src/kernel/lifecycle_model.c:68-109 | the 21 by 14 table has a decision exactly for the (state, event) pairs the stated event model allows |
| `Lifecycle.StateRanges` | src/kernel/lifecycle.c:242-255 | the state predicates are the ranges of the enumeration the code compares |
| `ShellSafety.LookupRow` | src/kernel/lifecycle.c:289-317 | what a lookup of a coherent job gives: next state, reason and actions, row by row; never an abort for an event the model allows |
| `ShellRuns.DispatchKeepsSound` | src/kernel/workflow.c:1171-1209 | one dispatched event keeps every invariant of the job: cursor, timers, told flags, effects, recorded steps, history, transition bound |
| `ShellRuns.OwedComesToRest` | src/kernel/workflow.c:1230-1250 | two owed events are all there ever are: after them no follow-up is owed and the job is not between steps |
| `ShellRuns.HandleKeepsSound` | src/kernel/workflow.c:1375-1442 | every handler, for every input the outside world can produce and every answer it can give, keeps all invariants, comes to rest, and changes the state only the ways listed |
| `ShellSafety.EveryHandlerReactsWell` | src/kernel/workflow.c:1375-1442 | whatever a handler sends to a job at rest, the table decides it or the stale filter drops it, and the facts the table takes for granted hold |
| `ShellRuns.RunsAreSound` | src/kernel/workflow.c:1375-1442 | every run of one job from its start keeps all of this |
| `ShellRuns.NoRunAborts` | src/kernel/lifecycle.c:51-180 | in no run does a lookup reach an impossible cell; the invariant ties grace, reaping, told flags and live step to the state |
| `ShellRuns.RunsAreBounded` | src/kernel/lifecycle.c:51-180 | a job of n steps makes at most 5n + 4 transitions in any run |
| `ShellHistory.RankFalls` | src/kernel/lifecycle.c:51-180 | every transition lowers a measure of remaining steps and phase; an ignored event does not move |
| `ShellRuns.LateEventsChangeNothing` | src/kernel/workflow.c:1410-1442 | a step or grace timer event tagged with a step that is not live changes nothing but the trace |
| `ShellRuns.EveryStepTornDownOnce` | src/kernel/workflow.c:978-1127 | in every run each step the cursor has passed has one recorded outcome and one finish; if spawned, one SIGTERM, one grace arming, at most one SIGKILL and one group found empty; the order is the protocol automaton's; later steps are untouched |
| `ShellRuns.EverySpawnWaits` | src/kernel/workflow.c:1205-1208 | in every run, when a step is spawned, every step before it has been recorded and finished, and the groups of those that were spawned have been found empty |
| `ShellProtocol.SpawnWaits` | src/kernel/lifecycle.c:68-173 | the protocol automaton lets a step be spawned only then |
| `ShellProtocol.Tallies` | src/kernel/lifecycle.c:68-173 | whatever effects the protocol automaton accepts add up, step by step: SIGTERM, grace, SIGKILL only after both, one record, then the next step |
| `ShellRuns.EndedJobsAccountForEveryStep` | src/kernel/workflow.c:1097-1127 | a started job that ended has one outcome per step: the steps the cursor passed ran, the others are skipped |
| `ShellRuns.StepsAreTheirStory` | src/kernel/workflow.c:1097-1107 | in every run the recorded step results are what the events alone say: the first deciding event decides, an exit after the step's own timeout is a failure by timeout; steps beyond are unset, or skipped once the job has ended |
| `ShellRuns.ExitReasonIsKept` | src/kernel/workflow.c:1375-1405 | a step that failed by its leader's exit has the reason that came with the exit |
| `ShellRuns.OutcomeIsItsHistory` | src/kernel/lifecycle.c:51-180 | a job's final state and reason are one function of its trace and its continue-on-error flags: cancel, then job timeout, then the scheduler's skips, then a failed start or spawn, otherwise the last decided step |
| `ShellRuns.StepsDecideTheJob` | src/kernel/workflow.c:1097-1107 | success means every step succeeded or failed with continue-on-error; a failing job failed at its last decided step, for exactly that step's reason, despite earlier forgiven failures |
| `ShellRuns.StopsComeFirst` | src/kernel/workflow.c:1212-1226 | between steps a cancel, else a job timeout, ends the job as cancelled with that reason; otherwise the step at the cursor is tried, or the job succeeds |
| `ShellRuns.StopsSpawnNothing` | src/kernel/workflow.c:1212-1226 | a stop between steps leaves the next step untouched: nothing spawned, signalled or recorded |
| `ShellHears.StepTimeoutIsHeard` | src/kernel/workflow.c:1410-1442 | for every job at rest: an armed step timer that runs out takes a running step to stopping, and its tally then shows one SIGTERM and one grace arming, nothing recorded |
| `ShellHears.GraceIsHeard` | src/kernel/workflow.c:1410-1442 | a grace timer that runs out takes a stopping or an unkilled settling step to its killed form, with exactly one SIGKILL |
| `ShellHears.JobTimeoutIsHeard` | src/kernel/workflow.c:1410-1442 | a job timer that runs out while any step is in flight leaves the job settling as timed out, or as cancelled if it had heard a cancel, with the step torn down and recorded once |
| `ShellHears.SpawnArmsTheTimer` | src/kernel/workflow.c:978-1060 | a spawned step has its timer armed exactly if it has a timeout, and a fresh grace timer |
| `ShellHears.StartArmsTheTimer` | src/kernel/workflow.c:719-764 | a started job has its timer armed exactly if it has a timeout |
| `ShellHears.EarlyTimersAreQuiet` | src/kernel/workflow.c:1410-1442 | a timer that has not run out changes nothing |
| `ShellHears.SettledTimeoutIsNoted` | src/kernel/workflow.c:1410-1442 | a step timer that runs out on a settling step is read and traced, and nothing else changes |
| `ShellHears.ExitIsHeard` | src/kernel/workflow.c:1375-1405 | a leader's exit leaves the step settling, with the verdict that its state, the exit and continue-on-error give |
| `ShellHears.EmptyIsHeard` | src/kernel/workflow.c:1375-1405 | an empty group ends a failed, timed-out or cancelled step's job, in that state and for that reason |
| `ShellHears.StepAfterStep` | src/kernel/workflow.c:1212-1250 | an empty group of a step that lets the job go on: a stop if there is one, else the next step running with its timer, its failed spawn as the job's failure, or success past the last |
| `ShellHears.GrantIsHeard` | src/kernel/workflow.c:1212-1250 | a slot granted: a failed start fails the job, otherwise the same of its first step |
| `ShellHears.VerdictIsHeard` | src/kernel/workflow.c:1668-1673 | the scheduler's word makes a pending job ready, or skips it for a failed dependency |
| `ShellHears.CancelIsHeard` | src/kernel/workflow.c:1446-1459 | a cancel skips a job that waits and tears down a step in flight, in every state that is not final |
| `ShellReach.EveryRunCanEnd` | src/kernel/workflow.c:1375-1442 | from wherever a run of a started job is, the outside world can bring it to its end |
| `ShellReach.EveryPlanCanSucceed` | src/kernel/workflow.c:1212-1250 | the environment model is not empty: for every plan there is a run through all its steps that ends in success |
| `Handlers.SlotsArePerformed` | src/kernel/workflow.c:1129-1167 | running a cell's four action slots in order is the one combined update of the value model |
| `Handlers.JobShell.SkipUnrun` | src/kernel/workflow.c:1110-1127 | exactly the steps from the cursor on become skipped |
| `Handlers.JobShell.JobEnd` | src/kernel/workflow.c:1110-1127 | the live step is finished, what never ran is skipped, the job timer is closed |
| `Handlers.JobShell.JobSend` | src/kernel/workflow.c:1230-1250 | the loop ends after at most two owed events, in the state the value model gives, at rest |
| `Handlers.JobShell.Tell` | src/kernel/workflow.c:1446-1459 | scheduler events, the skip of a disabled target, and a cancel told once, leave the job at rest with all invariants |
| `Handlers.JobShell.LeaderExited` | src/kernel/workflow.c:1375-1405 | a leader's exit is told once, for the live step, and not again after it is reaped |
| `Handlers.JobShell.GroupEmptied` | src/kernel/workflow.c:1375-1405 | an empty group is told only after its leader was reaped |
| `Handlers.JobShell.StepTimerEvent` | src/kernel/workflow.c:1410-1442 | a step timer is read only while it is open; a late event is dropped by its tag; the result is the value model's, which hears every expired timer (ShellHears.StepTimeoutIsHeard) |
| `Handlers.JobShell.GraceTimerEvent` | src/kernel/workflow.c:1410-1442 | the same of the grace timer |
| `Handlers.JobShell.JobTimerEvent` | src/kernel/workflow.c:1410-1442 | a job timeout is told once while the timer is open, and is dropped once the job is final |
| `Handlers.JobShell.Receive` | src/kernel/workflow.c:1375-1459 | whatever the event loop has for a job, handled in place: the value model's handler, and all invariants again; this is what the engine drives |
| `Tags.TagComesBackExactly` | src/kernel/workflow.c:397-400 | a tag gives its job and step back if and only if the job is below 2^32 and the step below 2^24 - 1 |
| `Tags.Unpacked` | src/kernel/workflow.c:1695-1706 | what the loop unpacks from any tag: the kind whole, job and step modulo their widths |
| `Tags.FarStepsCollide` | src/kernel/workflow.c:397-400 | steps 2^24 apart have the same tag, so past that bound a late event can pass for a live one |
| `Dag.Find` | src/kernel/dag.c:8-16 | the first job with the id, or -1 |
| `Dag.Search.CloseCycle` | src/kernel/dag.c:30-62 | the stack from the repeated job to the top is a cycle of needs |
| `Dag.Search.Visit` | src/kernel/dag.c:30-62 | the search returns a real cycle on the stack, or extends a topological order by the job; it ends on the number of white jobs, and the stack never exceeds n |
| `Dag.Check` | src/kernel/dag.c:64-108 | accepted if and only if every need is known and the graph has no cycle; a rejection names the first unknown need or a real cycle; an acceptance has a topological order of all jobs |
| `Dag.OrderedIsAcyclic` | src/kernel/dag.c:64-108 | a graph with a topological order of all jobs has no cycle |
| `Select.SelectJobs` | src/kernel/workflow.c:1722-1769 | the list in place becomes the chosen jobs and everything reachable through needs, in the original order; an unknown id changes nothing; the fixpoint ends |
| `Select.MarkNeeded` | src/kernel/workflow.c:1722-1769 | the fixpoint ends on the number of unkept jobs with a set closed under needs that has nothing unreachable |
| `Select.Compact` | src/kernel/workflow.c:1722-1769 | the in-place compaction leaves exactly the kept jobs, in order |
| `Select.KeptInOrder` | src/kernel/workflow.c:1722-1769 | the list kept is the marked jobs, all of them, each once and in the order they stood |
| `Select.SelectionIsSound` | src/kernel/workflow.c:1722-1769 | every need of a kept job is still in the list, and the selection has no cycle |
| `Sched.GroupUsed` | src/kernel/sched.c:4-16 | running jobs of the group plus grants already made to it |
| `Sched.SchedPass` | src/kernel/sched.c:18-61 | the loops compute the pass: resolved needs first, and only if there are none, grants |
| `SchedFacts.PassIs` | src/kernel/sched.c:18-61 | a pass is the resolutions if any job is resolvable, and the grants otherwise |
| `SchedFacts.ResolvableMeans` | src/kernel/sched.c:18-61 | a job is told of its needs exactly if it is pending and each need has ended; they are met exactly if each ended in success |
| `SchedFacts.RunningIs` | src/kernel/sched.c:4-16 | the counts the pass compares are the numbers of running jobs, in all and of a group |
| `SchedFacts.GrantsExactly` | src/kernel/sched.c:18-61 | in numbers, for every job: it is granted a slot if and only if it is ready, fewer jobs than the limit are running or granted before it, and fewer of its group than the cap |
| `SchedFacts.ResolvedExactly` | src/kernel/sched.c:18-61 | exactly the pending jobs whose needs are all final are told, once each, in order, met exactly if all succeeded |
| `SchedFacts.GrantsFit` | src/kernel/sched.c:18-61 | grants never take the parallel limit or a group over its cap |
| `SchedFacts.GrantsAreMaximal` | src/kernel/sched.c:18-61 | a ready job left waiting: the running and the granted jobs together are at least the limit, or those of its group at least its cap |
| `SchedFacts.QuietPass` | src/kernel/sched.c:18-61 | when a pass returns nothing, no pending job is resolvable, and for every ready job the running jobs alone are at least the limit, or those of its group at least its cap |
| `SchedFacts.QuietMeansDoneOrRunning` | src/kernel/workflow.c:1683-1692 | in any states at all: with no loop of needs and every cap in use at least 1, a quiet scheduler means every job is final or some job is running |
| `SchedFacts.RankedHasNoLoop` | src/kernel/dag.c:64-108 | needs that lead down a rank have no loop |
| `Engine.InputKeepsSafe` | src/kernel/workflow.c:1661-1708 | handing one allowed input to one job keeps the whole run safe: limits, needs in success, every job's own invariants |
| `Engine.PassIsDeliverable` | src/kernel/workflow.c:1668-1673 | what a pass decides has at most one event a job, fits under the limits, and is right for the states it saw |
| `Engine.DeliverOne` | src/kernel/workflow.c:1668-1673 | after the first event of a pass is delivered, the rest are still right and still fit |
| `EngineRuns.EveryRunIsSafe` | src/kernel/workflow.c:1614-1717 | in every reachable state of every interleaving: no job aborted or is owed anything, no limit is exceeded, whatever is ready or has started has all its needs in success |
| `EngineSchedules.PassRuns` | src/kernel/workflow.c:1668-1673 | a whole pass can be delivered in any safe state, each event legal when its turn comes, whatever the handlers are answered; the waiting jobs come that much closer to their start |
| `EngineSchedules.ScheduleIsRun` | src/kernel/workflow.c:1661-1708 | a schedule of the loop (passes delivered whole, one outside event at a time and only on a quiet scheduler) is a run, and keeps everything safe |
| `EngineSchedules.EveryRunCanFinish` | src/kernel/workflow.c:1661-1708 | from every reachable state of a run without loops and with open groups, a schedule of the loop brings every job to its end |
| `EngineSchedules.StuckExactly` | src/kernel/workflow.c:1683-1692 | for any configuration, some schedule of the loop reaches a quiet state with nothing running and a job not final if and only if a cap in use is zero or some jobs need each other in a loop; and the same of any interleaving at all |
| `EngineRuns.EveryPassIsDeliverable` | src/kernel/workflow.c:1668-1673 | in every reachable state, the pass is deliverable event by event |
| `RunLoop.Loop.Send` | src/kernel/workflow.c:1230-1250 | one input to one job's shell object, whatever the outside world answers, keeps the run safe and changes no other job |
| `RunLoop.Loop.Deliver` | src/kernel/workflow.c:1668-1673 | exactly the events of a pass are delivered, in order, each still legal when its turn comes; the waiting jobs come strictly closer to their start |
| `RunLoop.Loop.BroadcastCancel` | src/kernel/workflow.c:1446-1459 | once requested, the cancel is handled by every job not yet told, no other job changes; the result says whether any was |
| `RunLoop.Loop.Quiesce` | src/kernel/workflow.c:1661-1673 | a broadcast first, then whole passes while the scheduler has something to say, a broadcast after them, and again until it reaches nobody; it ends, with a quiet pass and no job untold of a requested cancel |
| `RunLoop.Loop.SkipDisabled` | src/kernel/workflow.c:1516-1526 | exactly the jobs on disabled targets end skipped, for that reason; the others do not change |
| `RunLoop.Loop.HandleBatch` | src/kernel/workflow.c:1694-1708 | the events of the batch are heeded in order: each one possible in its turn is handled by its job and no other changes; a cancel signal makes the cancel requested |
| `RunLoop.SignalIsHeeded` | src/kernel/workflow.c:421-428 | a cancel that was requested, or signalled anywhere in the batch, is requested after it |
| `RunLoop.CancelReachesAll` | src/kernel/workflow.c:1661-1708 | after a batch with the operator's signal, every job has heard of the cancel at the next quiet moment |
| `RunLoop.Loop.RunBatches` | src/kernel/workflow.c:1661-1708 | round by round: the loop decides all there is to decide, ends if every job is final, else heeds the next batch; it never takes its internal-error branch |
| `RunLoop.Loop.RunAll` | src/kernel/workflow.c:1614-1717 | disabled jobs end skipped for that reason before the loop begins, then the loop over the batches; every change is a legal call of a handler; when it finishes every job is final |
| `Setup.BuildGroups` | src/kernel/workflow.c:1638-1657 | jobs share a group exactly if they share a remote target, local jobs have none, and a group's cap is its target's |
| `Setup.SameGroupSameTarget` | src/kernel/workflow.c:1638-1657 | group numbers are equal exactly when the targets are |
| `Setup.RankedConfig` | src/kernel/workflow.c:1638-1657 | a checked graph gives a well-formed configuration whose needs lead down a rank |
| `Workflow.RunJobs` | src/kernel/workflow.c:1614-1717 | a run of the list it was given: needs by index, one group a remote target with its sessions, the limit, each job's own plan, disabled jobs skipped first, then the loop |
| `Workflow.RunWorkflow` | src/kernel/workflow.c:1614-1769 | check, selection and run loop together: refused exactly for an unknown need, a cycle or an unknown chosen id; otherwise the run is of exactly the jobs the chosen ones reach, all if none is chosen, with their own needs, plans, groups, caps and the limit given, every step of it legal, and never stuck |
| `Redact.SecretSet.Add` | src/kernel/redact.c:17-35 | empty and known values change nothing; others are appended, so the set stays free of empty and repeated values |
| `Redact.FindMatch` | src/kernel/redact.c:79-87 | the longest secret at the place |
| `Redact.MatchIsLongest` | src/kernel/redact.c:79-87 | a match is a secret, and no longer one stands there |
| `Redact.MayStart` | src/kernel/redact.c:90-98 | whether the bytes are a proper prefix of a secret |
| `Redact.ScanBuffer` | src/kernel/redact.c:100-153 | the scan loop gives the output and held tail of the recursive scan |
| `Redact.Redactor.Feed` | src/kernel/redact.c:100-153 | a feed scans what was held followed by the input; with no secrets bytes pass untouched |
| `Redact.Redactor.Flush` | src/kernel/redact.c:155-161 | the held bytes come out and nothing is held |
| `RedactFacts.ChunkingIsIrrelevant` | src/kernel/redact.c:100-153 | when no secret is a proper prefix of another, feeding in any chunks is feeding the whole |
| `RedactFacts.PrefixesBreakChunking` | src/kernel/redact.c:79-87 | if one secret is a proper prefix of another, a stream cut after it comes out differently |
| `RedactFacts.ChunkingExactly` | src/kernel/redact.c:100-161 | the chunking never matters if and only if no secret is a proper prefix of another |
| `RedactFacts.ScanReplaces` | src/kernel/redact.c:100-153 | a feed's output is leftmost-longest replacement, up to the tail it holds |
| `RedactFacts.ScanBounds` | src/kernel/redact.c:100-153 | a feed gives at most three bytes for each and holds less than the longest secret |
| `RedactLeaks.FeedsNeverLeak` | src/kernel/redact.c:100-153 | for secrets that neither start nor end with a star nor contain the mask, no secret occurs in what the feeds put out, whatever the chunking |
| `RedactStars.StarsExactly` | src/kernel/redact.c:100-153 | for a single secret, the feeds never put it out if and only if it neither starts nor ends with a star nor contains the mask; otherwise a stream is given whose output spells it |
| `RedactLeaks.FlushLeaksExactly` | src/kernel/redact.c:155-161 | for secrets that neither start nor end with a star nor contain the mask: with the flush no stream leaks if and only if no secret stands inside a proper prefix of a secret that no secret starts |
| `RedactLeaks.NestingFreeIsFlushSafe` | src/kernel/redact.c:155-161 | a set in which no secret occurs inside another meets that condition |
| `RedactLeaks.StreamIsReplacement` | src/kernel/redact.c:100-161 | for prefix-free, flush-safe secrets any chunking with its flush is leftmost replacement on the whole stream |
| `RedactLeaks.ReplacementExactly` | src/kernel/redact.c:100-161 | for secrets that do not start with a star, every stream however cut is so replaced if and only if the set is prefix-free and flush-safe |
| `RedactSteps.JobLogExactly` | src/kernel/workflow.c:315-346 | for secrets that neither start nor end with a star nor contain the mask: no job spells a secret in its log, whatever its steps write, if and only if the set is flush-safe and every secret has a byte that is a secret by itself |
| `RedactSteps.SplitSecretIsSpelled` | src/kernel/workflow.c:338-346 | a lone secret of two bytes or more, split over two steps, is spelled in the log |
| `Ring.NothingIsLostUncounted` | src/kernel/ring.c:22-57 | over any sequence of operations on the bounded queue: bytes written are bytes read, held and dropped together; what is held is what went in last; with no drop they come out as they went in |
| `Ring.PutKeepsWhatFits` | src/kernel/ring.c:22-43 | a write drops no byte for which there is room, and counts the ones it drops |
| `Ring.TakeGivesTheOldest` | src/kernel/ring.c:45-57 | a read takes the oldest bytes, as many as asked for or all |
| `Ring.ByteRing.Perform` | src/kernel/ring.c:22-57 | any sequence of calls on a new ring: contents, drop count and everything read are the bounded queue's, and bytes written are bytes read, held and dropped together |
| `Ring.ByteRing.Write` | src/kernel/ring.c:22-43 | the contents become the longest suffix of old contents and data that fits; every lost byte is counted |
| `Ring.ByteRing.Read` | src/kernel/ring.c:45-57 | the oldest bytes come out in order and the rest stay |
| `Sink.LogSink.Write` | src/kernel/sink.c:59-77 | the log grows by the data and the terminal shows its complete lines, prefixed, whatever the chunking |
| `Sink.LogSink.EmitLine` | src/kernel/sink.c:44-57 | one prefixed line with its newline; the line buffer is empty again |
| `Sink.LogSink.Close` | src/kernel/sink.c:79-86 | an unfinished last line is ended once; a finished one adds nothing |
| `Sink.OneMoreByte` | src/kernel/sink.c:59-77 | a newline ends the line, any other byte extends it |
| `Sink.NothingYet` | src/kernel/sink.c:59-77 | an empty log shows nothing and has no unfinished line |
| `Sink.ClosingEndsTheLine` | src/kernel/sink.c:79-86 | closing shows what one more newline would have shown, if the last line had none |
| `Pipeline.Pipe.Emit` | src/kernel/workflow.c:299-313 | what went in and fits reaches the log, the rest is counted and announced; the ring is empty again |
| `Pipeline.Pipe.Drain` | src/kernel/workflow.c:318-336 | with secrets short enough for the ring, one read drops nothing and logs exactly the redacted bytes |
| `Pipeline.Pipe.DrainFlush` | src/kernel/workflow.c:339-346 | the held tail is logged and nothing is held |
| `Pipeline.RingIsBigEnough` | src/kernel/ring.h:9 | with the ring's capacity, no read can overflow it exactly for secrets of at most 283990 bytes |
| `Pipeline.Pipe.Step` | src/kernel/workflow.c:299-346 | a whole step's output: no byte dropped, the log grows by exactly the redacted stream, which is replacement on the whole stream, and free of secrets, when the set allows it |
| `Pipeline.Pipe.Job` | src/kernel/workflow.c:299-346 | a whole job's steps, each flushed: no byte dropped, the log is exactly their redacted streams in order, and has no secret in it where the set allows it |
| `Scalars.IsInt` | src/edge/yaml/transcode.c:156-168 | an optional sign and one to eighteen digits, and nothing else |
| `Scalars.IntFormIsGrammar` | src/edge/yaml/transcode.c:156-168 | that form is exactly an optional sign followed by one to eighteen digits |
| `Scalars.IntegersMean` | src/edge/yaml/transcode.c:208-241 | for every n, its decimal text with any sign and any leading zeros, up to eighteen digits, stands for n or its negative |
| `Scalars.SignsMean` | src/edge/yaml/transcode.c:208-241 | a minus negates and a plus changes nothing, before any digits |
| `Scalars.EveryNumberIsDecimal` | src/edge/yaml/transcode.c:208-241 | every text of digits is the decimal of some number after some zeros, so this covers every integer scalar |
| `Scalars.IsFloat` | src/edge/yaml/transcode.c:172-200 | the loops accept the scanner's form |
| `Scalars.FloatFormIsGrammar` | src/edge/yaml/transcode.c:170-200 | that form is exactly the documented grammar with a dot or an exponent |
| `Yaml.HandleKeepsStacked` | src/edge/yaml/transcode.c:285-354 | any event at all keeps the depth within 0 to 64, container pointers nested within the path, and the row of an awaited value in the table |
| `Yaml.AnyStreamStaysStacked` | src/edge/yaml/transcode.c:285-354 | and so does any stream of events |
| `Yaml.TakenIsNested` | src/edge/yaml/transcode.c:285-354 | a stream taken without a fault has matching starts and ends, and the open containers are its nesting |
| `YamlTree.ValueRuns` | src/edge/yaml/transcode.c:243-354 | a value within the limits is taken whole: its rows and items are added and the open containers step on by one |
| `YamlTree.DocumentRuns` | src/edge/yaml/transcode.c:69-152 | a document within the limits leaves exactly the preorder table of its nodes, with pointers, key and value positions, and its items |
| `YamlTree.PositionsCountFromOne` | src/edge/yaml/transcode.c:51-58 | the root's row has the empty pointer and its line and column counted from 1 |
| `YamlTree.EveryPairHasItsRow` | src/edge/yaml/transcode.c:69-152 | each key of a map has the row of its escaped token under the map, with the key's and the value's line and column, counted from 1 |
| `YamlTree.EveryElementHasItsRow` | src/edge/yaml/transcode.c:69-152 | each element of a list has the row of its index in decimal, counted from 0, with its line and column |
| `YamlTree.AcceptsExactly` | src/edge/yaml/transcode.c:285-354 | a document of plain features is accepted if and only if it nests at most 64 deep and has no merge key |
| `YamlSyntax.SupportedIsTree` | src/edge/yaml/transcode.c:269-354 | a supported document, whatever syntax it could have used, gives the events of its tree |
| `YamlSyntax.SupportedIsUntroubled` | src/edge/yaml/transcode.c:269-354 | what is supported is exactly what has no first trouble, in reading order |
| `YamlSyntax.StreamExactly` | src/edge/yaml/transcode.c:285-401 | a stream with any anchors, aliases, tags, keys and number of documents is accepted if and only if it is one document without anchors, aliases, foreign tags, tagged, merge or non-scalar keys, at most 64 deep; then it leaves that document's table and items; otherwise the fault is the first trouble of the stream, at its line and column |
| `Transcode.Transcoder.PathReset` | src/edge/yaml/transcode.c:113-116 | the path is the innermost container's pointer again |
| `Transcode.Transcoder.NoteValueAt` | src/edge/yaml/transcode.c:120-139 | the value's row is completed or added, the path is its pointer |
| `Transcode.Transcoder.TakeKey` | src/edge/yaml/transcode.c:141-152 | a key's row and item are added and the map awaits its value; a plain merge key is refused |
| `Transcode.Transcoder.EncodeScalar` | src/edge/yaml/transcode.c:208-241 | null, boolean, integer, float or text by the plain rules, an integer with its sign (Edge.IntegerDenotes); text otherwise; a secret is tagged text |
| `Transcode.Transcoder.OpenContainer` | src/edge/yaml/transcode.c:243-259 | the container is pushed with the path's length |
| `Transcode.Transcoder.ValueLands` | src/edge/yaml/transcode.c:262-266 | a map goes from value to key or from key to value; nothing else changes |
| `Transcode.Transcoder.CheckProps` | src/edge/yaml/transcode.c:269-283 | anchors and unknown tags are refused, the encrypted tag only where it may stand |
| `Transcode.Transcoder.HandleEvent` | src/edge/yaml/transcode.c:285-354 | one event in place is one step of the value machine, with every array index in range |
| `Transcode.Transcoder.Encode` | src/edge/yaml/transcode.c:357-401 | a stream is fed up to its first fault; it is accepted if there is none and there was a root |
| `Decode.Decoder.ConvertMap` | src/kernel/luacbor.c:79-111 | a map's items become a table, a later value replacing an earlier one of the same key |
| `Decode.Decoder.ConvertArray` | src/kernel/luacbor.c:79-111 | an array's items become a table in order |
| `Decode.Decoder.ConvertSecret` | src/kernel/luacbor.c:113-131 | only the secret tag, and only around text |
| `Decode.Decoder.ConvertValue` | src/kernel/luacbor.c:133-178 | the recursive conversion over the iterator gives the value and leaves the iterator behind it, or the first error |
| `DecodeFacts.DecodesExactly` | src/kernel/luacbor.c:79-178 | on any items: a value is given and the rest left if and only if the items begin with a spelling of that value, at most 64 deep, its integers within 2^53 and its keys text |
| `Edge.FieldsHoldTheLast` | src/kernel/luacbor.c:79-111 | a map's table holds each key's last value |
| `Edge.ValueDecodes` | src/kernel/luacbor.c:79-178 | decoding the items of any value within the limits gives what the tree denotes and leaves the rest, or fails exactly on an integer beyond 2^53 |
| `Edge.EdgeRoundTrip` | src/kernel/luacbor.c:79-178 | everything the transcoder accepts decodes to the value the document denotes, secrets included, unless an integer is beyond 2^53 |
| `Edge.IntegerDenotes` | src/edge/yaml/transcode.c:208-241 | a plain decimal number with any sign and leading zeros denotes that number, negative exactly with a minus |
| `Edge.LoadStream` | src/edge/yaml/transcode.c:285-401 | transcoder and decoder in place, on any stream: refused exactly if not supported, an error exactly for an inexact integer, otherwise the document's value, whose integers are those of Edge.IntegerDenotes |
| `Pointer.UnescapeInverts` | src/kernel/validate.c:271-293 | unescaping undoes escaping |
| `Pointer.EscapeIsInjective` | src/edge/yaml/transcode.c:88-102 | different keys have different tokens |
| `Pointer.EscapeIsStandard` | src/edge/yaml/transcode.c:88-102 | escaping is the standard's two replacements, tilde first |
| `Pointer.UnescapeIsStandard` | src/kernel/validate.c:271-293 | unescaping, on any token, well formed or not, is the standard's two replacements in their order |
| `Pointer.EscapeToken` | src/kernel/validate.c:77-102 | the validator's loop escapes as the transcoder does |
| `Pointer.LastToken` | src/kernel/validate.c:271-293 | the text after the last slash, unescaped |
| `Pointer.LastTokenOfChild` | src/kernel/validate.c:271-293 | the last token of a child's pointer is its key, and what precedes it is the parent's pointer |
| `Positions.StrCmpIsLexical` | src/edge/yaml/positions.c:78-90 | pointers are compared by their first difference, a prefix first |
| `Positions.LeTransitive` | src/edge/yaml/positions.c:78-90 | the comparison carries over three rows unless the middle one is unkeyed between keyed ones at different positions of one pointer |
| `Positions.OrderExactly` | src/edge/yaml/positions.c:78-90 | the comparison is an order on a table if and only if no pointer has an unkeyed row together with two keyed rows at different positions |
| `Positions.Table.Add` | src/edge/yaml/positions.c:39-68 | a row is appended and its index given |
| `Positions.Table.SetValue` | src/edge/yaml/positions.c:70-74 | one row's value is set, nothing else |
| `Positions.Table.Finish` | src/edge/yaml/positions.c:106-109 | whatever the rows were, they are a permutation sorted by pointer, and at each pointer where the comparison is an order, by it |
| `Positions.Table.Find` | src/edge/yaml/positions.c:117-120 | a row with the pointer, or none exactly if there is none |
| `Positions.OrderlyIsSorted` | src/edge/yaml/positions.c:106-109 | where the comparison is an order on the table, the finished table is sorted by it |
| `Positions.Table.Report` | src/edge/yaml/positions.c:92-104 | on a finished table the reporting loop gives the specified report |
| `Positions.LookupIsLinear` | src/edge/yaml/positions.c:117-140 | for a pointer that is not repeated, whatever else is, any search of any permutation agrees with a linear search of the unsorted table |
| `Positions.Table.Locate` | src/kernel/validate.c:51-75 | the loop gives what the recursive description allows: the pointer's own position or an ancestor's |
| `Positions.LocatesNearest` | src/kernel/validate.c:51-75 | the loop may answer with a value position if and only if it is that of a row at the nearest pointer at or above that has one, or 1:1 if none has; repeated pointers included |
| `Positions.LocatesKey` | src/kernel/validate.c:51-75 | with a key wanted, if and only if it is the key of a row there; or, past a row without a key or no row, what is above answers, or 1:1 |
| `Positions.OnlyAnswer` | src/kernel/validate.c:51-75 | where the nearest pointer is not repeated, its row's position is the only answer |
| `Positions.Duplicates` | src/edge/yaml/positions.c:92-104 | the loop reports each later row of a run against the run's first |
| `Positions.RepeatsAreCounted` | src/edge/yaml/positions.c:92-109 | a pointer whose rows are alike gives k - 1 reports for k keyed rows, in any permutation |
| `Positions.RepeatsNameTheEarliest` | src/edge/yaml/positions.c:92-109 | both positions of a report are keys of that pointer, and the first is the earliest there is |
| `Positions.EveryRepeatIsNamed` | src/edge/yaml/positions.c:92-109 | every key of a repeated pointer is named in a report, as the earliest or as a repetition |
| `TreePositions.PointersUniqueExactly` | src/edge/yaml/transcode.c:69-152 | a document's pointers are unique if and only if no map in it repeats a key |
| `TreePositions.ReportsExactly` | src/edge/yaml/positions.c:92-104 | for every document and every permutation of its table, nothing is reported if and only if no map of the document repeats a key |
| `TreePositions.CheckKeys` | src/edge/yaml/positions.c:92-109 | transcoder, sort and report in place on any stream: accepted exactly if supported, and then silent exactly if no key is repeated |
| `TreePositions.Where` | src/kernel/validate.c:51-75 | transcoder, sort and search in place on any stream: the position is that of the nearest node at or above the pointer, the key's where a key is wanted and there, the parent's past a node without one |
| `TreePositions.LocatesInDocument` | src/kernel/validate.c:51-75 | for every document, repeated keys included, and every permutation of its table, the loop may answer exactly with these positions |
| `TreePositions.OneAnswerInDocument` | src/kernel/validate.c:51-75 | without a repeated key the nearest node's position is the only answer |
| `TreePositions.RepeatsBreakTheOrder` | src/edge/yaml/positions.c:78-90 | an accepted document, each node at its own column, with one key repeated over a map, a list and a map, on whose table the comparison is not transitive |
| `TreePositions.UniqueIsOrderly` | src/edge/yaml/positions.c:78-90 | without a repeated key the comparison is an order on the document's table |
| `TreePositions.EveryRowHasParent` | src/edge/yaml/transcode.c:69-152 | every row but the root's has its parent's row in the table |
| `Preamble.CheckName` | src/kernel/preamble.c:19-27 | a letter or underscore, then letters, digits or underscores |
| `Preamble.NamesExactly` | src/kernel/preamble.c:19-27 | exactly the non-empty texts of letters, digits and underscores that do not start with a digit |
| `Preamble.EscIsReplacement` | src/kernel/preamble.c:29-70 | escaping doubles backslashes and writes newlines as a backslash and n, and changes nothing else |
| `Preamble.Count` | src/kernel/preamble.c:36-45 | the counted room is the length of the text; otherwise the first bad name |
| `Preamble.Build` | src/kernel/preamble.c:29-70 | the buffer is filled with exactly the text of the variables and exactly to the counted room; refused exactly for a bad name, the first one |
| `Preamble.PercentBInverts` | src/kernel/preamble.c:10-17 | the printf utility's %b undoes the escaping |
| `Preamble.ValueComesBack` | src/kernel/preamble.c:10-17 | with the trailing dot a value survives the command substitution, trailing newlines included |
| `Preamble.ReadBack` | src/kernel/preamble.c:10-17 | reading the preamble gives exactly the variables, in order, and leaves the bytes that follow untouched |
| `Preamble.ReachesTheScript` | src/kernel/preamble.c:10-17 | a variable reaches the script with its last value if and only if it is not named like one of the loop's own |
| `Preamble.ReservedNameIsLost` | src/kernel/preamble.c:10-17 | an accepted name that does not reach the script |

## Left out

- fork, exec, pipes, epoll, signalfd, timerfd, waitpid: only what the handlers rely on, as assumptions on inputs. One-shot sticky timers and group emptiness are what `src/kernel/timer.c:40-47` and `src/kernel/proc.c:91-102` promise.
- Lua state, templates, ssh, plugins: whether a start or a spawn succeeds, a step's timeout and continue-on-error, and a leader's exit and reason are inputs.
- The reason given with a leader's exit is an input: in `reap_children` the payload is passed beside the call that fills it, and C does not fix which is evaluated first.
- How `reap_children` finds the job a process id belongs to: each job's leader exits and empty groups are inputs of their own, in any order. A step's result pipe (`drain_result`) is not modelled.
- Workflow.RunWorkflow: asks for distinct job ids, which are keys of one map, and at least one session a target, which the inventory schema asks for.
- Whether a first cancel signal is pending at a poll is not determined, and from then on every poll sees it; how long anything takes, and that a waiting event ever arrives, is not modelled: termination is proved of each handler, of the pass and broadcast loop and of each job's number of transitions.
- Allocation failure: every allocation succeeds. So do writes to the log and the terminal.
- The tags are proved beside the engine: the engine's events carry the job and step themselves, which is what a tag gives back for jobs below 2^32 and steps below 2^24 - 1.
- RunLoop.Loop.HandleBatch: a batch may hold any events; one that the outside world could not produce in the state at hand is passed over.
- RedactStars.StarsExactly: exact for one secret; for several, `RedactLeaks.FeedsNeverLeak` gives the sufficient condition on each, since another secret may mask what would leak.
- Setup.BuildGroups: a cap is a natural number; a negative one would act like zero.
- Byte-level CBOR, libyaml's parsing and the conversion of float text: items and events are abstract and a float stays its text. Byte strings, half and single floats and "undefined" never come from the transcoder and are not items here. Lua does not tell the integer 1 from the float 1.0; the model does.
- Decode.Decoder.ConvertValue: a stream that ends early or has a stray break is one error here; the messages differ in the original.
- Integers: the transcoder takes at most 18 digits, so no 64-bit overflow can arise, and none is modelled.
- Lua to CBOR (`encode_table`, `encode_value`): only decoding is modelled.
- The growth of the CBOR buffer with its retries and the document size limits.
- qsort and bsearch are library code: sorting by insertion and searching by halves stand for them, and the theorems hold of every sorted permutation and every matching row.
- Positions.Table.Finish: where the comparison is no order, the C library promises nothing about `qsort`; the insertion sort here still gives a permutation sorted by pointer.
- C strings end at a NUL: keys and values are taken to have none. A YAML key with an escaped NUL would be cut in the position table.
- Preamble.ReadBack: the shell is dash as the comments there assume; `read` takes a byte at a time and no other feature of the shell is modelled.
- Pipeline.Pipe.Step: the secret set is fixed during a step; a value added to it later is redacted from then on.
- Pipeline.Pipe.Drain: asks that three times the longest secret less one plus 65536 fits the ring; beyond that `Pipeline.Pipe.Emit` says what is dropped.
- Message texts, diagnostics, result and summary files, the command line, encryption and key files, coverage and build tooling: output formatting or thin wrappers, with no hard claim of their own.
