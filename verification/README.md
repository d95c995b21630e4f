# Verified model of the Hub and its Agent Daemons

This Dafny project models how the Hub hands a user's tasks to Agent Daemons on
the user's servers, how it retries them elsewhere, how a human approval reaches
a child process, and how a daemon builds its command line, edits its `.env` file
and obtains its credential. The results are for all inputs or all runs; beside
them, a few members show one concrete input or run where the code does not do
what its documentation says.
`dafny verify dfyconfig.toml` checks the whole project.

## Layout

| files | what they hold |
|---|---|
| `Common`, `Lists` | shared types, events and messages; filtering and mapping |
| `Tasks`, `WorkerRegistry` | task and attempt rows and what each handler does to one row; the candidate list |
| `Hub`, `HubInvariants`, `HubRuns`, `HubStranded` | the Hub as a step system, what every step keeps, theorems over runs, tasks that nothing picks up again |
| `HubLaws`, `HubStatus`, `HubWatchdog` | laws of all steps in terms of their inputs alone: results, status, jobs and messages, the watchdog |
| `HubService` | the Hub services as a class whose handlers and loops make exactly those steps |
| `Runner`, `Daemon`, `DaemonExits`, `DaemonClient` | one child process, one daemon as a step system, and the two daemon classes |
| `Platform`, `PlatformRuns`, `PlatformExits` | Hub and daemons joined by their channels: approval gate, log order, where COMPLETED comes from |
| `Scenarios`, `LateFailure` | concrete runs from the initial state |
| `Tokenizer`, `ShellQuote`, `SpawnPlan`, `ShellPlan`, `ShellContexts` | from a command template and an input to an argument vector or a shell command |
| `EnvFile` | the `.env` upsert |
| `Registration`, `RegistrationDecisions`, `RegistrationService` | one-time credential delivery as a step system, what decisions bring about, and as a class |

The state-changing code has two forms. A step function on values (`Apply`,
`DApply`, `RApply`) is what the theorems over runs speak about. A class with
fields, loops and `modifies` clauses follows the source statement by statement,
with a `State()` that maps its objects to the values; each of its entry points is
proved to make exactly that step. In `DaemonClient` the entry points are the
client's socket handlers, its timer and the listeners on a child; a `TaskRunner`
method is proved to have the effect that the step gives to one runner.

## Assumptions

- Each HTTP handler, event handler, queue job and watchdog scan is one atomic
  step. The code can interleave at every `await` (for example between
  `hub-api/src/tasks/tasks.processor.ts:69` and line 70); nothing is claimed of that.
- Attempts are ordered by creation; ties of `startedAt` are not modelled.
- Servers are never deleted and never change owner. They may be added, renamed,
  go online and offline, and their profiles may change at any time.
- The message of a refused dispatch does not begin with `CAPACITY_EXHAUSTED`.
- A daemon status event carries one of the statuses of
  `hub-api/src/realtime/events.ts:37`, so never QUEUED. Otherwise daemon events
  reaching the Hub are arbitrary in the theorems of `HubRuns`: stale, duplicated,
  from any server and about any task.
- Generated identifiers are fresh and clocks do not run backwards.
- The theorems of `HubRuns` and `Platform` assume of `Array.prototype.sort` only
  that it permutes its input. The ordering theorem assumes a stable sort that
  does not compare an element with itself, and that `localeCompare` and the
  database collation are consistent orders.
- Hub-to-daemon messages are delivered at most once, in any order, or lost.
  Daemon-to-Hub events arrive in order. `connect` and its flush are one step.
  There is one daemon per server.
- Decryption undoes encryption, encrypting a non-empty key yields non-empty
  columns, and hashes do not collide. No cryptographic claim is made.
- The approval and failure heuristics are arbitrary functions of text.
- A `char` stands for one UTF-16 code unit, and identifiers are numbers: only
  equality and the database order of them are used.
- History variables, which no operation reads: `submitter`, `origin`, `issued`,
  `stream`, `outcome`, `emitted`, `output`, `exits`, `releases`, `deliveries`, and in
  `DaemonClient` the `pool` of all runners ever created. Jobs and
  sent messages are kept for ever and marked as used instead of being removed.

## Where the code and its documentation disagree

- `hub-api/src/approvals/approvals.service.ts:68-69` says that a daemon reconciles
  pending decisions on reconnect. No code does: a decision takes effect only
  through the one message it sends. For approvals, `DecisionSpentIff` and
  `DeliveredApprovalReleases` say exactly when a hold can still end and when it
  does, and `LostDecisionIsNeverReplayed` that otherwise it never does
  (`ApprovalLost` is a run). For rejections, `RejectionSpentIff` and
  `DeliveredRejectionKills` say the same of killing the runner, and
  `LostRejectionIsNeverReplayed` that otherwise only a cancel can: the child of a
  CANCELLED task runs on (`RejectionLost` is a run). An approval is spent once it
  has ended a hold, so a second prompt of the same child is never answered
  (`ReleasedIsSpent`).
- `agent-daemon/src/runner.js:71` says that a cancelled or rejected child yields no
  result. One is sent exactly when the child raises `error` before it closes
  (`KilledRunnerReportsIff`, with a run in `CancelledChildReports`).
- `agent-daemon/README.md:110` says that `{{prompt}}` becomes the raw prompt text.
  That is false of a prompt that mentions another placeholder (`PromptAboutCwd`);
  `PromptVerbatimIff` says exactly when it holds. Inside a longer token the prompt
  also loses its double quotes (`EmbeddedPromptIff`).
- `agent-daemon/README.md:116` says that in shell mode values are single-quoted. They
  are, but that has its meaning only where the shell comes to the placeholder
  unquoted (`ShellReadsPromptIff`). In the default template the placeholder stands
  in double quotes; there the shell never reads the prompt as it is
  (`DoubleQuotedNeverReads`), the single quotes become part of the argument, and a
  dollar sign or backtick of the prompt stays active (`DoubleQuotedReading`,
  `DefaultTemplateDollar`). In single quotes of the template only the empty prompt
  is read as it is (`SingleQuotedReadsIff`).
- COMPLETED, FAILED and CANCELLED are not final; `FinishedTaskRevivedIff` lists
  exactly the steps that bring such a task back and `FinishedStatusChangesIff`
  those that change its status at all (runs: `CancelledTaskRevived`,
  `CancelledTaskCompletes`).
- A result closes the newest live attempt of its task, whichever daemon sent it, so
  a late capacity failure of one server can exclude another (`SenderExcludedIff`,
  with a run in `InnocentServerExcluded`).
- A late RUNNING status can leave a task RUNNING with no live attempt, where
  neither the queue nor the watchdog acts on it any more (`StrandedIff`,
  `StrandedStays`, with a run in `OfflineDaemonStrands`).
- The sort comparator of the candidate list is inconsistent exactly when the
  preferred server has two eligible profiles (`ComparatorConsistentIff`,
  `TwoProfilesConfuseTheSort`).
- The runner closes the child's stdin right after the spawn
  (`agent-daemon/src/runner.js:140`), so the approval gate is stated for the end
  of a hold, which happens whether or not the resume input can be written.

## Model

| member | source | states |
|---|---|---|
| `HubRuns.SingleLiveAttempt` | hub-api/src/tasks/tasks.processor.ts:44-98 | in every reachable state, stale daemon events included, a live attempt is the newest one, sits on the task's current server, that server is not excluded, and the task is not QUEUED |
| `HubRuns.OwnerConfinement` | hub-api/src/tasks/tasks.service.ts:38-46 | in every reachable state the current server and every attempt's server belong to the user who submitted the task |
| `HubRuns.FailoverShrinks` | hub-api/src/tasks/tasks.processor.ts:186-202 | any step that closes a live attempt and leaves the task QUEUED strictly shrinks the owner's servers minus the excluded ones |
| `HubRuns.RequeuesAtMostExcluded` | hub-api/src/tasks/tasks.service.ts:234-250 | over any run, the requeues that closed a live attempt are at most as many as the excluded servers |
| `HubRuns.BoundedFailover` | hub-api/src/tasks/tasks.service.ts:191-232 | over any run those requeues never exceed the number of the submitter's servers, and timed-out and capacity-failed attempts sit on pairwise distinct servers |
| `HubRuns.WatchdogRequeuesBounded` | hub-api/src/tasks/tasks.processor.ts:131-163 | over any run the watchdog requeues a task at most the configured number of times, and at most once per TIMED_OUT attempt |
| `HubRuns.WatchdogSparesFreshTasks` | hub-api/src/tasks/tasks.processor.ts:110-129 | whatever happens after a status or log event, the watchdog does not act on the task while the timeout has not passed, nor while it awaits approval |
| `HubRuns.RunMovesForward` | hub-api/src/tasks/tasks.processor.ts:186-202 | along any run exclusions and `updatedAt` only grow, and a decided approval and the submitter never change |
| `HubRuns.NoQueuedTaskForgotten` | hub-api/src/tasks/tasks.service.ts:126-132 | in every reachable state the newest dispatch job of a QUEUED task is still waiting or has used up its five tries |
| `HubRuns.DispatchCommitsToFirst` | hub-api/src/tasks/tasks.processor.ts:59-98 | the job commits to the first candidate that accepts: one FAILED row with its message per earlier candidate, in order, one RUNNING row, none for later candidates, older rows and other tasks untouched, exactly one submit sent |
| `HubRuns.DispatchExhausts` | hub-api/src/tasks/tasks.processor.ts:84-107 | if every candidate refuses, the task stays QUEUED on its server with one FAILED row per candidate, nothing is sent, and the job loses a try |
| `HubRuns.CapacityAnnounces` | hub-api/src/tasks/tasks.service.ts:198-231 | a capacity requeue that closed a live attempt announces the head of the candidate list as it now stands, and that is not the failed server |
| `HubRuns.AnnouncedCandidateIsTried` | hub-api/src/tasks/tasks.service.ts:201-231 | after any run that neither dispatches the task nor changes the server tables, the next dispatch tries the announced server first |
| `HubRuns.DispatchTriesHead` | hub-api/src/tasks/tasks.processor.ts:59-67 | whatever the replies, the first new attempt row of a dispatch is for the head of the candidate list |
| `HubRuns.QuietKeepsHistory` | hub-api/src/tasks/tasks.service.ts:258-291 | without a dispatch of its own, nothing changes the attempts or the server of a task with no live attempt |
| `HubRuns.FinishedTaskRevivedIff` | hub-api/src/tasks/tasks.service.ts:146-159 | a finished task leaves its finished status exactly in four cases: a late unfinished status, a late capacity result with candidates left, a first approval request, an approval granted by the owner |
| `HubRuns.FinishedStatusChangesIff` | hub-api/src/tasks/tasks.service.ts:68-111 | exactly the steps that change the status of a finished task, to another finished status or back: a different reported status, a result that says otherwise or requeues, a first approval request, a delivered cancel of a task not cancelled, a decision other than rejecting a cancelled task |
| `HubRuns.CapacityExcludes` | hub-api/src/tasks/tasks.service.ts:198-206 | a capacity failure adds to the exclusions exactly the server of the task's live attempt, and nothing if there is none |
| `HubLaws.ResultLaw` | hub-api/src/tasks/tasks.service.ts:96-111 | by the payload's fields: a failed result with category CAPACITY_EXHAUSTED and `retryable` absent or true queues a Codex task again with one new job if some server of the owner can take it over, and otherwise fails it; every other result sets the status it reports; unless queued, the result is stored and no job is added |
| `HubLaws.FailoverIff` | hub-api/src/tasks/tasks.service.ts:183-189 | with a server left, a capacity failure is failed over if and only if `retryable` is absent or true |
| `HubLaws.UnsupportedResultLaw` | hub-api/src/tasks/tasks.service.ts:191-206 | the same for a worker type without an adapter, where the failover throws |
| `HubLaws.CandidatesIff` | hub-api/src/tasks/tasks.service.ts:198-209 | after closing the attempt there is a candidate if and only if an online server of the owner offers Codex, has not failed the task and is not the one that just did |
| `HubLaws.ResultSettlesAttempt` | hub-api/src/tasks/tasks.service.ts:103-107 | a result makes the live attempt SUCCEEDED exactly if it says completed and FAILED otherwise, and touches no older attempt |
| `HubLaws.ResultExcludes` | hub-api/src/tasks/tasks.service.ts:234-250 | a result excludes a server exactly if it asks for failover and an attempt is live, and then the server of that attempt |
| `HubLaws.ReasonCarriesMessage` | hub-api/src/tasks/tasks.service.ts:252-256 | the recorded reason is the prefix, the daemon's message and at most 500 characters of detail |
| `HubStatus.StatusLaw` | hub-api/src/tasks/tasks.service.ts:68-111 | one table for all steps: which step writes which status of a task under which conditions; every other step leaves it |
| `HubStatus.JobLaw` | hub-api/src/tasks/tasks.service.ts:40-51 | in every step a task gets exactly one new job if it is put in the queue, and none otherwise |
| `HubStatus.SubmitLaw` | hub-api/src/tasks/tasks.service.ts:38-54 | a submit creates the task exactly for the server's owner, QUEUED and blank, and leaves the others |
| `HubStatus.MessageLaw` | hub-api/src/tasks/tasks.processor.ts:170-184 | every step sends exactly: a submit to the first candidate that accepts, a cancel or a decision to the task's server, or nothing |
| `HubStatus.JobIsTriedFiveTimes` | hub-api/src/tasks/tasks.service.ts:47-51 | in every run a waiting job has been run fewer than five times, a job given up exactly five times, a job done one to five times |
| `HubStatus.FailedTryWaits` | hub-api/src/tasks/tasks.processor.ts:49-107 | a try on a QUEUED task finishes the job exactly if some candidate accepts |
| `HubWatchdog.FirstTimeoutsRequeue` | hub-api/src/tasks/tasks.processor.ts:131-163 | in every run exactly the first `maxRequeues` timeouts of a task put it back in the queue with one new job each; later ones set FAILED and add none |
| `HubWatchdog.TimeoutsCounted` | hub-api/src/tasks/tasks.processor.ts:131-142 | in every run a task has as many TIMED_OUT attempts as scans found it stale |
| `HubWatchdog.ScanActsIff` | hub-api/src/tasks/tasks.processor.ts:110-129 | in every reachable state a scan times a task out exactly if it is RUNNING, has a live attempt and was last written longer ago than the timeout |
| `HubWatchdog.CompletedOnlyIfSaid` | hub-api/src/tasks/tasks.service.ts:75-108 | a step makes a task COMPLETED exactly if it is a result or a status event that says so |
| `Scenarios.CancelledTaskCompletes` | hub-api/src/tasks/tasks.service.ts:96-108 | a run from the initial state in which a CANCELLED task becomes COMPLETED |
| `Scenarios.CancelledTaskRevived` | hub-api/src/tasks/tasks.service.ts:68-79 | a run from the initial state in which a CANCELLED task is RUNNING again |
| `HubStranded.StrandedIff` | hub-api/src/tasks/tasks.service.ts:75-79 | in every reachable state a step leaves a task RUNNING with no live attempt if and only if it is a RUNNING status or a granted approval for a task that has none |
| `HubStranded.StrandedStays` | hub-api/src/tasks/tasks.processor.ts:110-129 | such a task keeps its status and attempts through every run without a status, result or approval event, cancel or decision for it |
| `HubStranded.SupportedRun` | hub-api/src/workers/worker-registry.service.ts:33-39 | in every run only tasks of a supported worker type ever have an attempt |
| `Scenarios.OfflineDaemonStrands` | hub-api/src/tasks/tasks.processor.ts:154-161 | a run from the initial state that strands a task: dispatch, watchdog, late status |
| `HubInvariants.StepKeeps` | hub-api/src/tasks/tasks.service.ts:75-111 | every step of the Hub keeps the invariant of every task row and moves every row forward |
| `HubInvariants.RunKeeps` | hub-api/src/tasks/tasks.service.ts:38-111 | every run keeps the invariant |
| `HubInvariants.DispatchKeeps` | hub-api/src/tasks/tasks.processor.ts:59-98 | the dispatch loop keeps a single live attempt, distinct exclusions and owner confinement, and excludes no server |
| `HubInvariants.CapacityKeeps` | hub-api/src/tasks/tasks.service.ts:191-232 | so does capacity failover, including for stale results; a requeue that closed a live attempt adds a server to the exclusions |
| `HubInvariants.WatchdogKeeps` | hub-api/src/tasks/tasks.processor.ts:126-163 | so does the watchdog, which adds exactly one timed-out attempt |
| `HubInvariants.TouchKeeps` | hub-api/src/tasks/tasks.service.ts:258-269 | touching the live attempt keeps the row invariant |
| `HubInvariants.FinishKeeps` | hub-api/src/tasks/tasks.service.ts:271-291 | finishing leaves no live attempt, and a capacity reason excludes the server the attempt ran on |
| `HubInvariants.CandidatesAreGood` | hub-api/src/workers/worker-registry.service.ts:48-57 | candidates are online servers of the same owner outside the exclusions |
| `Tasks.LatestLive` | hub-api/src/tasks/tasks.service.ts:276-281 | finds the newest live attempt, and nothing only if there is none |
| `Tasks.FirstAccepting` | hub-api/src/tasks/tasks.processor.ts:60-98 | the first candidate that accepts, all earlier ones having refused |
| `HubService.Service.Submit` | hub-api/src/tasks/tasks.service.ts:38-54 | creates a QUEUED task and its job exactly when the caller owns the server |
| `HubService.Service.RequeueTask` | hub-api/src/tasks/tasks.service.ts:126-132 | adds one waiting job and changes nothing else |
| `HubService.Service.TouchRunningAttempt` | hub-api/src/tasks/tasks.service.ts:258-269 | makes the row change `Touch` |
| `HubService.Service.FinishRunningAttempt` | hub-api/src/tasks/tasks.service.ts:271-291 | makes the row change `Finish` |
| `HubService.Service.HandleDaemonTaskStatus` | hub-api/src/tasks/tasks.service.ts:75-79 | makes the step `StatusEvent` |
| `HubService.Service.HandleDaemonTaskLog` | hub-api/src/tasks/tasks.service.ts:81-94 | makes the step `LogEvent` |
| `HubService.Service.HandleDaemonTaskResult` | hub-api/src/tasks/tasks.service.ts:96-111 | makes the step `ResultEvent`, both branches |
| `HubService.Service.HandleRetryableCapacityFailure` | hub-api/src/tasks/tasks.service.ts:191-232 | closes the attempt, then requeues, gives up or throws, as the step says |
| `HubService.Service.Cancel` | hub-api/src/tasks/tasks.service.ts:68-73 | makes the step `Cancel`; without the owner or a reachable daemon nothing changes |
| `HubService.Service.HandleDaemonApprovalRequest` | hub-api/src/approvals/approvals.service.ts:77-98 | makes the step `ApprovalEvent`; a second request for the task is not recorded |
| `HubService.Service.Decide` | hub-api/src/approvals/approvals.service.ts:36-75 | makes the step `Decide`, accepted exactly for a pending approval of the owner; the row changes even if delivery fails |
| `HubService.Service.TryCandidate` | hub-api/src/tasks/tasks.processor.ts:61-97 | opens, submits and settles one attempt row |
| `HubService.Service.OfferInOrder` | hub-api/src/tasks/tasks.processor.ts:59-105 | the loop refines the one-shot description of a dispatch |
| `HubService.Service.Process` | hub-api/src/tasks/tasks.processor.ts:39-108 | one try of a job makes the step `RunJob`; it throws exactly when the job is not done |
| `HubService.Service.CheckStaleTask` | hub-api/src/tasks/tasks.processor.ts:126-164 | the loop body acts exactly when the watchdog's condition holds |
| `HubService.Service.ScanStuckTasksOnce` | hub-api/src/tasks/tasks.processor.ts:110-168 | the sequential scan equals the independent transition of every task, and returns how many tasks it acted on |
| `HubService.ScanEachIs` | hub-api/src/tasks/tasks.processor.ts:126-165 | scanning distinct rows one after the other applies the same transition to each of them alone |
| `HubService.ScanComplete` | hub-api/src/tasks/tasks.processor.ts:110-168 | rows the query leaves out would not have changed, so the scan transforms the whole table |
| `HubService.CountComplete` | hub-api/src/tasks/tasks.processor.ts:125-167 | the count over rows is the number of tasks acted on |
| `WorkerRegistry.CandidatesExact` | hub-api/src/workers/worker-registry.service.ts:33-73 | there is a list exactly for Codex, and it holds exactly the enabled Codex profiles on online servers of the owner that are not excluded, each once, whatever order the sort leaves |
| `WorkerRegistry.CandidateOrder` | hub-api/src/workers/worker-registry.service.ts:59-73 | with at most one row on the preferred server, that server is first, the others follow by name, equal names by server id and profile |
| `WorkerRegistry.ComparatorConsistentIff` | hub-api/src/workers/worker-registry.service.ts:69-73 | the comparator is antisymmetric and transitive on distinct rows if and only if the preferred server has at most one row |
| `WorkerRegistry.RowsAscending` | hub-api/src/workers/worker-registry.service.ts:48-60 | the database's rows are strictly ascending by server id and profile |
| `WorkerRegistry.EligibleRows` | hub-api/src/workers/worker-registry.service.ts:48-57 | exactly the eligible profiles |
| `WorkerRegistry.SortSorts` | hub-api/src/workers/worker-registry.service.ts:69-73 | under a total preorder the sort orders its input and keeps the given order among equals |
| `Scenarios.TwoProfilesConfuseTheSort` | hub-api/src/workers/worker-registry.service.ts:69-73 | two eligible profiles on the preferred server, which make the comparator inconsistent |
| `Runner.PerformOk` | agent-daemon/src/runner.js:116-253 | the exit latch closes at most once, only that drops the runner, only that reports a result, each chunk is logged once, and only an approved decision while holding writes the resume input |
| `Runner.PerformExits` | agent-daemon/src/runner.js:206-253 | a runner ends exactly at a failed spawn, an `error` or a close; it reports unless that is the close of a killed child; COMPLETED exactly for code 0 without a signal, and otherwise with the heuristics' judgement of the end of the output |
| `Runner.PerformKeeps` | agent-daemon/src/runner.js:156-193 | every operation keeps the tail equal to the end of the output since the last resume |
| `Runner.WindowAndRequests` | agent-daemon/src/runner.js:156-185 | between resumes the tail is the last 8192 characters of everything printed, and at most one approval request is emitted, none while already holding |
| `Runner.WindowSlides` | agent-daemon/src/runner.js:158-158 | cutting after each chunk is the same as cutting once |
| `Runner.ChunkingIrrelevant` | agent-daemon/src/runner.js:156-158 | two chunkings of the same output leave the same tail |
| `Runner.HoldsIffPrompted` | agent-daemon/src/runner.js:156-171 | between resumes a runner holds, and has asked once, exactly if after some chunk the end of everything printed is taken for a prompt, however it was split |
| `Runner.ResumeForgets` | agent-daemon/src/runner.js:182-185 | after a resume the window, and whether the runner asks again, depend only on what is printed afterwards |
| `Runner.LastChunkIs` | agent-daemon/src/runner.js:157-157 | the last chunk is the last one printed |
| `Daemon.LinkKeeps` | agent-daemon/src/client.js:69-89 | emitting, connecting and disconnecting keep emitted = sent ++ buffer, with an empty buffer while connected |
| `Daemon.DStepKeeps` | agent-daemon/src/client.js:69-132 | every step of the daemon keeps its invariant: link, runner map, result counts, output order |
| `Daemon.DRunKeeps` | agent-daemon/src/client.js:69-132 | so does every run |
| `Daemon.DaemonSafety` | agent-daemon/src/client.js:69-132 | in every run nothing emitted is lost, duplicated or reordered, the map holds exactly the runners whose exit is unhandled, one per task, and results never outnumber accepted submits |
| `DaemonExits.CompletedIffClosedWell` | agent-daemon/src/runner.js:206-236 | in every run a result that says COMPLETED was emitted for a task exactly if a child of it closed with code 0 and no signal, before anything else ended its runner and before the Hub killed it |
| `DaemonExits.ReportsAreJudged` | agent-daemon/src/runner.js:218-251 | in every run a runner has reported exactly if it did not end by the close of a killed child, and every other report than COMPLETED carries the heuristics' failure for the end of its output |
| `Daemon.LateExitIsIgnored` | agent-daemon/src/runner.js:206-208 | a late close or error of a finished runner changes nothing but the history, so it never removes a newer runner |
| `Daemon.KilledRunnerReportsIff` | agent-daemon/src/runner.js:195-253 | in every continuation a Hub-killed runner whose exit is unhandled reports a result if and only if its child raises `error` before any `close`; its exit is handled exactly once either has come |
| `Daemon.CancelledChildReports` | agent-daemon/src/runner.js:146-150 | a run in which a cancelled child still reports a failure |
| `DaemonClient.Client.constructor` | agent-daemon/src/client.js:20-21 | starts as the daemon model does |
| `DaemonClient.Client.Emit` | agent-daemon/src/client.js:69-79 | sends or buffers the event, as the link model says |
| `DaemonClient.Client.FlushBuffer` | agent-daemon/src/client.js:81-89 | the loop sends the whole buffer in order and empties it |
| `DaemonClient.Client.OnConnect` | agent-daemon/src/client.js:36-39 | makes the step `Connect` |
| `DaemonClient.Client.OnDisconnect` | agent-daemon/src/client.js:41-42 | makes the step `Disconnect` |
| `DaemonClient.Client.OnHeartbeat` | agent-daemon/src/client.js:60-62 | makes the step `HeartbeatTimer` |
| `DaemonClient.Client.DropTask` | agent-daemon/src/client.js:130-132 | removes that task only |
| `DaemonClient.Client.OnTaskSubmit` | agent-daemon/src/client.js:91-105 | makes the step `TaskSubmit`, accepted exactly for a new task id; a submit without an id changes nothing |
| `DaemonClient.Client.OnTaskCancel` | agent-daemon/src/client.js:107-115 | makes the step `TaskCancel` |
| `DaemonClient.Client.OnApprovalDecision` | agent-daemon/src/client.js:117-128 | makes the step `DecisionArrives`, and writes the resume input exactly for an approval that finds its runner holding and stdin open |
| `DaemonClient.Client.ChildPrints` | agent-daemon/src/runner.js:144-145 | makes the step `Child` with the chunk |
| `DaemonClient.Client.ChildCloses` | agent-daemon/src/runner.js:151-151 | makes the step `Child` with the close |
| `DaemonClient.Client.ChildFails` | agent-daemon/src/runner.js:146-150 | makes the step `Child` with the error |
| `DaemonClient.TaskRunner.DidIsRunOp` | agent-daemon/src/runner.js:116-253 | what a runner's method does to its runner and client is, for the whole daemon, that operation of the model, all other runners being as before |
| `DaemonClient.TaskRunner.constructor` | agent-daemon/src/runner.js:75-89 | a fresh runner |
| `DaemonClient.TaskRunner.Start` | agent-daemon/src/runner.js:116-154 | has the effect `OnStart` on runner, link and map |
| `DaemonClient.TaskRunner.OnData` | agent-daemon/src/runner.js:156-171 | has the effect `OnData` |
| `DaemonClient.TaskRunner.Decide` | agent-daemon/src/runner.js:173-193 | has the effect `OnDecision`, resume included |
| `DaemonClient.TaskRunner.Kill` | agent-daemon/src/runner.js:195-204 | sets the flag that silences the exit |
| `DaemonClient.TaskRunner.OnClose` | agent-daemon/src/runner.js:206-236 | has the effect `OnClose` |
| `DaemonClient.TaskRunner.FinishFailed` | agent-daemon/src/runner.js:238-253 | has the effect `FinishFailed` |
| `Platform.ApprovalGate` | agent-daemon/src/runner.js:161-193 | in every run of Hub, channels and daemons a hold ends, and so the resume input is written, only for a task whose approval record is APPROVED, and at most once per task |
| `Platform.DecisionsAreFinal` | hub-api/src/approvals/approvals.service.ts:47-55 | in every run a decided approval never changes |
| `PlatformExits.CompletedMeansClosedWell` | agent-daemon/src/runner.js:218-234 | in every run of Hub and daemons a task is COMPLETED only if a child of it, on some server, closed with code 0 and no signal before anything else ended its runner and before the Hub killed it |
| `Platform.WStepKeeps` | hub-api/src/approvals/approvals.service.ts:47-66 | every step of the whole platform keeps: one decision message per task, matching the record; every end of a hold consumed its own approving message; nobody mentions an unknown task |
| `Platform.WRunKeeps` | hub-api/src/approvals/approvals.service.ts:47-66 | so does every run |
| `Platform.OutboxGrows` | hub-api/src/approvals/approvals.service.ts:61-66 | a step sends at most one message, and a decision only while the approval goes from pending to that decision |
| `PlatformRuns.LostDecisionIsNeverReplayed` | hub-api/src/approvals/approvals.service.ts:61-71 | once no undelivered message can grant a decided approval, no run ever ends a hold for that task again, and a runner that holds for it holds for ever |
| `PlatformRuns.DecisionSpentIff` | hub-api/src/approvals/approvals.service.ts:51-71 | after the owner's decision on a pending approval no message can still end a hold if and only if it rejects or its message could not be sent |
| `PlatformRuns.DeliveredApprovalReleases` | agent-daemon/src/runner.js:173-193 | a delivered approval ends the hold of a runner if and only if its exit is unhandled, and then writes the resume input exactly if stdin is open |
| `PlatformRuns.HoldsEndByReleaseOnly` | agent-daemon/src/runner.js:173-193 | nothing but the delivery of an approval for the task ends a hold |
| `PlatformRuns.ReleasedIsSpent` | hub-api/src/approvals/approvals.service.ts:88-90 | in every run a task whose hold was ended has no approval left to send, so by `LostDecisionIsNeverReplayed` no later hold of it ever ends |
| `PlatformRuns.DeliveredRejectionKills` | agent-daemon/src/runner.js:173-204 | a delivered rejection or cancel kills a runner of the task if and only if its exit is unhandled |
| `PlatformRuns.RejectionSpentIff` | hub-api/src/approvals/approvals.service.ts:51-71 | after the owner's decision, with no cancel on its way, no message can still kill a runner of the task if and only if it approves or its message could not be sent |
| `PlatformRuns.LostRejectionIsNeverReplayed` | hub-api/src/approvals/approvals.service.ts:61-71 | in that situation no run without a cancel of the task ever kills a runner of it |
| `PlatformRuns.SenderExcludedIff` | hub-api/src/tasks/tasks.service.ts:191-206 | handling a server's capacity failure excludes exactly the server of the task's live attempt, which is the sender if and only if the attempt runs there |
| `LateFailure.InnocentServerExcluded` | hub-api/src/tasks/tasks.service.ts:191-206 | a run from the initial state, through a disconnect and a watchdog requeue, in which the capacity failure of one server excludes another |
| `Scenarios.ApprovalLost` | hub-api/src/approvals/approvals.service.ts:61-71 | a run from the initial state to an approval that was not sent: in every continuation the runner holds |
| `Scenarios.ApprovalTakesEffect` | hub-api/src/approvals/approvals.service.ts:61-66 | the same run with the message sent and delivered: the hold ends |
| `Scenarios.RejectionLost` | hub-api/src/approvals/approvals.service.ts:56-71 | a run from the initial state to a rejection that was not sent: the task is CANCELLED and in every continuation without a cancel its runner is not killed |
| `PlatformRuns.LogOrder` | hub-api/src/tasks/tasks.service.ts:81-94 | through any disconnects, what a server contributed to a task's log is a prefix, chunk by chunk, of what its children printed for the task, and all of it once buffer and channel are drained |
| `PlatformRuns.LogInvRun` | agent-daemon/src/client.js:69-89 | in every run the Hub's log holds exactly the chunks it has handled from each server, in order |
| `PlatformRuns.ChunksAfter` | hub-api/src/tasks/tasks.service.ts:81-94 | a Hub step adds a chunk exactly when it handles a log event for a known task |
| `Tokenizer.Tokenize` | agent-daemon/src/runner.js:13-40 | the loop with its two-character escape step computes the tokens of a one-character-at-a-time automaton |
| `Tokenizer.TokenizeRoundTrip` | agent-daemon/src/runner.js:13-40 | tokenizing the tokens joined by single spaces gives the same tokens |
| `Tokenizer.TokensAreStretches` | agent-daemon/src/runner.js:13-40 | for every template, by counting: the tokens are exactly the non-empty stretches between whitespace that has an even number of backslashes right before it and an even number of unescaped double quotes before it |
| `Tokenizer.SpaceSeparates` | agent-daemon/src/runner.js:24-34 | behind a text that ends unescaped with an even number of unescaped double quotes, a space separates: both sides are tokenized apart |
| `Tokenizer.TokensKeepText` | agent-daemon/src/runner.js:13-40 | tokens are non-empty and concatenate to the template minus exactly that whitespace |
| `Tokenizer.LexWellFormed` | agent-daemon/src/runner.js:13-40 | no token holds a separating space, and all but the last end outside quotes and escapes |
| `Tokenizer.LexJoined` | agent-daemon/src/runner.js:13-40 | any such token list is recovered from its single-space join |
| `ShellQuote.ShellEscapeIsLiteral` | agent-daemon/src/runner.js:49-52 | for every value and suffix, a POSIX shell reads the escaped value as exactly its characters, all literal, and is unquoted again for the suffix (sections 2.2.1 and 2.2.2 of the Shell Command Language, IEEE Std 1003.1) |
| `ShellQuote.ReadEscaped` | agent-daemon/src/runner.js:49-52 | the same from inside the single quotes |
| `SpawnPlan.Substitute` | agent-daemon/src/runner.js:54-62 | the loop, which skips absent placeholders, replaces each placeholder in turn everywhere |
| `SpawnPlan.BuildSpawnPlan` | agent-daemon/src/runner.js:91-114 | throws exactly for a direct template with no token; otherwise command and arguments are the substituted, unquoted tokens, or the escaped shell command |
| `SpawnPlan.PromptVerbatimIff` | agent-daemon/src/runner.js:42-62 | for every prompt, input and directory the token `"{{prompt}}"` becomes exactly the prompt if and only if the prompt mentions neither `{{input}}` nor `{{cwd}}`, short of a directory that is itself named `{{cwd}}` |
| `SpawnPlan.PromptToken` | agent-daemon/src/runner.js:42-62 | what that token becomes for any prompt |
| `SpawnPlan.PromptAboutCwd` | agent-daemon/src/runner.js:94-97 | a prompt that is not passed on |
| `SpawnPlan.ArgumentCountFixed` | agent-daemon/src/runner.js:107-113 | for every template the argument count does not depend on the input, and the prompt's position holds the raw prompt |
| `SpawnPlan.DefaultTemplatePlan` | agent-daemon/src/runner.js:9-12 | a template like the default yields program, subcommand and the raw prompt as one argument |
| `SpawnPlan.QuotedPathPlan` | agent-daemon/dev-scripts/mock-hub.js:126-126 | a template such as `node "/path/script.js" "{{prompt}}"` yields program, path and raw prompt |
| `SpawnPlan.EmbeddedPromptIff` | agent-daemon/src/runner.js:42-47 | in a token such as `--p="{{prompt}}"` the prompt loses its own double quotes: it is passed on as it is if and only if it has none |
| `SpawnPlan.IndexOf` | agent-daemon/src/runner.js:57-57 | the first occurrence, negative exactly when there is none |
| `ShellPlan.ShellReadsPromptIff` | agent-daemon/src/runner.js:99-105 | for every template and prompt placeholder that the shell comes to unquoted, the shell reads there exactly the prompt, all literal, if and only if the prompt mentions neither `{{input}}` nor `{{cwd}}` |
| `ShellPlan.ReadAround` | agent-daemon/src/runner.js:99-105 | in whatever quoting state the shell comes to the placeholder, what it reads is what it reads of the inserted text in that state |
| `ShellContexts.DoubleQuotedNeverReads` | agent-daemon/src/runner.js:99-105 | for every template with the placeholder in double quotes, and every prompt, input and directory, the shell does not read the prompt as it is |
| `ShellContexts.DoubleQuotedReading` | agent-daemon/src/runner.js:99-105 | what it reads instead for a prompt without double quotes, backslashes and placeholders: the escaped text with its single quotes, every dollar sign and backtick active |
| `ShellContexts.DefaultTemplateDollar` | agent-daemon/src/config.js:11-11 | the default template with the prompt `$` |
| `ShellContexts.SingleQuotedReadsIff` | agent-daemon/src/runner.js:99-105 | in single quotes of the template, a prompt without placeholders is read as it is if and only if it is empty |
| `ShellPlan.CommandAround` | agent-daemon/src/runner.js:99-105 | the command around a prompt placeholder: the two sides are substituted on their own |
| `ShellPlan.ShellSeesDollar` | agent-daemon/src/runner.js:99-105 | a prompt and directory for which the shell reads an unquoted dollar sign |
| `ShellQuote.ReadConcat` | agent-daemon/src/runner.js:49-52 | a shell reads a text piece by piece, carrying its quoting state along |
| `EnvFile.UpsertEnv` | agent-daemon/src/register.js:119-138 | the editor computes the specified file text |
| `EnvFile.RewriteLines` | agent-daemon/src/register.js:124-131 | the mapping and its `seen` set |
| `EnvFile.PushMissing` | agent-daemon/src/register.js:132-136 | pushes exactly the entries not seen, in order |
| `EnvFile.ReadBack` | agent-daemon/src/register.js:119-138 | one-line values are read back, less one trailing carriage return |
| `EnvFile.ReadBackIff` | agent-daemon/src/register.js:119-138 | every updated key reads back its value if and only if no value holds a newline or ends in a carriage return |
| `EnvFile.CarriageReturnLost` | agent-daemon/src/register.js:121-137 | a value that is not read back |
| `EnvFile.OthersAfterUpsert` | agent-daemon/src/register.js:119-138 | for values without newlines, each other non-empty line loses at most one trailing carriage return |
| `EnvFile.OthersKeptIff` | agent-daemon/src/register.js:119-138 | for values without newlines, all other non-empty lines are kept in order if and only if none ends in a carriage return |
| `EnvFile.UpsertTwiceIff` | agent-daemon/src/register.js:119-138 | for values without newlines, a second identical upsert changes nothing if and only if no other line ends in a carriage return |
| `EnvFile.KeyOrderKept` | agent-daemon/src/register.js:124-136 | for values without newlines, the file read back assigns the same keys in the same order, followed by the updated keys it did not assign: every assignment is rewritten in place |
| `EnvFile.Reread` | agent-daemon/src/register.js:121-137 | the lines read back from a written file |
| `Registration.OneServerPerRequest` | hub-api/src/server-registrations/server-registrations.service.ts:67-122 | in every run a request creates at most one server, owned by the request's owner and created no later than its expiry |
| `Registration.SealedExactlyWhileApproved` | hub-api/src/server-registrations/server-registrations.service.ts:109-167 | in every run the encrypted key is stored exactly while the request is APPROVED |
| `Registration.KeyDeliveredOnce` | hub-api/src/server-registrations/server-registrations.service.ts:124-175 | in every run a request's key is returned at most once, only for the issued secret, and is the key of the server created for it |
| `Registration.ApprovedKeyIsFetched` | hub-api/src/server-registrations/server-registrations.service.ts:138-174 | the issued secret does fetch the key of an approved request, at any time |
| `RegistrationDecisions.ServerIffApproved` | hub-api/src/server-registrations/server-registrations.service.ts:67-122 | in every run a server exists for a request if and only if the request's owner approved it while it was pending and not past its expiry, and it is the server of that step |
| `RegistrationDecisions.RejectionIsFinal` | hub-api/src/server-registrations/server-registrations.service.ts:86-92 | the owner's rejection leaves the servers as they are, and no continuation creates one for the request |
| `RegistrationDecisions.ApprovedKeyIsTheOne` | hub-api/src/server-registrations/server-registrations.service.ts:94-175 | however the run goes on after an approval, the issued secret fetches exactly the key of that approval while it has not been fetched, and every key returned for the request is that key |
| `RegistrationDecisions.ApprovalWindow` | hub-api/src/server-registrations/server-registrations.service.ts:38-50 | a request left undecided can be approved by its owner, and nobody else, for ten minutes from its creation and no longer |
| `Registration.BulkExpiryAgrees` | hub-api/src/server-registrations/server-registrations.service.ts:177-198 | bulk expiry equals one-by-one expiry in any order and however often |
| `Registration.RStepKeeps` | hub-api/src/server-registrations/server-registrations.service.ts:30-198 | every operation keeps the registration invariant |
| `Registration.RRunKeeps` | hub-api/src/server-registrations/server-registrations.service.ts:30-198 | so does every run |
| `RegistrationService.Service.Create` | hub-api/src/server-registrations/server-registrations.service.ts:30-56 | makes the step `Create`, refused exactly for an unknown owner |
| `RegistrationService.Service.Refresh` | hub-api/src/server-registrations/server-registrations.service.ts:187-198 | expires one overdue pending request |
| `RegistrationService.Service.Decide` | hub-api/src/server-registrations/server-registrations.service.ts:67-122 | makes the step `Decide`, allowed exactly for the owner of a known request |
| `RegistrationService.Service.GetResult` | hub-api/src/server-registrations/server-registrations.service.ts:124-175 | makes the step `GetResult`; a key is answered exactly when a delivery is recorded, and it is that key |
| `RegistrationService.Service.FindPendingForOwner` | hub-api/src/server-registrations/server-registrations.service.ts:58-65 | makes the step `ListPending` and lists exactly the owner's pending requests that are not overdue |

## Left out

- The mobile app, controllers, modules, DTOs, guards and Prisma wiring: plumbing around the modelled services.
- Auth token rotation, the list queries and the public views of rows: they would only add easy members.
- Push notifications, notifications to the app, logging, configuration reading, the mock Hub, `ops/` and `deploy/`.
- The internals of Socket.IO, BullMQ, Prisma and `child_process`: they appear as channels, a queue with five tries, tables and child events; retry delays are not modelled.
- Interleaving inside a handler, server deletion cascades, and the ONLINE flag as a fact about sockets.
- Daemon shutdown and `dispose`, exit on a server-side disconnect, and polling during registration.
- The regular expressions of the approval and failure detectors: any function of the text is allowed in their place.
- Exact wording of the Hub's own log lines and of the watchdog's reason: log lines are structured segments; the columns `startedAt` and `finishedAt` and the descriptive columns of a registration request.
- Surrogate pairs: the length limits count characters where the code counts UTF-16 code units.
- Shell expansions beyond quoting.
- PromptVerbatimIff: takes from JSON that the serialised input holds a double quote whenever the prompt is not empty, since it then spells out a `prompt` property.
- ShellReadsPromptIff: its converse for prompts that mention `{{cwd}}` takes a directory of which a shell would read something other than a quoted brace first; a directory such as `"{{cwd}}"`, quotes included, would read as the placeholder itself, and the configuration never yields an empty directory.
- SingleQuotedReadsIff: for prompts without placeholders; with them, the reading depends on the quotes in the directory and the input.
- UpsertTwiceIff: which values with newlines happen to be stable is not characterised.
- CandidateOrder: says nothing of the order when the preferred server has several eligible rows, because the comparator is then inconsistent and the order is up to the engine.
