/** What holds over whole runs of the Hub, from any initial state, through any
    interleaving of requests, jobs, scans and (stale) daemon events. */
module HubRuns {
  import opened Common
  import opened Tasks
  import opened WorkerRegistry
  import opened Hub
  import opened HubInvariants

  /** At most one live attempt: it is the newest, it runs on the task's current
      server, that server is not excluded, and the task is not queued. */
  lemma {:induction false} SingleLiveAttempt(cfg: Config, s0: HubState, steps: seq<Step>, id: TaskId, i: nat)
    requires ConfigOk(cfg) && Initial(s0) && RunOk(cfg, s0, steps)
    requires id in Run(cfg, s0, steps).tasks
    requires i < |Run(cfg, s0, steps).tasks[id].attempts| && Live(Run(cfg, s0, steps).tasks[id].attempts[i])
    ensures var t := Run(cfg, s0, steps).tasks[id];
            && i == |t.attempts| - 1
            && t.attempts[i].serverId == t.serverId
            && t.serverId !in ExcludedServers(t.attempts)
            && !t.status.Queued?
  {
    RunKeeps(cfg, s0, steps);
  }

  /** The current server and every attempt's server belong to the submitter. */
  lemma {:induction false} OwnerConfinement(cfg: Config, s0: HubState, steps: seq<Step>, id: TaskId)
    requires ConfigOk(cfg) && Initial(s0) && RunOk(cfg, s0, steps)
    requires id in Run(cfg, s0, steps).tasks
    ensures var s := Run(cfg, s0, steps);
            var t := s.tasks[id];
            && OwnsServer(s.servers, t.submitter, t.serverId)
            && forall a :: a in t.attempts ==> OwnsServer(s.servers, t.submitter, a.serverId)
  {
    RunKeeps(cfg, s0, steps);
  }

  // ----- bounded failover -----

  /** The step closed a live attempt of the task and put the task back in the queue. */
  ghost predicate ClosingRequeue(s: HubState, s': HubState, id: TaskId) {
    id in s.tasks && HasLive(s.tasks[id].attempts) && id in s'.tasks && s'.tasks[id].status.Queued?
  }

  ghost function ClosingRequeues(cfg: Config, s0: HubState, steps: seq<Step>, id: TaskId): nat {
    if |steps| == 0 then 0
    else
      var before := steps[..|steps| - 1];
      ClosingRequeues(cfg, s0, before, id)
      + (if ClosingRequeue(Run(cfg, s0, before), Run(cfg, s0, steps), id) then 1 else 0)
  }

  function OwnerServers(servers: ServerTable, owner: UserId): set<ServerId> {
    set x | x in servers && servers[x].ownerId == owner
  }

  /** Servers the task could still be sent to. */
  function Remaining(s: HubState, id: TaskId): set<ServerId>
    requires id in s.tasks
  {
    OwnerServers(s.servers, s.tasks[id].submitter) - ExcludedServers(s.tasks[id].attempts)
  }

  lemma ProperSubsetSmaller(a: set<ServerId>, b: set<ServerId>)
    requires a < b
    ensures |a| < |b|
  {
    SubsetAtMost(a, b);
    if |a| == |b| {
      var x :| x in b && x !in a;
      SubsetAtMost(a, b - {x});
    }
  }

  lemma {:induction false} SubsetAtMost(a: set<ServerId>, b: set<ServerId>)
    requires a <= b
    ensures |a| <= |b|
  {
    if a != {} {
      var x :| x in a;
      SubsetAtMost(a - {x}, b - {x});
    }
  }

  lemma ExcludedAreOwned(s: HubState, id: TaskId)
    requires Inv(s) && id in s.tasks
    ensures ExcludedServers(s.tasks[id].attempts) <= OwnerServers(s.servers, s.tasks[id].submitter)
  {
  }

  lemma ServersKept(cfg: Config, s: HubState, step: Step)
    ensures step.ChangeServers? ==> Apply(cfg, s, step).tasks == s.tasks
    ensures !step.ChangeServers? ==> Apply(cfg, s, step).servers == s.servers
  {
  }

  /** Each closing requeue strictly shrinks the servers that remain. */
  lemma FailoverShrinks(cfg: Config, s: HubState, step: Step, id: TaskId)
    requires ConfigOk(cfg) && Inv(s) && StepOk(cfg, s, step)
    requires ClosingRequeue(s, Apply(cfg, s, step), id)
    ensures Remaining(Apply(cfg, s, step), id) < Remaining(s, id)
  {
    var s' := Apply(cfg, s, step);
    StepKeeps(cfg, s, step);
    ExcludedAreOwned(s', id);
    ServersKept(cfg, s, step);
    var gone :| gone in ExcludedServers(s'.tasks[id].attempts) && gone !in ExcludedServers(s.tasks[id].attempts);
    assert gone in Remaining(s, id) && gone !in Remaining(s', id);
  }

  lemma {:induction false} RequeuesAtMostExcluded(cfg: Config, s0: HubState, steps: seq<Step>, id: TaskId)
    requires ConfigOk(cfg) && Initial(s0) && RunOk(cfg, s0, steps)
    ensures var s := Run(cfg, s0, steps);
            ClosingRequeues(cfg, s0, steps, id) <= (if id in s.tasks then |ExcludedServers(s.tasks[id].attempts)| else 0)
  {
    if |steps| > 0 {
      var before := steps[..|steps| - 1];
      var s, s' := Run(cfg, s0, before), Run(cfg, s0, steps);
      RequeuesAtMostExcluded(cfg, s0, before, id);
      RunKeeps(cfg, s0, before);
      StepKeeps(cfg, s, steps[|steps| - 1]);
      if id in s.tasks {
        var a, b := ExcludedServers(s.tasks[id].attempts), ExcludedServers(s'.tasks[id].attempts);
        SubsetAtMost(a, b);
        if ClosingRequeue(s, s', id) { ProperSubsetSmaller(a, b); }
      }
    }
  }

  /** Failover is bounded by the number of servers of the submitter. */
  lemma {:induction false} BoundedFailover(cfg: Config, s0: HubState, steps: seq<Step>, id: TaskId)
    requires ConfigOk(cfg) && Initial(s0) && RunOk(cfg, s0, steps)
    requires id in Run(cfg, s0, steps).tasks
    ensures var s := Run(cfg, s0, steps);
            && ClosingRequeues(cfg, s0, steps, id) <= |OwnerServers(s.servers, s.tasks[id].submitter)|
            && DistinctExclusions(s.tasks[id].attempts)
  {
    var s := Run(cfg, s0, steps);
    RequeuesAtMostExcluded(cfg, s0, steps, id);
    RunKeeps(cfg, s0, steps);
    ExcludedAreOwned(s, id);
    SubsetAtMost(ExcludedServers(s.tasks[id].attempts), OwnerServers(s.servers, s.tasks[id].submitter));
  }

  // ----- the watchdog over runs -----

  /** The step is a scan that puts the task back in the queue. */
  ghost predicate WatchdogRequeue(cfg: Config, s: HubState, step: Step, id: TaskId) {
    step.Scan? && id in s.tasks && ScanRequeues(cfg, s.tasks[id], s.now)
  }

  ghost function WatchdogRequeueCount(cfg: Config, s0: HubState, steps: seq<Step>, id: TaskId): nat {
    if |steps| == 0 then 0
    else
      var before := steps[..|steps| - 1];
      WatchdogRequeueCount(cfg, s0, before, id)
      + (if WatchdogRequeue(cfg, Run(cfg, s0, before), steps[|steps| - 1], id) then 1 else 0)
  }

  /** Over any run the watchdog requeues a task at most `maxRequeues` times. */
  lemma {:induction false} WatchdogRequeuesBounded(cfg: Config, s0: HubState, steps: seq<Step>, id: TaskId)
    requires ConfigOk(cfg) && Initial(s0) && RunOk(cfg, s0, steps)
    ensures WatchdogRequeueCount(cfg, s0, steps, id) <= cfg.watchdog.maxRequeues
    ensures var s := Run(cfg, s0, steps);
            WatchdogRequeueCount(cfg, s0, steps, id) <= (if id in s.tasks then TimedOutCount(s.tasks[id].attempts) else 0)
  {
    if |steps| > 0 {
      var before := steps[..|steps| - 1];
      var step := steps[|steps| - 1];
      var s := Run(cfg, s0, before);
      WatchdogRequeuesBounded(cfg, s0, before, id);
      RunKeeps(cfg, s0, before);
      StepKeeps(cfg, s, step);
      if WatchdogRequeue(cfg, s, step, id) {
        WatchdogKeeps(s.servers, s.now, s.tasks[id], cfg.watchdog);
      }
    }
  }

  lemma {:induction false} RunMovesForward(cfg: Config, s: HubState, steps: seq<Step>, id: TaskId)
    requires ConfigOk(cfg) && Inv(s) && RunOk(cfg, s, steps) && id in s.tasks
    ensures id in Run(cfg, s, steps).tasks
    ensures s.tasks[id].updatedAt <= Run(cfg, s, steps).tasks[id].updatedAt
    ensures Decided(s.tasks[id]) ==> Run(cfg, s, steps).tasks[id].approval == s.tasks[id].approval
    ensures s.tasks[id].submitter == Run(cfg, s, steps).tasks[id].submitter
    ensures ExcludedServers(s.tasks[id].attempts) <= ExcludedServers(Run(cfg, s, steps).tasks[id].attempts)
  {
    if |steps| > 0 {
      var before := steps[..|steps| - 1];
      RunMovesForward(cfg, s, before, id);
      RunKeeps(cfg, s, before);
      StepKeeps(cfg, Run(cfg, s, before), steps[|steps| - 1]);
    }
  }

  /** A task that awaits approval, or whose status or log event was handled at
      most `timeout` ago, is left alone, whatever happened in between. */
  lemma {:induction false} WatchdogSparesFreshTasks(cfg: Config, s: HubState, event: Step, steps: seq<Step>, id: TaskId)
    requires ConfigOk(cfg) && Inv(s) && id in s.tasks && StepOk(cfg, s, event)
    requires (event.StatusEvent? && event.taskId == id) || (event.LogEvent? && event.taskId == id)
    requires RunOk(cfg, Apply(cfg, s, event), steps)
    ensures var s' := Run(cfg, Apply(cfg, s, event), steps);
            && id in s'.tasks
            && (s'.now - s.now <= cfg.watchdog.timeout || s'.tasks[id].status.AwaitingApproval?
                ==> !WatchdogActs(s'.tasks[id], cfg.watchdog, s'.now))
  {
    StepKeeps(cfg, s, event);
    RunMovesForward(cfg, Apply(cfg, s, event), steps, id);
  }

  // ----- no queued task is forgotten -----

  /** The state of the newest job of the task. */
  function LatestJob(jobs: seq<Job>, id: TaskId): Option<JobState> {
    if |jobs| == 0 then None
    else if jobs[|jobs| - 1].taskId == id then Some(jobs[|jobs| - 1].state)
    else LatestJob(jobs[..|jobs| - 1], id)
  }

  ghost predicate Remembered(jobs: seq<Job>, id: TaskId) {
    LatestJob(jobs, id).Some? && !LatestJob(jobs, id).value.Done?
  }

  ghost predicate QueueInv(s: HubState) {
    forall id :: id in s.tasks && s.tasks[id].status.Queued? ==> Remembered(s.jobs, id)
  }

  lemma {:induction false} AddingJobs(jobs: seq<Job>, ids: seq<TaskId>, id: TaskId)
    ensures LatestJob(jobs + NewJobs(ids), id) == if id in ids then Some(Waiting(0)) else LatestJob(jobs, id)
  {
    if |ids| == 0 {
      assert jobs + NewJobs(ids) == jobs;
    } else {
      var n := |ids| - 1;
      var all := jobs + NewJobs(ids);
      AddingJobs(jobs, ids[..n], id);
      assert all[..|all| - 1] == jobs + NewJobs(ids[..n]);
      assert all[|all| - 1] == Job(ids[n], Waiting(0));
      assert ids == ids[..n] + [ids[n]];
    }
  }

  /** Changing one job's state changes what is known of its own task only. */
  lemma {:induction false} ChangingJob(jobs: seq<Job>, j: nat, state: JobState, id: TaskId)
    requires j < |jobs|
    ensures var jobs' := jobs[j := jobs[j].(state := state)];
            || LatestJob(jobs', id) == LatestJob(jobs, id)
            || (jobs[j].taskId == id && LatestJob(jobs', id) == Some(state))
  {
    var n := |jobs| - 1;
    var jobs' := jobs[j := jobs[j].(state := state)];
    if j < n {
      ChangingJob(jobs[..n], j, state, id);
      assert jobs'[..n] == jobs[..n][j := jobs[j].(state := state)];
    } else {
      assert jobs'[..n] == jobs[..n];
    }
  }

  /** A job that is done leaves its task not queued; one that threw is not done. */
  lemma RunJobShape(cfg: Config, s: HubState, j: nat, replies: seq<Reply>)
    requires j < |s.jobs| && s.jobs[j].state.Waiting?
    ensures var s' := DoRunJob(cfg, s, j, replies);
            && (forall x :: x in s'.tasks ==> x in s.tasks && (s'.tasks[x].status.Queued? ==> s.tasks[x].status.Queued?))
            && (|| (&& s'.jobs == s.jobs[j := s.jobs[j].(state := Done)]
                    && (s.jobs[j].taskId in s'.tasks ==> !s'.tasks[s.jobs[j].taskId].status.Queued?))
                || s'.jobs == s.jobs[j := s.jobs[j].(state := Thrown(s.jobs[j]).state)])
  {
  }

  lemma RunJobRemembers(cfg: Config, s: HubState, j: nat, replies: seq<Reply>)
    requires QueueInv(s) && StepOk(cfg, s, RunJob(j, replies))
    ensures QueueInv(DoRunJob(cfg, s, j, replies))
  {
    var s' := DoRunJob(cfg, s, j, replies);
    RunJobShape(cfg, s, j, replies);
    forall id | id in s'.tasks && s'.tasks[id].status.Queued? ensures Remembered(s'.jobs, id) {
      assert Remembered(s.jobs, id);
      ChangingJob(s.jobs, j, Done, id);
      ChangingJob(s.jobs, j, Thrown(s.jobs[j]).state, id);
    }
  }

  lemma {:induction false} RequeuedMember(cfg: Config, s: HubState, rows: seq<TaskId>, n: nat, id: TaskId)
    requires n <= |rows|
    ensures id in Requeued(cfg, s, rows, n) <==> id in rows[..n] && id in s.tasks && ScanRequeues(cfg, s.tasks[id], s.now)
  {
    if n > 0 {
      RequeuedMember(cfg, s, rows, n - 1, id);
      assert rows[..n] == rows[..n - 1] + [rows[n - 1]];
    }
  }

  lemma ScanRemembers(cfg: Config, s: HubState, rows: seq<TaskId>)
    requires QueueInv(s) && StaleRows(cfg, s, rows)
    ensures QueueInv(DoScan(cfg, s, rows))
  {
    var ids := Requeued(cfg, s, rows, |rows|);
    forall id | id in s.tasks && ScanTask(cfg, s.tasks[id], s.now).status.Queued? ensures Remembered(s.jobs + NewJobs(ids), id) {
      RequeuedMember(cfg, s, rows, |rows|, id);
      assert rows[..|rows|] == rows;
      AddingJobs(s.jobs, ids, id);
    }
  }

  lemma SubmitRemembers(s: HubState, owner: UserId, id: TaskId, server: ServerId, w: WorkerType)
    requires QueueInv(s)
    ensures QueueInv(DoSubmit(s, owner, id, server, w))
  {
    forall x | x in s.tasks || x == id { AddingJobs(s.jobs, [id], x); }
  }

  lemma ResultRemembers(cfg: Config, s: HubState, id: TaskId, p: ResultPayload)
    requires QueueInv(s)
    ensures QueueInv(DoResult(cfg, s, id, p))
  {
    forall x | x in s.tasks || x == id { AddingJobs(s.jobs, [id], x); }
  }

  lemma StepRemembers(cfg: Config, s: HubState, step: Step)
    requires QueueInv(s) && StepOk(cfg, s, step)
    ensures QueueInv(Apply(cfg, s, step))
  {
    match step {
      case RunJob(j, replies) => RunJobRemembers(cfg, s, j, replies);
      case Scan(rows) => ScanRemembers(cfg, s, rows);
      case Submit(owner, id, server, w) => SubmitRemembers(s, owner, id, server, w);
      case ResultEvent(id, p) => ResultRemembers(cfg, s, id, p);
      case _ =>
    }
  }

  /** In every reachable state the newest dispatch job of a queued task, the one
      its latest entry into QUEUED added, is waiting or has used all its tries. */
  lemma {:induction false} NoQueuedTaskForgotten(cfg: Config, s0: HubState, steps: seq<Step>)
    requires Initial(s0) && RunOk(cfg, s0, steps)
    ensures var s := Run(cfg, s0, steps);
            forall id :: id in s.tasks && s.tasks[id].status.Queued? ==>
              LatestJob(s.jobs, id).Some? && (LatestJob(s.jobs, id).value.Waiting? || LatestJob(s.jobs, id).value.Exhausted?)
    ensures QueueInv(Run(cfg, s0, steps))
  {
    if |steps| > 0 {
      var before := steps[..|steps| - 1];
      NoQueuedTaskForgotten(cfg, s0, before);
      StepRemembers(cfg, Run(cfg, s0, before), steps[|steps| - 1]);
    }
  }

  // ----- the dispatch loop -----

  ghost predicate OffersTo(cfg: Config, s: HubState, j: nat, cs: seq<Candidate>) {
    && j < |s.jobs| && s.jobs[j].state.Waiting?
    && s.jobs[j].taskId in s.tasks
    && s.tasks[s.jobs[j].taskId].status.Queued?
    && CandidatesFor(cfg, s, s.tasks[s.jobs[j].taskId]) == Some(cs)
    && |cs| > 0
  }

  ghost predicate OtherRowsSame(s: HubState, s': HubState, id: TaskId) {
    s'.tasks.Keys == s.tasks.Keys && forall x :: x in s.tasks && x != id ==> s'.tasks[x] == s.tasks[x]
  }

  lemma FirstAcceptingIs(replies: seq<Reply>, n: nat, k: nat)
    requires k <= n && (k < n ==> ReplyAt(replies, k).Accepted?)
    requires forall i :: 0 <= i < k ==> ReplyAt(replies, i).Refused?
    ensures FirstAccepting(replies, 0, n) == k
  {
    var f := FirstAccepting(replies, 0, n);
    assert k <= f;
  }

  lemma RefusedRows(t: Task, cs: seq<Candidate>, replies: seq<Reply>, k: nat, now: Time)
    requires k <= |cs| && forall i :: 0 <= i < k ==> ReplyAt(replies, i).Refused?
    ensures RefusedPrefix(RefusedAttempts(ServerIds(cs), replies, k, now), cs, replies, k)
  {
  }

  /** A dispatch job on a queued task commits to the first candidate `k` that
      accepts: one FAILED row for each earlier candidate, in order, none for the
      later ones, the older rows untouched, and exactly one submit is sent. */
  lemma DispatchCommitsToFirst(cfg: Config, s: HubState, j: nat, replies: seq<Reply>, cs: seq<Candidate>, k: nat)
    requires OffersTo(cfg, s, j, cs)
    requires k < |cs| && ReplyAt(replies, k).Accepted? && forall i :: 0 <= i < k ==> ReplyAt(replies, i).Refused?
    ensures var id := s.jobs[j].taskId;
            var s' := Apply(cfg, s, RunJob(j, replies));
            && OtherRowsSame(s, s', id)
            && Committed(s.tasks[id], s'.tasks[id], cs, replies, k, s.now)
            && s'.jobs == s.jobs[j := Job(id, Done)]
            && s'.outbox == s.outbox + [Packet(cs[k].serverId, SubmitTask(id))]
  {
    FirstAcceptingIs(replies, |cs|, k);
    var t := s.tasks[s.jobs[j].taskId];
    RefusedRows(t, cs, replies, k, s.now);
    var refused := RefusedAttempts(ServerIds(cs), replies, k, s.now);
    var u := AfterDispatch(t, ServerIds(cs), replies, s.now);
    assert u.attempts[|t.attempts|..] == refused + [Attempt(cs[k].serverId, AttemptStatus.Running, None, s.now)];
  }

  /** If every candidate refuses, the task stays queued on its server with one
      FAILED row per candidate, and the job's try is used up. */
  lemma DispatchExhausts(cfg: Config, s: HubState, j: nat, replies: seq<Reply>, cs: seq<Candidate>)
    requires OffersTo(cfg, s, j, cs)
    requires forall i :: 0 <= i < |cs| ==> ReplyAt(replies, i).Refused?
    ensures var id := s.jobs[j].taskId;
            var s' := Apply(cfg, s, RunJob(j, replies));
            var t, u := s.tasks[id], s'.tasks[id];
            && OtherRowsSame(s, s', id)
            && u.status.Queued? && u.serverId == t.serverId
            && t.attempts <= u.attempts && |u.attempts| == |t.attempts| + |cs|
            && RefusedPrefix(u.attempts[|t.attempts|..], cs, replies, |cs|)
            && s'.jobs == s.jobs[j := Thrown(s.jobs[j])]
            && s'.outbox == s.outbox
  {
    FirstAcceptingIs(replies, |cs|, |cs|);
    var t := s.tasks[s.jobs[j].taskId];
    RefusedRows(t, cs, replies, |cs|, s.now);
    var u := AfterDispatch(t, ServerIds(cs), replies, s.now);
    assert u.attempts[|t.attempts|..] == RefusedAttempts(ServerIds(cs), replies, |cs|, s.now);
  }

  /** Rows `0..k` are FAILED rows for candidates `0..k`, carrying their messages. */
  ghost predicate RefusedPrefix(rows: seq<Attempt>, cs: seq<Candidate>, replies: seq<Reply>, k: nat) {
    k <= |rows| && k <= |cs| &&
    forall i :: 0 <= i < k ==>
      && rows[i].serverId == cs[i].serverId
      && rows[i].status == AttemptStatus.Failed
      && ReplyAt(replies, i).Refused?
      && rows[i].failureReason == Some(ReplyAt(replies, i).message)
  }

  ghost predicate Committed(t: Task, u: Task, cs: seq<Candidate>, replies: seq<Reply>, k: nat, now: Time) {
    var n := |t.attempts|;
    && k < |cs|
    && t.attempts <= u.attempts && |u.attempts| == n + k + 1
    && RefusedPrefix(u.attempts[n..], cs, replies, k)
    && u.attempts[n + k] == Attempt(cs[k].serverId, AttemptStatus.Running, None, now)
    && u.serverId == cs[k].serverId
    && u.status.Running?
  }

  // ----- the announced next candidate -----

  /** No step of the run starts a dispatch job of the task or changes the server tables. */
  ghost predicate QuietFor(cfg: Config, s: HubState, steps: seq<Step>, id: TaskId) {
    |steps| == 0
    || (&& QuietFor(cfg, s, steps[..|steps| - 1], id)
        && !steps[|steps| - 1].ChangeServers?
        && (steps[|steps| - 1].RunJob? ==>
              var before := Run(cfg, s, steps[..|steps| - 1]);
              steps[|steps| - 1].job < |before.jobs| && before.jobs[steps[|steps| - 1].job].taskId != id))
  }

  /** The task's server and history, and the tables its candidates come from, are the same. */
  ghost predicate SameHistory(s: HubState, s': HubState, id: TaskId) {
    && id in s.tasks && id in s'.tasks && s'.servers == s.servers && s'.profiles == s.profiles
    && s'.tasks[id].attempts == s.tasks[id].attempts && s'.tasks[id].serverId == s.tasks[id].serverId
    && s'.tasks[id].workerType == s.tasks[id].workerType
  }

  lemma NothingToClose(attempts: seq<Attempt>, succeeded: bool, reason: Option<string>, now: Time)
    requires !HasLive(attempts)
    ensures Touch(attempts, now) == attempts && Finish(attempts, succeeded, reason, now) == attempts
  {
  }

  lemma IdleResult(cfg: Config, s: HubState, id: TaskId, other: TaskId, p: ResultPayload)
    requires id in s.tasks && !HasLive(s.tasks[id].attempts)
    ensures SameHistory(s, DoResult(cfg, s, other, p), id)
  {
    NothingToClose(s.tasks[id].attempts, p.completed, if p.completed then None else Some(ORDINARY_FAILURE), s.now);
    NothingToClose(s.tasks[id].attempts, false, Some(FormatStructuredFailureReason(p)), s.now);
  }

  lemma IdleJob(cfg: Config, s: HubState, id: TaskId, j: nat, replies: seq<Reply>)
    requires id in s.tasks && j < |s.jobs| && s.jobs[j].taskId != id
    ensures SameHistory(s, DoRunJob(cfg, s, j, replies), id)
  {
  }

  lemma IdleStep(cfg: Config, s: HubState, step: Step, id: TaskId)
    requires id in s.tasks && !HasLive(s.tasks[id].attempts) && StepOk(cfg, s, step)
    requires !step.ChangeServers? && (step.RunJob? ==> s.jobs[step.job].taskId != id)
    ensures SameHistory(s, Apply(cfg, s, step), id)
  {
    NothingToClose(s.tasks[id].attempts, false, None, s.now);
    match step {
      case RunJob(j, replies) => IdleJob(cfg, s, id, j, replies);
      case ResultEvent(other, p) => IdleResult(cfg, s, id, other, p);
      case _ =>
    }
  }

  /** Without a dispatch nothing can touch the history of a task with no live attempt. */
  lemma {:induction false} QuietKeepsHistory(cfg: Config, s: HubState, steps: seq<Step>, id: TaskId)
    requires id in s.tasks && !HasLive(s.tasks[id].attempts) && RunOk(cfg, s, steps) && QuietFor(cfg, s, steps, id)
    ensures SameHistory(s, Run(cfg, s, steps), id)
  {
    if |steps| > 0 {
      var before := steps[..|steps| - 1];
      QuietKeepsHistory(cfg, s, before, id);
      IdleStep(cfg, Run(cfg, s, before), steps[|steps| - 1], id);
    }
  }

  /** The note the Hub leaves on a capacity requeue. */
  ghost predicate Announces(t: Task, failed: ServerId, next: ServerId) {
    |t.logs| > 0 && t.logs[|t.logs| - 1] == CapacityFailover(failed, next)
  }

  /** A capacity failure that closes a live attempt and requeues announces the
      head of the candidate list as it now stands, never the failed server. */
  lemma CapacityAnnounces(cfg: Config, s: HubState, id: TaskId, p: ResultPayload) returns (cs: seq<Candidate>)
    requires ConfigOk(cfg) && Inv(s) && id in s.tasks && HasLive(s.tasks[id].attempts) && IsRetryableCapacityFailure(p)
    requires Apply(cfg, s, ResultEvent(id, p)).tasks[id].status.Queued?
    ensures var s1 := Apply(cfg, s, ResultEvent(id, p));
            && |cs| > 0 && CandidatesFor(cfg, s1, s1.tasks[id]) == Some(cs)
            && !HasLive(s1.tasks[id].attempts)
            && cs[0].serverId != s.tasks[id].serverId
            && Announces(s1.tasks[id], s.tasks[id].serverId, cs[0].serverId)
  {
    var t := s.tasks[id];
    var closed := CloseForCapacity(t, p, s.now);
    ReasonHasPrefix(p);
    FinishKeeps(s.servers, s.now, t, false, Some(FormatStructuredFailureReason(p)), closed);
    LatestLiveIsLast(t);
    CandidatesAreGood(cfg, s, closed);
    cs := CandidatesFor(cfg, s, closed).value;
    assert cs[0] in cs;
  }

  /** However long the task then waits, with the server tables unchanged, the
      next dispatch tries the announced server first. */
  lemma {:induction false} AnnouncedCandidateIsTried(cfg: Config, s: HubState, id: TaskId, p: ResultPayload, steps: seq<Step>, j: nat, replies: seq<Reply>)
    returns (next: ServerId)
    requires ConfigOk(cfg) && Inv(s) && id in s.tasks && HasLive(s.tasks[id].attempts) && IsRetryableCapacityFailure(p)
    requires var s1 := Apply(cfg, s, ResultEvent(id, p));
             && s1.tasks[id].status.Queued?
             && RunOk(cfg, s1, steps) && QuietFor(cfg, s1, steps, id)
             && (var s2 := Run(cfg, s1, steps);
                 && id in s2.tasks && s2.tasks[id].status.Queued?
                 && j < |s2.jobs| && s2.jobs[j] == Job(id, s2.jobs[j].state) && s2.jobs[j].state.Waiting?)
    ensures var s1 := Apply(cfg, s, ResultEvent(id, p));
            var s2 := Run(cfg, s1, steps);
            var s3 := Apply(cfg, s2, RunJob(j, replies));
            && Announces(s1.tasks[id], s.tasks[id].serverId, next)
            && next != s.tasks[id].serverId
            && id in s3.tasks && s2.tasks[id].attempts < s3.tasks[id].attempts
            && s3.tasks[id].attempts[|s2.tasks[id].attempts|].serverId == next
  {
    var s1 := Apply(cfg, s, ResultEvent(id, p));
    var s2 := Run(cfg, s1, steps);
    var cs := CapacityAnnounces(cfg, s, id, p);
    next := cs[0].serverId;
    QuietKeepsHistory(cfg, s1, steps, id);
    assert CandidatesFor(cfg, s2, s2.tasks[id]) == Some(cs);
    DispatchTriesHead(cfg, s2, j, replies, cs);
  }

  /** Whatever the replies, a dispatch tries the head of the candidate list first. */
  lemma DispatchTriesHead(cfg: Config, s: HubState, j: nat, replies: seq<Reply>, cs: seq<Candidate>)
    requires OffersTo(cfg, s, j, cs)
    ensures var id := s.jobs[j].taskId;
            var s' := Apply(cfg, s, RunJob(j, replies));
            && id in s'.tasks && s.tasks[id].attempts < s'.tasks[id].attempts
            && s'.tasks[id].attempts[|s.tasks[id].attempts|].serverId == cs[0].serverId
  {
    FirstRow(s.tasks[s.jobs[j].taskId], cs, replies, s.now);
  }

  /** The first new row of a dispatch is for the first candidate. */
  lemma FirstRow(t: Task, cs: seq<Candidate>, replies: seq<Reply>, now: Time)
    requires |cs| > 0
    ensures var u := AfterDispatch(t, ServerIds(cs), replies, now);
            t.attempts < u.attempts && u.attempts[|t.attempts|].serverId == cs[0].serverId
  {
    var servers := ServerIds(cs);
    var k := FirstAccepting(replies, 0, |servers|);
    var refused := RefusedAttempts(servers, replies, k, now);
    if k > 0 { assert refused[0] == RefusedAttempt(servers[0], ReplyAt(replies, 0), now); }
  }

  // ----- whom a capacity failure excludes -----

  /** A capacity failure excludes the server of the task's live attempt, and nobody
      else: whichever daemon sent the result. */
  lemma CapacityExcludes(cfg: Config, s: HubState, id: TaskId, p: ResultPayload)
    requires Inv(s) && id in s.tasks && IsRetryableCapacityFailure(p)
    ensures var t, u := s.tasks[id], Apply(cfg, s, ResultEvent(id, p)).tasks[id];
            ExcludedServers(u.attempts) == ExcludedServers(t.attempts) + (if HasLive(t.attempts) then {t.serverId} else {})
  {
    var t := s.tasks[id];
    var closed := CloseForCapacity(t, p, s.now);
    var reason := Some(FormatStructuredFailureReason(p));
    ReasonHasPrefix(p);
    LatestLiveIsLast(t);
    if HasLive(t.attempts) { ReplaceLast(t.attempts, closed.attempts[|t.attempts| - 1]); }
  }

  // ----- finished tasks -----

  predicate Finished(status: TaskStatus) {
    status.Completed? || status.Failed? || status.Cancelled?
  }

  /** COMPLETED, FAILED and CANCELLED are not absorbing.  A step brings a
      finished task back exactly in one of these four cases. */
  lemma FinishedTaskRevivedIff(cfg: Config, s: HubState, step: Step, id: TaskId)
    requires StepOk(cfg, s, step) && id in s.tasks && Finished(s.tasks[id].status)
    ensures var t := s.tasks[id];
            id in Apply(cfg, s, step).tasks &&
            (!Finished(Apply(cfg, s, step).tasks[id].status) <==>
              || (step.StatusEvent? && step.taskId == id && !Finished(step.status))
              || (step.ResultEvent? && step.taskId == id && IsRetryableCapacityFailure(step.payload)
                  && CandidatesLeft(cfg, s, CloseForCapacity(t, step.payload, s.now)))
              || (step.ApprovalEvent? && step.taskId == id && t.approval.None?)
              || (step.Decide? && step.taskId == id && step.approve && t.approval == Some(ApprovalStatus.Pending)
                  && OwnsServer(s.servers, step.owner, t.serverId)))
  {
    if step.ResultEvent? && step.taskId == id && IsRetryableCapacityFailure(step.payload) {
      var closed := CloseForCapacity(s.tasks[id], step.payload, s.now);
      assert CandidatesLeft(cfg, s, closed) <==> CandidatesFor(cfg, s, closed).Some? && |CandidatesFor(cfg, s, closed).value| > 0;
    }
  }

  /** A result changes the status of a finished task: to QUEUED, to FAILED once
      nobody is left to try, or to what it reports. */
  ghost predicate ResultChanges(cfg: Config, s: HubState, t: Task, p: ResultPayload) {
    if IsRetryableCapacityFailure(p) then
      var cs := CandidatesFor(cfg, s, CloseForCapacity(t, p, s.now));
      cs.Some? && (cs.value != [] || !t.status.Failed?)
    else if p.completed then !t.status.Completed?
    else !t.status.Failed?
  }

  lemma ResultChangesIff(cfg: Config, s: HubState, id: TaskId, p: ResultPayload)
    requires id in s.tasks && Finished(s.tasks[id].status)
    ensures DoResult(cfg, s, id, p).tasks[id].status != s.tasks[id].status <==> ResultChanges(cfg, s, s.tasks[id], p)
  {
    var cs := CandidatesFor(cfg, s, CloseForCapacity(s.tasks[id], p, s.now));
    assert cs.Some? ==> (cs.value == [] <==> |cs.value| == 0);
  }

  /** Exactly the steps that change the status of a finished task, to another
      finished one or back: a different reported status, a result as above, a
      first approval request, a cancel that reaches the daemon of a task not yet
      cancelled, and a decision of the owner other than rejecting a cancelled task. */
  lemma FinishedStatusChangesIff(cfg: Config, s: HubState, step: Step, id: TaskId)
    requires StepOk(cfg, s, step) && id in s.tasks && Finished(s.tasks[id].status)
    ensures var t := s.tasks[id];
            id in Apply(cfg, s, step).tasks &&
            (Apply(cfg, s, step).tasks[id].status != t.status <==>
              || (step.StatusEvent? && step.taskId == id && step.status != t.status)
              || (step.ResultEvent? && step.taskId == id && ResultChanges(cfg, s, t, step.payload))
              || (step.ApprovalEvent? && step.taskId == id && t.approval.None?)
              || (step.Cancel? && step.taskId == id && OwnsServer(s.servers, step.owner, t.serverId)
                  && Supported(t.workerType) && step.delivered && !t.status.Cancelled?)
              || (step.Decide? && step.taskId == id && t.approval == Some(ApprovalStatus.Pending)
                  && OwnsServer(s.servers, step.owner, t.serverId) && (step.approve || !t.status.Cancelled?)))
  {
    if step.ResultEvent? && step.taskId == id { ResultChangesIff(cfg, s, id, step.payload); }
  }

  ghost predicate CandidatesLeft(cfg: Config, s: HubState, t: Task) {
    CandidatesFor(cfg, s, t).Some? && CandidatesFor(cfg, s, t).value != []
  }
}
