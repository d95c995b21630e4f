/** Which step writes which status of a task, and when it gets a new job: one table
    for all steps, and what follows from it for the watchdog and the queue. */
module HubStatus {
  import opened Common
  import opened Tasks
  import opened WorkerRegistry
  import opened Hub
  import opened HubInvariants
  import opened HubLaws

  // ----- the table -----

  /** The task is RUNNING, its newest attempt is live, and neither has been heard of
      for longer than the timeout. */
  predicate GoneStale(t: Task, timeout: nat, now: Time) {
    && t.status == TaskStatus.Running && now - t.updatedAt > timeout
    && |t.attempts| > 0 && Live(t.attempts[|t.attempts| - 1]) && now - t.attempts[|t.attempts| - 1].lastSeenAt > timeout
  }

  predicate OwnedBy(s: HubState, t: Task, user: UserId) {
    t.serverId in s.servers && s.servers[t.serverId].ownerId == user
  }

  /** A dispatch job of the task finds it QUEUED and some candidate accepts. */
  ghost predicate Accepts(cfg: Config, s: HubState, j: nat, replies: seq<Reply>, id: TaskId)
    requires id in s.tasks
  {
    && j < |s.jobs| && s.jobs[j].taskId == id && s.jobs[j].state.Waiting? && s.tasks[id].status == TaskStatus.Queued
    && CandidatesFor(cfg, s, s.tasks[id]).Some?
    && exists k :: 0 <= k < |CandidatesFor(cfg, s, s.tasks[id]).value| && ReplyAt(replies, k).Accepted?
  }

  /** The status a step writes for the task, if it writes one. */
  ghost function Written(cfg: Config, s: HubState, step: Step, id: TaskId): Option<TaskStatus>
    requires id in s.tasks
  {
    var t := s.tasks[id];
    match step
    case StatusEvent(x, status) => if x == id then Some(status) else None
    case ResultEvent(x, p) =>
      if x != id then None
      else if !AsksForFailover(p) then Some(if p.completed then TaskStatus.Completed else TaskStatus.Failed)
      else if t.workerType != Codex then None
      else if exists y :: CanTakeOver(s, t, y) then Some(TaskStatus.Queued)
      else Some(TaskStatus.Failed)
    case ApprovalEvent(x) => if x == id && t.approval == None then Some(AwaitingApproval) else None
    case Cancel(user, x, delivered) =>
      if x == id && OwnedBy(s, t, user) && t.workerType == Codex && delivered then Some(Cancelled) else None
    case Decide(user, x, approve, _) =>
      if x == id && OwnedBy(s, t, user) && t.approval == Some(ApprovalStatus.Pending)
      then Some(if approve then TaskStatus.Running else Cancelled) else None
    case RunJob(j, replies) => if Accepts(cfg, s, j, replies, id) then Some(TaskStatus.Running) else None
    case Scan(_) =>
      if !GoneStale(t, cfg.watchdog.timeout, s.now) then None
      else if TimedOutCount(t.attempts) < cfg.watchdog.maxRequeues then Some(TaskStatus.Queued)
      else Some(TaskStatus.Failed)
    case _ => None
  }

  ghost predicate StatusIs(cfg: Config, s: HubState, step: Step, id: TaskId)
    requires id in s.tasks
  {
    && id in Apply(cfg, s, step).tasks
    && Apply(cfg, s, step).tasks[id].status
       == (if Written(cfg, s, step, id).Some? then Written(cfg, s, step, id).value else s.tasks[id].status)
  }

  lemma JobStatus(cfg: Config, s: HubState, j: nat, replies: seq<Reply>, id: TaskId)
    requires id in s.tasks && j < |s.jobs|
    ensures StatusIs(cfg, s, RunJob(j, replies), id)
  {
    var cs := CandidatesFor(cfg, s, s.tasks[id]);
    if s.jobs[j].taskId == id && s.jobs[j].state.Waiting? && s.tasks[id].status.Queued? && cs.Some? {
      var k := FirstAccepting(replies, 0, |cs.value|);
      assert k < |cs.value| <==> exists i :: 0 <= i < |cs.value| && ReplyAt(replies, i).Accepted?;
    }
  }

  lemma ResultStatus(cfg: Config, s: HubState, x: TaskId, p: ResultPayload, id: TaskId)
    requires ConfigOk(cfg) && Inv(s) && id in s.tasks
    ensures StatusIs(cfg, s, ResultEvent(x, p), id)
  {
    if x == id {
      if s.tasks[id].workerType == Codex { ResultLaw(cfg, s, id, p); } else { UnsupportedResultLaw(cfg, s, id, p); }
    }
  }

  lemma ScanStatus(cfg: Config, s: HubState, rows: seq<TaskId>, id: TaskId)
    requires id in s.tasks
    ensures StatusIs(cfg, s, Scan(rows), id)
  {
  }

  /** Every step leaves every task with the status the table says, and with the one
      it had where the table says nothing. */
  lemma StatusLaw(cfg: Config, s: HubState, step: Step, id: TaskId)
    requires ConfigOk(cfg) && Inv(s) && StepOk(cfg, s, step) && id in s.tasks
    ensures StatusIs(cfg, s, step, id)
  {
    match step {
      case RunJob(j, replies) => JobStatus(cfg, s, j, replies, id);
      case ResultEvent(x, p) => ResultStatus(cfg, s, x, p, id);
      case Scan(rows) => ScanStatus(cfg, s, rows, id);
      case _ =>
    }
  }

  // ----- jobs -----

  function CountJobs(jobs: seq<Job>, id: TaskId): nat {
    if |jobs| == 0 then 0 else CountJobs(jobs[..|jobs| - 1], id) + (if jobs[|jobs| - 1].taskId == id then 1 else 0)
  }

  lemma CountSnoc(jobs: seq<Job>, job: Job, id: TaskId)
    ensures CountJobs(jobs + [job], id) == CountJobs(jobs, id) + (if job.taskId == id then 1 else 0)
  {
    assert (jobs + [job])[..|jobs|] == jobs;
  }

  lemma {:induction false} CountUpdated(jobs: seq<Job>, j: nat, state: JobState, id: TaskId)
    requires j < |jobs|
    ensures CountJobs(jobs[j := jobs[j].(state := state)], id) == CountJobs(jobs, id)
  {
    var n := |jobs| - 1;
    var jobs' := jobs[j := jobs[j].(state := state)];
    if j < n {
      CountUpdated(jobs[..n], j, state, id);
      assert jobs'[..n] == jobs[..n][j := jobs[j].(state := state)];
    } else {
      assert jobs'[..n] == jobs[..n];
    }
  }

  lemma CountOneMore(jobs: seq<Job>, ids: seq<TaskId>, x: TaskId, id: TaskId)
    ensures CountJobs(jobs + NewJobs(ids + [x]), id) == CountJobs(jobs + NewJobs(ids), id) + (if x == id then 1 else 0)
  {
    assert jobs + NewJobs(ids + [x]) == (jobs + NewJobs(ids)) + [Job(x, Waiting(0))];
    CountSnoc(jobs + NewJobs(ids), Job(x, Waiting(0)), id);
  }

  lemma OneMoreRow(rows: seq<TaskId>, n: nat, id: TaskId)
    requires 0 < n <= |rows| && forall i, j :: 0 <= i < j < |rows| ==> rows[i] != rows[j]
    ensures id in rows[..n] <==> id in rows[..n - 1] || id == rows[n - 1]
    ensures rows[n - 1] !in rows[..n - 1]
  {
    assert rows[..n] == rows[..n - 1] + [rows[n - 1]];
  }

  /** A scan adds one job for each task it puts back, and no other. */
  lemma {:induction false} CountRequeued(cfg: Config, s: HubState, rows: seq<TaskId>, n: nat, id: TaskId)
    requires n <= |rows| && forall i, j :: 0 <= i < j < |rows| ==> rows[i] != rows[j]
    ensures CountJobs(s.jobs + NewJobs(Requeued(cfg, s, rows, n)), id)
         == CountJobs(s.jobs, id) + (if id in rows[..n] && id in s.tasks && ScanRequeues(cfg, s.tasks[id], s.now) then 1 else 0)
  {
    if n == 0 {
      assert s.jobs + NewJobs([]) == s.jobs;
    } else {
      CountRequeued(cfg, s, rows, n - 1, id);
      OneMoreRow(rows, n, id);
      CountOneMore(s.jobs, Requeued(cfg, s, rows, n - 1), rows[n - 1], id);
    }
  }

  /** The step puts the task in the queue: a submit that creates it, or one that
      the table says writes QUEUED. */
  ghost predicate Enqueues(cfg: Config, s: HubState, step: Step, id: TaskId) {
    if id in s.tasks then !step.StatusEvent? && Written(cfg, s, step, id) == Some(TaskStatus.Queued)
    else step.Submit? && step.taskId == id && step.serverId in s.servers && s.servers[step.serverId].ownerId == step.owner
  }

  lemma ScanJobs(cfg: Config, s: HubState, rows: seq<TaskId>, id: TaskId)
    requires StaleRows(cfg, s, rows)
    ensures CountJobs(DoScan(cfg, s, rows).jobs, id)
         == CountJobs(s.jobs, id) + (if Enqueues(cfg, s, Scan(rows), id) then 1 else 0)
  {
    CountRequeued(cfg, s, rows, |rows|, id);
    assert rows[..|rows|] == rows;
  }

  lemma RunJobJobs(cfg: Config, s: HubState, j: nat, replies: seq<Reply>, id: TaskId)
    requires j < |s.jobs|
    ensures CountJobs(DoRunJob(cfg, s, j, replies).jobs, id) == CountJobs(s.jobs, id)
  {
    CountUpdated(s.jobs, j, Done, id);
    CountUpdated(s.jobs, j, Thrown(s.jobs[j]).state, id);
  }

  lemma OneNewJob(s: HubState, x: TaskId, id: TaskId)
    ensures CountJobs(Requeue(s, x).jobs, id) == CountJobs(s.jobs, id) + (if x == id then 1 else 0)
  {
    assert NewJobs([x]) == [Job(x, Waiting(0))];
    CountSnoc(s.jobs, Job(x, Waiting(0)), id);
  }

  lemma ResultJobs(cfg: Config, s: HubState, x: TaskId, p: ResultPayload, id: TaskId)
    requires ConfigOk(cfg) && Inv(s)
    ensures CountJobs(DoResult(cfg, s, x, p).jobs, id)
         == CountJobs(s.jobs, id) + (if Enqueues(cfg, s, ResultEvent(x, p), id) then 1 else 0)
  {
    if x in s.tasks {
      if s.tasks[x].workerType == Codex { ResultLaw(cfg, s, x, p); } else { UnsupportedResultLaw(cfg, s, x, p); }
      CountSnoc(s.jobs, Job(x, Waiting(0)), id);
    }
  }

  /** In every step a task gets exactly one new job if it is put in the queue, and
      none otherwise. */
  lemma JobLaw(cfg: Config, s: HubState, step: Step, id: TaskId)
    requires ConfigOk(cfg) && Inv(s) && StepOk(cfg, s, step)
    ensures CountJobs(Apply(cfg, s, step).jobs, id) == CountJobs(s.jobs, id) + (if Enqueues(cfg, s, step, id) then 1 else 0)
  {
    match step {
      case Submit(_, x, _, _) => OneNewJob(s, x, id);
      case RunJob(j, replies) => RunJobJobs(cfg, s, j, replies, id);
      case Scan(rows) => ScanJobs(cfg, s, rows, id);
      case ResultEvent(x, p) => ResultJobs(cfg, s, x, p, id);
      case _ =>
    }
  }

  /** A submit creates a task exactly if the user owns the server: QUEUED there, with
      nothing tried, logged, stored or approved yet; other tasks stay. */
  lemma SubmitLaw(cfg: Config, s: HubState, user: UserId, id: TaskId, server: ServerId, w: WorkerType)
    requires id !in s.tasks
    ensures var s' := Apply(cfg, s, Step.Submit(user, id, server, w));
            && (id in s'.tasks <==> server in s.servers && s.servers[server].ownerId == user)
            && (id in s'.tasks ==>
                  && s'.tasks[id].status == TaskStatus.Queued && s'.tasks[id].serverId == server && s'.tasks[id].workerType == w
                  && s'.tasks[id].attempts == [] && s'.tasks[id].logs == [] && s'.tasks[id].result == None && s'.tasks[id].approval == None)
            && (forall x :: x in s.tasks ==> x in s'.tasks && s'.tasks[x] == s.tasks[x])
  {
  }

  // ----- messages -----

  /** The messages a step hands to the socket layer: a submit to the first candidate
      that accepts, a cancel or a decision to the task's server, and nothing else. */
  ghost function Sent(cfg: Config, s: HubState, step: Step): seq<Packet> {
    match step
    case RunJob(j, replies) =>
      if j < |s.jobs| && s.jobs[j].taskId in s.tasks && Accepts(cfg, s, j, replies, s.jobs[j].taskId) then
        var cs := CandidatesFor(cfg, s, s.tasks[s.jobs[j].taskId]).value;
        var k := FirstAccepting(replies, 0, |cs|);
        if k < |cs| then [Packet(cs[k].serverId, SubmitTask(s.jobs[j].taskId))] else []
      else []
    case Cancel(user, id, delivered) =>
      if id in s.tasks && OwnedBy(s, s.tasks[id], user) && s.tasks[id].workerType == Codex && delivered
      then [Packet(s.tasks[id].serverId, CancelTask(id))] else []
    case Decide(user, id, approve, delivered) =>
      if id in s.tasks && OwnedBy(s, s.tasks[id], user) && s.tasks[id].approval == Some(ApprovalStatus.Pending) && delivered
      then [Packet(s.tasks[id].serverId, ApprovalDecision(id, approve))] else []
    case _ => []
  }

  lemma JobMessages(cfg: Config, s: HubState, j: nat, replies: seq<Reply>)
    requires j < |s.jobs| && s.jobs[j].state.Waiting?
    ensures DoRunJob(cfg, s, j, replies).outbox == s.outbox + Sent(cfg, s, RunJob(j, replies))
  {
    assert s.outbox + [] == s.outbox;
    if s.jobs[j].taskId in s.tasks {
      var cs := CandidatesFor(cfg, s, s.tasks[s.jobs[j].taskId]);
      if cs.Some? {
        var k := FirstAccepting(replies, 0, |cs.value|);
        assert k < |cs.value| <==> exists i :: 0 <= i < |cs.value| && ReplyAt(replies, i).Accepted?;
      }
    }
  }

  /** Every step sends exactly those messages. */
  lemma MessageLaw(cfg: Config, s: HubState, step: Step)
    requires StepOk(cfg, s, step)
    ensures Apply(cfg, s, step).outbox == s.outbox + Sent(cfg, s, step)
  {
    assert s.outbox + [] == s.outbox;
    if step.RunJob? { JobMessages(cfg, s, step.job, step.replies); }
  }

  // ----- tries of a job -----

  /** How often job `j` has been run. */
  function Tries(steps: seq<Step>, j: nat): nat {
    if |steps| == 0 then 0
    else Tries(steps[..|steps| - 1], j) + (if steps[|steps| - 1].RunJob? && steps[|steps| - 1].job == j then 1 else 0)
  }

  lemma {:induction false} NoTries(cfg: Config, s0: HubState, steps: seq<Step>, j: nat)
    requires RunOk(cfg, s0, steps) && j >= |Run(cfg, s0, steps).jobs|
    ensures Tries(steps, j) == 0
  {
    if |steps| > 0 {
      var before := steps[..|steps| - 1];
      JobsGrow(cfg, Run(cfg, s0, before), steps[|steps| - 1]);
      NoTries(cfg, s0, before, j);
    }
  }

  /** Jobs are only added, and only running a job changes its state; a new job waits. */
  lemma JobsGrow(cfg: Config, s: HubState, step: Step)
    ensures var s' := Apply(cfg, s, step);
            && |s.jobs| <= |s'.jobs|
            && (forall j :: 0 <= j < |s.jobs| && !(step.RunJob? && step.job == j) ==> s'.jobs[j] == s.jobs[j])
            && (forall j :: |s.jobs| <= j < |s'.jobs| ==> s'.jobs[j].state == Waiting(0))
  {
  }

  /** In every run, a job that still waits has been run fewer than five times, each
      time in vain; one that is given up has been run exactly five times. */
  lemma {:induction false} JobIsTriedFiveTimes(cfg: Config, s0: HubState, steps: seq<Step>, j: nat)
    requires Initial(s0) && RunOk(cfg, s0, steps) && j < |Run(cfg, s0, steps).jobs|
    ensures var state := Run(cfg, s0, steps).jobs[j].state;
            && (state.Waiting? ==> state.used == Tries(steps, j) && Tries(steps, j) < 5)
            && (state.Exhausted? ==> Tries(steps, j) == 5)
            && (state.Done? ==> 1 <= Tries(steps, j) <= 5)
  {
    if |steps| > 0 {
      var before, step := steps[..|steps| - 1], steps[|steps| - 1];
      var s := Run(cfg, s0, before);
      JobsGrow(cfg, s, step);
      if j < |s.jobs| {
        JobIsTriedFiveTimes(cfg, s0, before, j);
        if step.RunJob? && step.job == j { RunJobEnds(cfg, s, j, step.replies); }
      } else {
        NoTries(cfg, s0, before, j);
      }
    }
  }

  lemma RunJobEnds(cfg: Config, s: HubState, j: nat, replies: seq<Reply>)
    requires j < |s.jobs| && s.jobs[j].state.Waiting?
    ensures var s' := DoRunJob(cfg, s, j, replies);
            && j < |s'.jobs|
            && (|| s'.jobs[j].state == Done
                || s'.jobs[j].state == (if s.jobs[j].state.used + 1 >= 5 then Exhausted else Waiting(s.jobs[j].state.used + 1)))
  {
  }

  /** A job that finds its task QUEUED and no taker is not done: it waits for its
      next try, or is given up at the fifth. */
  lemma FailedTryWaits(cfg: Config, s: HubState, j: nat, replies: seq<Reply>)
    requires j < |s.jobs| && s.jobs[j].state.Waiting? && s.jobs[j].taskId in s.tasks
    requires s.tasks[s.jobs[j].taskId].status == TaskStatus.Queued
    ensures Apply(cfg, s, RunJob(j, replies)).jobs[j].state == Done <==> Accepts(cfg, s, j, replies, s.jobs[j].taskId)
  {
    var cs := CandidatesFor(cfg, s, s.tasks[s.jobs[j].taskId]);
    if cs.Some? {
      var k := FirstAccepting(replies, 0, |cs.value|);
      assert k < |cs.value| <==> exists i :: 0 <= i < |cs.value| && ReplyAt(replies, i).Accepted?;
    }
  }
}
