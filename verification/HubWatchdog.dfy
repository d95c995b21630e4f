/** The watchdog over whole runs: when it acts, and which of its timeouts put the
    task back in the queue. */
module HubWatchdog {
  import opened Common
  import opened Tasks
  import opened WorkerRegistry
  import opened Hub
  import opened HubInvariants
  import opened HubLaws
  import opened HubStatus

  // ----- only the watchdog times attempts out -----

  /** The step is a scan that finds the task stale. */
  ghost predicate TimesOutTask(cfg: Config, s: HubState, step: Step, id: TaskId) {
    step.Scan? && id in s.tasks && GoneStale(s.tasks[id], cfg.watchdog.timeout, s.now)
  }

  lemma TouchKeepsCount(t: Task, now: Time)
    requires LiveInv(t)
    ensures TimedOutCount(Touch(t.attempts, now)) == TimedOutCount(t.attempts)
  {
    LatestLiveIsLast(t);
    if HasLive(t.attempts) {
      ReplaceLast(t.attempts, t.attempts[|t.attempts| - 1].(status := AttemptStatus.Running, lastSeenAt := now));
    }
  }

  lemma FinishKeepsCount(t: Task, succeeded: bool, reason: Option<string>, now: Time)
    requires LiveInv(t)
    ensures TimedOutCount(Finish(t.attempts, succeeded, reason, now)) == TimedOutCount(t.attempts)
  {
    LatestLiveIsLast(t);
    if HasLive(t.attempts) {
      ReplaceLast(t.attempts, Finish(t.attempts, succeeded, reason, now)[|t.attempts| - 1]);
    }
  }

  lemma {:induction false} AppendKeepsCount(a: seq<Attempt>, more: seq<Attempt>)
    requires forall i :: 0 <= i < |more| ==> !more[i].status.TimedOut?
    ensures TimedOutCount(a + more) == TimedOutCount(a)
  {
    if |more| == 0 {
      assert a + more == a;
    } else {
      var n := |more| - 1;
      AppendKeepsCount(a, more[..n]);
      assert a + more == (a + more[..n]) + [more[n]];
      TimedOutSnoc(a + more[..n], more[n]);
    }
  }

  lemma DispatchKeepsCount(t: Task, servers: seq<ServerId>, replies: seq<Reply>, now: Time)
    ensures TimedOutCount(AfterDispatch(t, servers, replies, now).attempts) == TimedOutCount(t.attempts)
  {
    var k := FirstAccepting(replies, 0, |servers|);
    var refused := RefusedAttempts(servers, replies, k, now);
    var u := AfterDispatch(t, servers, replies, now);
    AppendKeepsCount(t.attempts, refused);
    if k < |servers| { TimedOutSnoc(t.attempts + refused, Attempt(servers[k], AttemptStatus.Running, None, now)); }
  }

  lemma JobKeepsCount(cfg: Config, s: HubState, j: nat, replies: seq<Reply>, id: TaskId)
    requires id in s.tasks && j < |s.jobs|
    ensures id in DoRunJob(cfg, s, j, replies).tasks
    ensures TimedOutCount(DoRunJob(cfg, s, j, replies).tasks[id].attempts) == TimedOutCount(s.tasks[id].attempts)
  {
    var cs := CandidatesFor(cfg, s, s.tasks[id]);
    if cs.Some? { DispatchKeepsCount(s.tasks[id], ServerIds(cs.value), replies, s.now); }
  }

  lemma ResultKeepsCount(cfg: Config, s: HubState, x: TaskId, p: ResultPayload, id: TaskId)
    requires id in s.tasks && LiveInv(s.tasks[id])
    ensures id in DoResult(cfg, s, x, p).tasks
    ensures TimedOutCount(DoResult(cfg, s, x, p).tasks[id].attempts) == TimedOutCount(s.tasks[id].attempts)
  {
    FinishKeepsCount(s.tasks[id], p.completed, if p.completed then None else Some(ORDINARY_FAILURE), s.now);
    FinishKeepsCount(s.tasks[id], false, Some(FormatStructuredFailureReason(p)), s.now);
  }

  /** A step adds a timed-out attempt exactly if it is a scan that finds the task stale. */
  lemma TimeoutStep(cfg: Config, s: HubState, step: Step, id: TaskId)
    requires ConfigOk(cfg) && Inv(s) && StepOk(cfg, s, step) && id in s.tasks
    ensures id in Apply(cfg, s, step).tasks
    ensures TimedOutCount(Apply(cfg, s, step).tasks[id].attempts)
         == TimedOutCount(s.tasks[id].attempts) + (if TimesOutTask(cfg, s, step, id) then 1 else 0)
  {
    var t := s.tasks[id];
    TouchKeepsCount(t, s.now);
    match step {
      case RunJob(j, replies) => JobKeepsCount(cfg, s, j, replies, id);
      case ResultEvent(x, p) => ResultKeepsCount(cfg, s, x, p, id);
      case Scan(_) => if WatchdogActs(t, cfg.watchdog, s.now) { WatchdogKeeps(s.servers, s.now, t, cfg.watchdog); }
      case _ =>
    }
  }

  ghost function Timeouts(cfg: Config, s0: HubState, steps: seq<Step>, id: TaskId): nat {
    if |steps| == 0 then 0
    else
      var before := steps[..|steps| - 1];
      Timeouts(cfg, s0, before, id) + (if TimesOutTask(cfg, Run(cfg, s0, before), steps[|steps| - 1], id) then 1 else 0)
  }

  lemma {:induction false} TimeoutsCounted(cfg: Config, s0: HubState, steps: seq<Step>, id: TaskId)
    requires ConfigOk(cfg) && Initial(s0) && RunOk(cfg, s0, steps)
    ensures var s := Run(cfg, s0, steps);
            Timeouts(cfg, s0, steps, id) == (if id in s.tasks then TimedOutCount(s.tasks[id].attempts) else 0)
  {
    if |steps| > 0 {
      var before, step := steps[..|steps| - 1], steps[|steps| - 1];
      var s := Run(cfg, s0, before);
      TimeoutsCounted(cfg, s0, before, id);
      RunKeeps(cfg, s0, before);
      if id in s.tasks {
        TimeoutStep(cfg, s, step, id);
      } else if id in Apply(cfg, s, step).tasks {
        NewTaskHasNoAttempts(cfg, s, step, id);
      }
    }
  }

  lemma NewTaskHasNoAttempts(cfg: Config, s: HubState, step: Step, id: TaskId)
    requires id !in s.tasks && id in Apply(cfg, s, step).tasks
    ensures Apply(cfg, s, step).tasks[id].attempts == []
  {
  }

  /** In every run exactly the first `maxRequeues` timeouts of a task put it back in
      the queue, each with one new job; every later one fails it and adds no job. */
  lemma FirstTimeoutsRequeue(cfg: Config, s0: HubState, steps: seq<Step>, scan: Step, id: TaskId)
    requires ConfigOk(cfg) && Initial(s0) && RunOk(cfg, s0, steps) && StepOk(cfg, Run(cfg, s0, steps), scan)
    requires TimesOutTask(cfg, Run(cfg, s0, steps), scan, id)
    ensures var s := Run(cfg, s0, steps);
            var s' := Apply(cfg, s, scan);
            var again := Timeouts(cfg, s0, steps, id) < cfg.watchdog.maxRequeues;
            && id in s'.tasks
            && s'.tasks[id].status == (if again then TaskStatus.Queued else TaskStatus.Failed)
            && CountJobs(s'.jobs, id) == CountJobs(s.jobs, id) + (if again then 1 else 0)
  {
    var s := Run(cfg, s0, steps);
    RunKeeps(cfg, s0, steps);
    TimeoutsCounted(cfg, s0, steps, id);
    StatusLaw(cfg, s, scan, id);
    JobLaw(cfg, s, scan, id);
  }

  // ----- when a task is stale -----

  /** A live attempt was not heard of after the task's row was last written. */
  ghost predicate SeenInv(s: HubState) {
    forall id :: id in s.tasks ==> Seen(s.tasks[id])
  }

  ghost predicate Seen(t: Task) {
    forall i :: 0 <= i < |t.attempts| && Live(t.attempts[i]) ==> t.attempts[i].lastSeenAt <= t.updatedAt
  }

  lemma JobKeepsSeen(cfg: Config, s: HubState, j: nat, replies: seq<Reply>)
    requires Inv(s) && SeenInv(s) && j < |s.jobs|
    ensures SeenInv(DoRunJob(cfg, s, j, replies))
  {
    var s' := DoRunJob(cfg, s, j, replies);
    forall id | id in s'.tasks ensures Seen(s'.tasks[id]) { assert Seen(s.tasks[id]) && TaskInv(s.servers, s.now, s.tasks[id]); }
  }

  lemma ResultKeepsSeen(cfg: Config, s: HubState, x: TaskId, p: ResultPayload)
    requires Inv(s) && SeenInv(s)
    ensures SeenInv(DoResult(cfg, s, x, p))
  {
    var s' := DoResult(cfg, s, x, p);
    forall id | id in s'.tasks ensures Seen(s'.tasks[id]) { assert Seen(s.tasks[id]) && TaskInv(s.servers, s.now, s.tasks[id]); }
  }

  lemma TouchSeen(t: Task, u: Task, now: Time)
    requires Seen(t) && t.updatedAt <= now && u.attempts == Touch(t.attempts, now) && u.updatedAt == now
    ensures Seen(u)
  {
  }

  lemma TouchStepSeen(cfg: Config, s: HubState, step: Step)
    requires Inv(s) && SeenInv(s) && (step.StatusEvent? || step.LogEvent?)
    ensures SeenInv(Apply(cfg, s, step))
  {
    var s' := Apply(cfg, s, step);
    forall id | id in s'.tasks ensures Seen(s'.tasks[id]) {
      assert Seen(s.tasks[id]) && TaskInv(s.servers, s.now, s.tasks[id]);
      if id == step.taskId { TouchSeen(s.tasks[id], s'.tasks[id], s.now); }
    }
  }

  lemma ScanSeen(cfg: Config, s: HubState, rows: seq<TaskId>)
    requires SeenInv(s) && Inv(s)
    ensures SeenInv(DoScan(cfg, s, rows))
  {
    forall id | id in s.tasks ensures Seen(ScanTask(cfg, s.tasks[id], s.now)) {
      assert Seen(s.tasks[id]) && TaskInv(s.servers, s.now, s.tasks[id]);
    }
  }

  lemma SeenStep(cfg: Config, s: HubState, step: Step)
    requires Inv(s) && SeenInv(s) && StepOk(cfg, s, step)
    ensures SeenInv(Apply(cfg, s, step))
  {
    match step {
      case RunJob(j, replies) => JobKeepsSeen(cfg, s, j, replies);
      case ResultEvent(x, p) => ResultKeepsSeen(cfg, s, x, p);
      case StatusEvent(_, _) => TouchStepSeen(cfg, s, step);
      case LogEvent(_, _, _) => TouchStepSeen(cfg, s, step);
      case Scan(rows) => ScanSeen(cfg, s, rows);
      case Submit(_, _, _, _) =>
      case _ =>
        assert forall id :: id in s.tasks ==> Seen(s.tasks[id]) && TaskInv(s.servers, s.now, s.tasks[id]);
    }
  }

  lemma {:induction false} SeenRun(cfg: Config, s0: HubState, steps: seq<Step>)
    requires ConfigOk(cfg) && Initial(s0) && RunOk(cfg, s0, steps)
    ensures SeenInv(Run(cfg, s0, steps))
  {
    if |steps| > 0 {
      var before := steps[..|steps| - 1];
      SeenRun(cfg, s0, before);
      RunKeeps(cfg, s0, before);
      SeenStep(cfg, Run(cfg, s0, before), steps[|steps| - 1]);
    }
  }

  /** In every reachable state a scan times a task out exactly if the task is RUNNING,
      has a live attempt, and its row was last written longer ago than the timeout:
      the attempt's own time stamp never makes a difference. */
  lemma ScanActsIff(cfg: Config, s0: HubState, steps: seq<Step>, rows: seq<TaskId>, id: TaskId)
    requires ConfigOk(cfg) && Initial(s0) && RunOk(cfg, s0, steps) && id in Run(cfg, s0, steps).tasks
    ensures var s := Run(cfg, s0, steps);
            var t := s.tasks[id];
            TimesOutTask(cfg, s, Scan(rows), id)
            <==> t.status == TaskStatus.Running && HasLive(t.attempts) && s.now - t.updatedAt > cfg.watchdog.timeout
  {
    var s := Run(cfg, s0, steps);
    RunKeeps(cfg, s0, steps);
    SeenRun(cfg, s0, steps);
    assert TaskInv(s.servers, s.now, s.tasks[id]) && Seen(s.tasks[id]);
    LatestLiveIsLast(s.tasks[id]);
  }

  // ----- where COMPLETED comes from -----

  /** A step makes a task COMPLETED exactly if it is a result or a status event of the
      task that says so; no dispatch, scan, cancel, approval or failover does. */
  lemma CompletedOnlyIfSaid(cfg: Config, s: HubState, step: Step, id: TaskId)
    requires ConfigOk(cfg) && Inv(s) && StepOk(cfg, s, step) && id in s.tasks && s.tasks[id].status != TaskStatus.Completed
    ensures id in Apply(cfg, s, step).tasks
    ensures Apply(cfg, s, step).tasks[id].status == TaskStatus.Completed
            <==> || (step.ResultEvent? && step.taskId == id && step.payload.completed)
                 || (step.StatusEvent? && step.taskId == id && step.status == TaskStatus.Completed)
  {
    StatusLaw(cfg, s, step, id);
  }
}
