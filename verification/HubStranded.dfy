/** Tasks that the queue and the watchdog both pass by: RUNNING without a live
    attempt.  Which steps strand a task, and that it then stays stranded. */
module HubStranded {
  import opened Common
  import opened Tasks
  import opened WorkerRegistry
  import opened Hub
  import opened HubInvariants

  ghost predicate Stranded(t: Task) {
    t.status.Running? && !HasLive(t.attempts)
  }

  // ----- only supported worker types ever get an attempt -----

  ghost predicate SupportedInv(s: HubState) {
    forall id :: id in s.tasks && |s.tasks[id].attempts| > 0 ==> Supported(s.tasks[id].workerType)
  }

  lemma SupportedJob(cfg: Config, s: HubState, j: nat, replies: seq<Reply>)
    requires SupportedInv(s)
    ensures SupportedInv(DoRunJob(cfg, s, j, replies))
  {
  }

  lemma SupportedResult(cfg: Config, s: HubState, id: TaskId, p: ResultPayload)
    requires SupportedInv(s)
    ensures SupportedInv(DoResult(cfg, s, id, p))
  {
  }

  lemma SupportedStep(cfg: Config, s: HubState, step: Step)
    requires SupportedInv(s) && StepOk(cfg, s, step)
    ensures SupportedInv(Apply(cfg, s, step))
  {
    match step {
      case RunJob(j, replies) => SupportedJob(cfg, s, j, replies);
      case ResultEvent(id, p) => SupportedResult(cfg, s, id, p);
      case _ =>
    }
  }

  lemma {:induction false} SupportedRun(cfg: Config, s0: HubState, steps: seq<Step>)
    requires Initial(s0) && RunOk(cfg, s0, steps)
    ensures SupportedInv(Run(cfg, s0, steps))
  {
    if |steps| > 0 {
      var before := steps[..|steps| - 1];
      SupportedRun(cfg, s0, before);
      SupportedStep(cfg, Run(cfg, s0, before), steps[|steps| - 1]);
    }
  }

  // ----- what strands a task -----

  /** The step says that the task runs: a status event or a granted approval. */
  ghost predicate DeclaresRunning(s: HubState, step: Step, id: TaskId)
    requires id in s.tasks
  {
    || (step.StatusEvent? && step.taskId == id && step.status.Running?)
    || (step.Decide? && step.taskId == id && step.approve && s.tasks[id].approval == Some(ApprovalStatus.Pending)
        && OwnsServer(s.servers, step.owner, s.tasks[id].serverId))
  }

  lemma TouchKeepsLive(attempts: seq<Attempt>, now: Time)
    ensures HasLive(Touch(attempts, now)) <==> HasLive(attempts)
  {
    match LatestLive(attempts) {
      case None =>
      case Some(k) => assert Live(Touch(attempts, now)[k]);
    }
  }

  lemma ResultDoesNotStrand(cfg: Config, s: HubState, id: TaskId, p: ResultPayload)
    requires ConfigOk(cfg) && Inv(s) && SupportedInv(s) && id in s.tasks && !Stranded(s.tasks[id])
    ensures !Stranded(DoResult(cfg, s, id, p).tasks[id])
  {
    var t := s.tasks[id];
    if IsRetryableCapacityFailure(p) && CandidatesFor(cfg, s, CloseForCapacity(t, p, s.now)).None? {
      assert Confined(s.servers, t);
      assert |t.attempts| == 0;
    }
  }

  lemma JobDoesNotStrand(cfg: Config, s: HubState, j: nat, replies: seq<Reply>, id: TaskId)
    requires j < |s.jobs| && id in s.tasks && !Stranded(s.tasks[id])
    ensures id in DoRunJob(cfg, s, j, replies).tasks && !Stranded(DoRunJob(cfg, s, j, replies).tasks[id])
  {
    var u := DoRunJob(cfg, s, j, replies).tasks[id];
    if u != s.tasks[id] && u.status.Running? { assert Live(u.attempts[|u.attempts| - 1]); }
  }

  lemma ScanDoesNotStrand(cfg: Config, s: HubState, rows: seq<TaskId>, id: TaskId)
    requires id in s.tasks && !Stranded(s.tasks[id])
    ensures id in DoScan(cfg, s, rows).tasks && !Stranded(DoScan(cfg, s, rows).tasks[id])
  {
  }

  /** Another task's result leaves this row alone. */
  lemma OtherResult(cfg: Config, s: HubState, other: TaskId, p: ResultPayload, id: TaskId)
    requires id in s.tasks && other != id
    ensures id in DoResult(cfg, s, other, p).tasks && DoResult(cfg, s, other, p).tasks[id] == s.tasks[id]
  {
  }

  /** In every reachable state, a step strands a task exactly when it declares a
      task running that has no live attempt. */
  lemma {:induction false} StrandedIff(cfg: Config, s0: HubState, steps: seq<Step>, step: Step, id: TaskId)
    requires ConfigOk(cfg) && Initial(s0) && RunOk(cfg, s0, steps + [step])
    requires id in Run(cfg, s0, steps).tasks && !Stranded(Run(cfg, s0, steps).tasks[id])
    ensures var s := Run(cfg, s0, steps);
            var s' := Run(cfg, s0, steps + [step]);
            && id in s'.tasks
            && (Stranded(s'.tasks[id]) <==> DeclaresRunning(s, step, id) && !HasLive(s.tasks[id].attempts))
  {
    assert (steps + [step])[..|steps|] == steps;
    RunKeeps(cfg, s0, steps);
    SupportedRun(cfg, s0, steps);
    StrandingStep(cfg, Run(cfg, s0, steps), step, id);
  }

  lemma StrandingStep(cfg: Config, s: HubState, step: Step, id: TaskId)
    requires ConfigOk(cfg) && Inv(s) && SupportedInv(s) && StepOk(cfg, s, step) && id in s.tasks && !Stranded(s.tasks[id])
    ensures id in Apply(cfg, s, step).tasks
    ensures Stranded(Apply(cfg, s, step).tasks[id]) <==> DeclaresRunning(s, step, id) && !HasLive(s.tasks[id].attempts)
  {
    TouchKeepsLive(s.tasks[id].attempts, s.now);
    match step {
      case RunJob(j, replies) => JobDoesNotStrand(cfg, s, j, replies, id);
      case Scan(rows) => ScanDoesNotStrand(cfg, s, rows, id);
      case ResultEvent(other, p) =>
        if other == id { ResultDoesNotStrand(cfg, s, id, p); } else { OtherResult(cfg, s, other, p, id); }
      case _ =>
    }
  }

  // ----- nothing rescues it -----

  /** A status, result or approval event, a cancel or a decision for the task. */
  predicate Concerns(step: Step, id: TaskId) {
    || (step.StatusEvent? && step.taskId == id)
    || (step.ResultEvent? && step.taskId == id)
    || (step.ApprovalEvent? && step.taskId == id)
    || (step.Cancel? && step.taskId == id)
    || (step.Decide? && step.taskId == id)
  }

  lemma StrandedStep(cfg: Config, s: HubState, step: Step, id: TaskId)
    requires StepOk(cfg, s, step) && id in s.tasks && Stranded(s.tasks[id]) && !Concerns(step, id)
    ensures var s' := Apply(cfg, s, step);
            id in s'.tasks && s'.tasks[id].status.Running? && s'.tasks[id].attempts == s.tasks[id].attempts
  {
    match step {
      case RunJob(j, replies) => RunningIsNotDispatched(cfg, s, j, replies, id);
      case ResultEvent(other, p) => OtherResult(cfg, s, other, p, id);
      case _ =>
    }
  }

  lemma RunningIsNotDispatched(cfg: Config, s: HubState, j: nat, replies: seq<Reply>, id: TaskId)
    requires id in s.tasks && s.tasks[id].status.Running?
    ensures id in DoRunJob(cfg, s, j, replies).tasks && DoRunJob(cfg, s, j, replies).tasks[id] == s.tasks[id]
  {
  }

  /** A stranded task stays RUNNING with the same attempts through every run of
      jobs, watchdog scans and events that are not about it. */
  lemma {:induction false} StrandedStays(cfg: Config, s: HubState, steps: seq<Step>, id: TaskId)
    requires RunOk(cfg, s, steps) && id in s.tasks && Stranded(s.tasks[id])
    requires forall i :: 0 <= i < |steps| ==> !Concerns(steps[i], id)
    ensures var s' := Run(cfg, s, steps);
            id in s'.tasks && s'.tasks[id].status.Running? && s'.tasks[id].attempts == s.tasks[id].attempts
  {
    if |steps| > 0 {
      StrandedStays(cfg, s, steps[..|steps| - 1], id);
      StrandedStep(cfg, Run(cfg, s, steps[..|steps| - 1]), steps[|steps| - 1], id);
    }
  }

  /** Its dispatch jobs are discarded. */
  lemma StrandedJobIsDiscarded(cfg: Config, s: HubState, j: nat, replies: seq<Reply>)
    requires j < |s.jobs| && s.jobs[j].state.Waiting? && s.jobs[j].taskId in s.tasks && Stranded(s.tasks[s.jobs[j].taskId])
    ensures Apply(cfg, s, RunJob(j, replies)) == s.(jobs := s.jobs[j := Job(s.jobs[j].taskId, Done)])
  {
  }
}
