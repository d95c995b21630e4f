/** The Hub as a step system.  Each HTTP handler, daemon event handler and queue
    job is one atomic step; `Apply` gives the state it leaves behind. */
module Hub {
  import opened Common
  import opened Tasks
  import opened WorkerRegistry

  /** A queue job has five tries; `used` counts the tries that threw. */
  const JOB_TRIES: nat := 5

  datatype JobState = Waiting(used: nat) | Done | Exhausted

  datatype Job = Job(taskId: TaskId, state: JobState)

  /** `jobs` is every dispatch job ever added and `outbox` every message ever
      handed to the socket layer, both in order. */
  datatype HubState = HubState(
    servers: ServerTable,
    profiles: seq<Profile>,
    tasks: map<TaskId, Task>,
    jobs: seq<Job>,
    outbox: seq<Packet>,
    now: Time)

  datatype Config = Config(
    watchdog: WatchdogConfig,
    col: Collation,
    rank: (ServerId, seq<Candidate>) -> seq<Candidate>)

  datatype Step =
    | Submit(owner: UserId, taskId: TaskId, serverId: ServerId, workerType: WorkerType)
    | RunJob(job: nat, replies: seq<Reply>)
    | Scan(rows: seq<TaskId>)
    | StatusEvent(taskId: TaskId, status: TaskStatus)
    | LogEvent(taskId: TaskId, from: ServerId, chunk: string)
    | ResultEvent(taskId: TaskId, payload: ResultPayload)
    | ApprovalEvent(taskId: TaskId)
    | Cancel(owner: UserId, taskId: TaskId, delivered: bool)
    | Decide(owner: UserId, taskId: TaskId, approve: bool, delivered: bool)
    | Tick(now: Time)
    | ChangeServers(servers: ServerTable, profiles: seq<Profile>)

  // ----- reading the tables -----

  function CandidatesFor(cfg: Config, s: HubState, t: Task): Option<seq<Candidate>> {
    GetDispatchCandidates(cfg.col, cfg.rank, s.servers, s.profiles, t.workerType, t.serverId, ExcludedServers(t.attempts))
  }

  function ServerIds(cs: seq<Candidate>): seq<ServerId> {
    seq(|cs|, i requires 0 <= i < |cs| => cs[i].serverId)
  }

  predicate OwnsServer(servers: ServerTable, owner: UserId, server: ServerId) {
    server in servers && servers[server].ownerId == owner
  }

  // ----- the queue -----

  function NewJobs(ids: seq<TaskId>): seq<Job> {
    seq(|ids|, i requires 0 <= i < |ids| => Job(ids[i], Waiting(0)))
  }

  /** What the queue does with a job whose processor threw. */
  function Thrown(j: Job): Job {
    match j.state
    case Waiting(used) => j.(state := if used + 1 >= JOB_TRIES then Exhausted else Waiting(used + 1))
    case _ => j
  }

  function SetTask(s: HubState, id: TaskId, t: Task): HubState {
    s.(tasks := s.tasks[id := t])
  }

  function Requeue(s: HubState, id: TaskId): HubState {
    s.(jobs := s.jobs + NewJobs([id]))
  }

  function Send(s: HubState, to: ServerId, m: Message): HubState {
    s.(outbox := s.outbox + [Packet(to, m)])
  }

  // ----- steps -----

  function DoSubmit(s: HubState, owner: UserId, id: TaskId, server: ServerId, w: WorkerType): HubState {
    if !OwnsServer(s.servers, owner, server) then s
    else Requeue(SetTask(s, id, Task(owner, server, w, TaskStatus.Queued, [], None, s.now, [], None)), id)
  }

  /** `TasksProcessor.process` on job `j`, then the queue's bookkeeping. */
  function DoRunJob(cfg: Config, s: HubState, j: nat, replies: seq<Reply>): HubState {
    if j >= |s.jobs| || !s.jobs[j].state.Waiting? then s
    else
      var id := s.jobs[j].taskId;
      var done := s.(jobs := s.jobs[j := s.jobs[j].(state := Done)]);
      var thrown := s.(jobs := s.jobs[j := Thrown(s.jobs[j])]);
      if id !in s.tasks || !s.tasks[id].status.Queued? then done
      else
        var t := s.tasks[id];
        match CandidatesFor(cfg, s, t)
        case None => thrown
        case Some(cs) =>
          if |cs| == 0 then thrown
          else
            var servers := ServerIds(cs);
            var k := FirstAccepting(replies, 0, |servers|);
            var t' := AfterDispatch(t, servers, replies, s.now);
            if k < |servers| then Send(SetTask(done, id, t'), servers[k], SubmitTask(id))
            else SetTask(thrown, id, t')
  }

  function ScanTask(cfg: Config, t: Task, now: Time): Task {
    if WatchdogActs(t, cfg.watchdog, now) then AfterWatchdog(t, cfg.watchdog, now) else t
  }

  predicate ScanRequeues(cfg: Config, t: Task, now: Time) {
    WatchdogActs(t, cfg.watchdog, now) && WatchdogRequeues(t, cfg.watchdog)
  }

  /** The tasks among the first `n` of `rows` that one scan puts back in the queue, in row order. */
  function Requeued(cfg: Config, s: HubState, rows: seq<TaskId>, n: nat): seq<TaskId>
    requires n <= |rows|
  {
    if n == 0 then []
    else
      var before := Requeued(cfg, s, rows, n - 1);
      var id := rows[n - 1];
      if id in s.tasks && ScanRequeues(cfg, s.tasks[id], s.now) then before + [id] else before
  }

  /** One watchdog scan: every task makes its own transition, alone. */
  function DoScan(cfg: Config, s: HubState, rows: seq<TaskId>): HubState {
    s.(tasks := map id | id in s.tasks :: ScanTask(cfg, s.tasks[id], s.now),
       jobs := s.jobs + NewJobs(Requeued(cfg, s, rows, |rows|)))
  }

  function DoCapacityFailure(cfg: Config, s: HubState, id: TaskId, p: ResultPayload): HubState
    requires id in s.tasks
  {
    var closed := CloseForCapacity(s.tasks[id], p, s.now);
    match CandidatesFor(cfg, s, closed)
    case None => SetTask(s, id, closed)
    case Some(cs) =>
      if |cs| == 0 then SetTask(s, id, CapacityGiveUp(closed, p, s.now))
      else Requeue(SetTask(s, id, CapacityRequeue(closed, cs[0].serverId, s.now)), id)
  }

  function DoResult(cfg: Config, s: HubState, id: TaskId, p: ResultPayload): HubState {
    if id !in s.tasks then s
    else if IsRetryableCapacityFailure(p) then DoCapacityFailure(cfg, s, id, p)
    else SetTask(s, id, OnResult(s.tasks[id], p, s.now))
  }

  /** Owner check, then the adapter must reach the daemon before the row changes. */
  function DoCancel(s: HubState, owner: UserId, id: TaskId, delivered: bool): HubState {
    if id !in s.tasks then s
    else
      var t := s.tasks[id];
      if !OwnsServer(s.servers, owner, t.serverId) || !Supported(t.workerType) || !delivered then s
      else Send(SetTask(s, id, OnCancel(t, s.now)), t.serverId, CancelTask(id))
  }

  /** `ApprovalsService.decide`: the row is written first, delivery may fail. */
  function DoDecide(s: HubState, owner: UserId, id: TaskId, approve: bool, delivered: bool): HubState {
    if id !in s.tasks || s.tasks[id].approval != Some(ApprovalStatus.Pending)
       || !OwnsServer(s.servers, owner, s.tasks[id].serverId) then s
    else
      var t := s.tasks[id];
      var decided := SetTask(s, id, OnDecision(t, approve, s.now));
      if delivered then Send(decided, t.serverId, ApprovalDecision(id, approve)) else decided
  }

  function Apply(cfg: Config, s: HubState, step: Step): HubState {
    match step
    case Submit(owner, id, server, w) => DoSubmit(s, owner, id, server, w)
    case RunJob(j, replies) => DoRunJob(cfg, s, j, replies)
    case Scan(rows) => DoScan(cfg, s, rows)
    case StatusEvent(id, status) => if id in s.tasks then SetTask(s, id, OnStatus(s.tasks[id], status, s.now)) else s
    case LogEvent(id, from, chunk) => if id in s.tasks then SetTask(s, id, OnLog(s.tasks[id], from, chunk, s.now)) else s
    case ResultEvent(id, p) => DoResult(cfg, s, id, p)
    case ApprovalEvent(id) => if id in s.tasks then SetTask(s, id, OnApprovalRequest(s.tasks[id], s.now)) else s
    case Cancel(owner, id, delivered) => DoCancel(s, owner, id, delivered)
    case Decide(owner, id, approve, delivered) => DoDecide(s, owner, id, approve, delivered)
    case Tick(now) => s.(now := now)
    case ChangeServers(servers, profiles) => s.(servers := servers, profiles := profiles)
  }

  // ----- what the environment may do -----

  /** The stale-task query returns each matching row once, in any order. */
  ghost predicate StaleRows(cfg: Config, s: HubState, rows: seq<TaskId>) {
    && (forall id :: id in rows <==> id in s.tasks && StaleRow(s.tasks[id], cfg.watchdog, s.now))
    && (forall i, j :: 0 <= i < j < |rows| ==> rows[i] != rows[j])
  }

  /** Servers are never deleted and never change owner; names, online flags and
      profiles change freely and servers may be added. */
  ghost predicate ServersGrow(before: ServerTable, after: ServerTable) {
    forall id :: id in before ==> id in after && after[id].ownerId == before[id].ownerId
  }

  predicate OrdinaryReply(r: Reply) {
    r.Refused? ==> !(CAPACITY_PREFIX <= r.message)
  }

  /** Fresh ids, a pending job, a complete query result, a clock that does not
      run backwards, refusals that do not look like capacity failures, and
      daemon statuses from the event contract (which has no QUEUED).  Daemon
      events are otherwise arbitrary: stale, duplicated or about any task. */
  ghost predicate StepOk(cfg: Config, s: HubState, step: Step) {
    match step
    case Submit(_, id, _, _) => id !in s.tasks
    case RunJob(j, replies) => j < |s.jobs| && s.jobs[j].state.Waiting? && forall i :: 0 <= i < |replies| ==> OrdinaryReply(replies[i])
    case Scan(rows) => StaleRows(cfg, s, rows)
    case StatusEvent(_, status) => !status.Queued?
    case Tick(now) => s.now <= now
    case ChangeServers(servers, profiles) => ServersGrow(s.servers, servers)
    case _ => true
  }

  // ----- runs -----

  function Run(cfg: Config, s: HubState, steps: seq<Step>): HubState {
    if |steps| == 0 then s
    else Apply(cfg, Run(cfg, s, steps[..|steps| - 1]), steps[|steps| - 1])
  }

  ghost predicate RunOk(cfg: Config, s: HubState, steps: seq<Step>) {
    |steps| == 0
    || (&& RunOk(cfg, s, steps[..|steps| - 1])
        && StepOk(cfg, Run(cfg, s, steps[..|steps| - 1]), steps[|steps| - 1]))
  }

  /** A Hub before its first task. */
  ghost predicate Initial(s: HubState) {
    s.tasks == map[] && s.jobs == [] && s.outbox == []
  }

  ghost predicate ConfigOk(cfg: Config) {
    Permutes(cfg.rank)
  }
}
