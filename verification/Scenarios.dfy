/** Concrete runs from the initial state, at inputs the program can receive: what
    the exact conditions elsewhere say does happen. */
module Scenarios {
  import opened Common
  import opened Tasks
  import opened WorkerRegistry
  import opened Hub
  import opened HubInvariants
  import opened HubStranded
  import opened Runner
  import opened Daemon
  import opened Platform
  import opened PlatformRuns

  // One user, one online server with one Codex profile, one task.
  const USER: UserId := 7
  const SERVER: ServerId := 1
  const TASK: TaskId := 5
  const SERVERS: ServerTable := map[SERVER := Server(USER, "alpha", true)]
  const PROFILES: seq<Profile> := [Profile(SERVER, CodexProvider, "default", true)]
  const SOLE := Candidate(SERVER, "alpha", CodexProvider, "default")

  /** The default watchdog settings and a stable sort. */
  function Setup(col: Collation): Hub.Config {
    Config(WatchdogConfig(15 * 60 * 1000, 2), col, RankBy(col))
  }

  const EMPTY_HUB := HubState(SERVERS, PROFILES, map[], [], [], 0)

  const SUBMIT := Step.Submit(USER, TASK, SERVER, Codex)
  const DISPATCH := RunJob(0, [Accepted])

  function Row(status: TaskStatus, logs: seq<LogSegment>, approval: Option<ApprovalStatus>): Task {
    Task(USER, SERVER, Codex, status, logs, None, 0, [Attempt(SERVER, AttemptStatus.Running, None, 0)], approval)
  }

  function HubWith(row: Task, outbox: seq<Packet>): HubState {
    HubState(SERVERS, PROFILES, map[TASK := row], [Job(TASK, Done)], outbox, 0)
  }

  lemma SetupIsOk(col: Collation)
    ensures ConfigOk(Setup(col)) && Initial(EMPTY_HUB)
  {
    StableRankPermutes(col);
  }

  lemma OneEligible(servers: ServerTable, p: Profile, provider: Provider, owner: UserId)
    requires EligibleProfile(servers, p, provider, owner, {})
    ensures EligibleRows(servers, [p], provider, owner, {}) == [ToCandidate(servers, p)]
  {
    assert [p][1..] == [];
    assert EligibleRows(servers, [], provider, owner, {}) == [];
  }

  lemma SortOne(le: (Candidate, Candidate) -> bool, c: Candidate)
    ensures StableSort(le, [c]) == [c]
  {
    assert [c][1..] == [];
    assert StableSort(le, []) == [];
  }

  lemma SoleCandidate(col: Collation, s: HubState, t: Task)
    requires s.servers == SERVERS && s.profiles == PROFILES && t.workerType == Codex && t.serverId == SERVER && t.attempts == []
    ensures CandidatesFor(Setup(col), s, t) == Some([SOLE])
  {
    OneEligible(SERVERS, PROFILES[0], CodexProvider, USER);
    SortOne((a, b) => RowLe(col, a, b), SOLE);
    SortOne(CompareLe(col, SERVER), SOLE);
    assert ExcludedServers(t.attempts) == {};
  }

  const QUEUED := Task(USER, SERVER, Codex, TaskStatus.Queued, [], None, 0, [], None)
  const SUBMITTED := HubState(SERVERS, PROFILES, map[TASK := QUEUED], [Job(TASK, Waiting(0))], [], 0)
  const DISPATCHED := HubWith(Row(TaskStatus.Running, [], None), [Packet(SERVER, SubmitTask(TASK))])

  lemma Submits(col: Collation)
    ensures StepOk(Setup(col), EMPTY_HUB, SUBMIT) && Apply(Setup(col), EMPTY_HUB, SUBMIT) == SUBMITTED
  {
  }

  lemma DispatchedRow()
    ensures FirstAccepting([Accepted], 0, 1) == 0
    ensures AfterDispatch(QUEUED, [SERVER], [Accepted], 0) == Row(TaskStatus.Running, [], None)
  {
    assert RefusedAttempts([SERVER], [Accepted], 0, 0) == [];
  }

  lemma Dispatches(col: Collation)
    ensures StepOk(Setup(col), SUBMITTED, DISPATCH) && Apply(Setup(col), SUBMITTED, DISPATCH) == DISPATCHED
  {
    SoleCandidate(col, SUBMITTED, QUEUED);
    DispatchedRow();
    assert ServerIds([SOLE]) == [SERVER];
    var next := DoRunJob(Setup(col), SUBMITTED, 0, [Accepted]);
    assert next.tasks == DISPATCHED.tasks;
  }

  // ----- a cancelled task comes back -----

  ghost predicate HubReaches(cfg: Hub.Config, s0: HubState, steps: seq<Step>, s: HubState) {
    RunOk(cfg, s0, steps) && Run(cfg, s0, steps) == s
  }

  lemma {:induction false} HubExtend(cfg: Hub.Config, s0: HubState, steps: seq<Step>, s: HubState, step: Step, s': HubState)
    requires HubReaches(cfg, s0, steps, s) && StepOk(cfg, s, step) && Apply(cfg, s, step) == s'
    ensures HubReaches(cfg, s0, steps + [step], s')
  {
    assert (steps + [step])[..|steps|] == steps;
  }

  lemma HubStart(cfg: Hub.Config, s0: HubState)
    ensures HubReaches(cfg, s0, [], s0)
  {
  }

  const CANCEL := Step.Cancel(USER, TASK, true)
  const LATE := StatusEvent(TASK, TaskStatus.Running)
  const SENT := [Packet(SERVER, SubmitTask(TASK)), Packet(SERVER, CancelTask(TASK))]
  const CANCELLED := HubWith(Row(Cancelled, [], None), SENT)
  const REVIVED := HubWith(Row(TaskStatus.Running, [], None), SENT)

  lemma Cancels(col: Collation)
    ensures StepOk(Setup(col), DISPATCHED, CANCEL) && Apply(Setup(col), DISPATCHED, CANCEL) == CANCELLED
  {
  }

  lemma TouchesSole(attempts: seq<Attempt>)
    requires attempts == [Attempt(SERVER, AttemptStatus.Running, None, 0)]
    ensures Touch(attempts, 0) == attempts
  {
    assert LatestLive(attempts) == Some(0);
  }

  lemma Revives(col: Collation)
    ensures StepOk(Setup(col), CANCELLED, LATE) && Apply(Setup(col), CANCELLED, LATE) == REVIVED
  {
    TouchesSole(CANCELLED.tasks[TASK].attempts);
  }

  const CANCEL_RUN := [SUBMIT, DISPATCH, CANCEL]

  lemma DispatchedIsReached(col: Collation)
    ensures ConfigOk(Setup(col)) && Initial(EMPTY_HUB)
    ensures HubReaches(Setup(col), EMPTY_HUB, [SUBMIT, DISPATCH], DISPATCHED)
  {
    SetupIsOk(col);
    HubStart(Setup(col), EMPTY_HUB);
    Submits(col);
    HubExtend(Setup(col), EMPTY_HUB, [], EMPTY_HUB, SUBMIT, SUBMITTED);
    Dispatches(col);
    HubExtend(Setup(col), EMPTY_HUB, [] + [SUBMIT], SUBMITTED, DISPATCH, DISPATCHED);
    assert [] + [SUBMIT] + [DISPATCH] == [SUBMIT, DISPATCH];
  }

  /** The user cancels while the daemon's first status event is on its way: the
      CANCELLED task is RUNNING again. */
  lemma CancelledTaskRevived(col: Collation)
    ensures ConfigOk(Setup(col)) && Initial(EMPTY_HUB)
    ensures HubReaches(Setup(col), EMPTY_HUB, CANCEL_RUN, CANCELLED)
    ensures HubReaches(Setup(col), EMPTY_HUB, CANCEL_RUN + [LATE], REVIVED)
    ensures CANCELLED.tasks[TASK].status.Cancelled? && REVIVED.tasks[TASK].status.Running?
  {
    DispatchedIsReached(col);
    Cancels(col);
    HubExtend(Setup(col), EMPTY_HUB, [SUBMIT, DISPATCH], DISPATCHED, CANCEL, CANCELLED);
    assert [SUBMIT, DISPATCH] + [CANCEL] == CANCEL_RUN;
    Revives(col);
    HubExtend(Setup(col), EMPTY_HUB, CANCEL_RUN, CANCELLED, LATE, REVIVED);
  }

  const RESULT := ResultEvent(TASK, ResultPayload(true, None, "done"))
  const COMPLETED :=
    HubWith(Row(TaskStatus.Completed, [], None).(result := Some("done"), attempts := [Attempt(SERVER, Succeeded, None, 0)]), SENT)

  lemma Completes(col: Collation)
    ensures StepOk(Setup(col), CANCELLED, RESULT) && Apply(Setup(col), CANCELLED, RESULT) == COMPLETED
  {
    var t := CANCELLED.tasks[TASK];
    assert LatestLive(t.attempts) == Some(0);
    assert Finish(t.attempts, true, None, 0) == COMPLETED.tasks[TASK].attempts;
  }

  /** The child was done before the cancel reached it: the CANCELLED task is COMPLETED. */
  lemma CancelledTaskCompletes(col: Collation)
    ensures ConfigOk(Setup(col)) && Initial(EMPTY_HUB)
    ensures HubReaches(Setup(col), EMPTY_HUB, CANCEL_RUN, CANCELLED)
    ensures HubReaches(Setup(col), EMPTY_HUB, CANCEL_RUN + [RESULT], COMPLETED)
    ensures CANCELLED.tasks[TASK].status.Cancelled? && COMPLETED.tasks[TASK].status.Completed?
  {
    CancelledTaskRevived(col);
    Completes(col);
    HubExtend(Setup(col), EMPTY_HUB, CANCEL_RUN, CANCELLED, RESULT, COMPLETED);
  }

  // ----- a task is stranded -----

  const LATER: Time := 15 * 60 * 1000 + 1
  const WAIT := Step.Tick(LATER)
  const WATCHDOG := Scan([TASK])
  const STALE := DISPATCHED.(now := LATER)
  const TIMED_OUT := Attempt(SERVER, TimedOut, Some(WATCHDOG_REASON), 0)

  function TimedOutRow(status: TaskStatus): Task {
    Task(USER, SERVER, Codex, status, [WatchdogRequeued(SERVER)], None, LATER, [TIMED_OUT], None)
  }

  const REQUEUED :=
    STALE.(tasks := map[TASK := TimedOutRow(TaskStatus.Queued)], jobs := [Job(TASK, Done), Job(TASK, Waiting(0))])
  const STRANDED := REQUEUED.(tasks := map[TASK := TimedOutRow(TaskStatus.Running)])
  const STRANDING_RUN := [SUBMIT, DISPATCH, WAIT, WATCHDOG, LATE]

  lemma TimesOut(col: Collation)
    ensures StepOk(Setup(col), STALE, WATCHDOG) && Apply(Setup(col), STALE, WATCHDOG) == REQUEUED
  {
    var w := Setup(col).watchdog;
    var t := STALE.tasks[TASK];
    assert t.attempts[..0] == [] && TimedOutCount([]) == 0;
    assert TimedOutCount(t.attempts) == 0;
    assert WatchdogActs(t, w, LATER) && WatchdogRequeues(t, w);
    assert AfterWatchdog(t, w, LATER) == TimedOutRow(TaskStatus.Queued);
    assert Requeued(Setup(col), STALE, [TASK], 0) == [];
    assert Requeued(Setup(col), STALE, [TASK], 1) == [TASK];
    assert NewJobs([TASK]) == [Job(TASK, Waiting(0))];
  }

  lemma Strands(col: Collation)
    ensures StepOk(Setup(col), REQUEUED, LATE) && Apply(Setup(col), REQUEUED, LATE) == STRANDED
  {
    assert LatestLive([TIMED_OUT]) == None;
  }

  lemma RequeueIsReached(col: Collation)
    ensures HubReaches(Setup(col), EMPTY_HUB, [SUBMIT, DISPATCH, WAIT, WATCHDOG], REQUEUED)
  {
    DispatchedIsReached(col);
    HubExtend(Setup(col), EMPTY_HUB, [SUBMIT, DISPATCH], DISPATCHED, WAIT, STALE);
    TimesOut(col);
    HubExtend(Setup(col), EMPTY_HUB, [SUBMIT, DISPATCH] + [WAIT], STALE, WATCHDOG, REQUEUED);
    assert [SUBMIT, DISPATCH] + [WAIT] + [WATCHDOG] == [SUBMIT, DISPATCH, WAIT, WATCHDOG];
  }

  /** A daemon that was offline for longer than the watchdog waits sends its first
      status event late: the requeued task is RUNNING with no live attempt. */
  lemma OfflineDaemonStrands(col: Collation)
    ensures ConfigOk(Setup(col)) && Initial(EMPTY_HUB)
    ensures HubReaches(Setup(col), EMPTY_HUB, STRANDING_RUN, STRANDED) && Stranded(STRANDED.tasks[TASK])
  {
    SetupIsOk(col);
    RequeueIsReached(col);
    Strands(col);
    HubExtend(Setup(col), EMPTY_HUB, [SUBMIT, DISPATCH, WAIT, WATCHDOG], REQUEUED, LATE, STRANDED);
    assert [SUBMIT, DISPATCH, WAIT, WATCHDOG] + [LATE] == STRANDING_RUN;
  }

  // ----- an approval, lost and delivered -----

  ghost predicate Reaches(c: Settings, w0: World, steps: seq<WStep>, w: World) {
    WRunOk(c, w0, steps) && WRun(c, w0, steps) == w
  }

  const EMPTY_WORLD := World(EMPTY_HUB, map[], {}, map[], [])

  lemma {:induction false} Extend(c: Settings, w0: World, steps: seq<WStep>, w: World, step: WStep, w': World)
    requires Reaches(c, w0, steps, w) && WStepOk(c, w, step) && WApply(c, w, step) == w'
    ensures Reaches(c, w0, steps + [step], w')
  {
    assert (steps + [step])[..|steps|] == steps;
  }

  /** Heuristics that take `chunk` for a prompt. */
  ghost predicate Prompts(h: Heuristics, chunk: string) {
    |chunk| <= TAIL_LIMIT && h.detect(chunk) == Some("confirmation")
  }

  function Emitted(chunk: string): seq<Event> {
    [StatusUpdate(TASK, TaskStatus.Running), Log(TASK, chunk), ApprovalRequest(TASK, "confirmation")]
  }

  const CONNECTED := NEW_DAEMON.(link := Link(true, [], [], []))

  const SPAWNED :=
    DaemonState(Link(true, [], [StatusUpdate(TASK, TaskStatus.Running)], [StatusUpdate(TASK, TaskStatus.Running)]),
                map[TASK := 0], [Fresh(TASK)], [], [])

  /** The daemon holds its child. */
  function HoldingDaemon(chunk: string): DaemonState {
    DaemonState(Link(true, [], Emitted(chunk), Emitted(chunk)), map[TASK := 0],
                [RunnerState(TASK, true, false, chunk, chunk, false, chunk, None)], [(TASK, chunk)], [])
  }

  lemma Spawns(h: Heuristics)
    ensures DApply(h, NEW_DAEMON, Connect) == CONNECTED
    ensures DApply(h, CONNECTED, TaskSubmit(TASK, Spawned)) == SPAWNED
  {
  }

  lemma Holds(h: Heuristics, chunk: string)
    requires Prompts(h, chunk)
    ensures DApply(h, SPAWNED, Child(0, Data(chunk))) == HoldingDaemon(chunk)
  {
    assert "" + chunk == chunk;
    var e := Perform(h, SPAWNED.pool[0], Data(chunk));
    assert e.runner == HoldingDaemon(chunk).pool[0];
    assert e.events == Emitted(chunk)[1..];
  }

  function At(hub: HubState, d: DaemonState, consumed: set<nat>, handled: map<ServerId, nat>, releases: seq<Release>): World {
    World(hub, map[SERVER := d], consumed, handled, releases)
  }

  /** Dispatch, delivery and the prompt. */
  function PromptRun(chunk: string): seq<WStep> {
    [HubAct(SUBMIT), HubAct(DISPATCH), DaemonBoots(SERVER), DaemonAct(SERVER, Connect), Deliver(0, Spawned, true),
     DaemonAct(SERVER, Child(0, Data(chunk)))]
  }

  function WorldPrompted(chunk: string): World { At(DISPATCHED, HoldingDaemon(chunk), {0}, map[], []) }

  lemma {:induction false} DispatchReached(c: Settings, col: Collation)
    requires c.hub == Setup(col)
    ensures Reaches(c, EMPTY_WORLD, [HubAct(SUBMIT), HubAct(DISPATCH)], EMPTY_WORLD.(hub := DISPATCHED))
  {
    Submits(col);
    Extend(c, EMPTY_WORLD, [], EMPTY_WORLD, HubAct(SUBMIT), EMPTY_WORLD.(hub := SUBMITTED));
    Dispatches(col);
    Extend(c, EMPTY_WORLD, [] + [HubAct(SUBMIT)], EMPTY_WORLD.(hub := SUBMITTED), HubAct(DISPATCH), EMPTY_WORLD.(hub := DISPATCHED));
    assert [] + [HubAct(SUBMIT)] + [HubAct(DISPATCH)] == [HubAct(SUBMIT), HubAct(DISPATCH)];
  }

  lemma DeliversSubmit(c: Settings)
    ensures WApply(c, At(DISPATCHED, CONNECTED, {}, map[], []), Deliver(0, Spawned, true)) == At(DISPATCHED, SPAWNED, {0}, map[], [])
  {
    Spawns(c.text);
  }

  const BOOT_RUN := [HubAct(SUBMIT), HubAct(DISPATCH), DaemonBoots(SERVER), DaemonAct(SERVER, Connect)]

  lemma {:induction false} BootReached(c: Settings, col: Collation)
    requires c.hub == Setup(col)
    ensures Reaches(c, EMPTY_WORLD, BOOT_RUN, At(DISPATCHED, CONNECTED, {}, map[], []))
  {
    var run := [HubAct(SUBMIT), HubAct(DISPATCH)];
    var boot, connect := DaemonBoots(SERVER), DaemonAct(SERVER, Connect);
    DispatchReached(c, col);
    Extend(c, EMPTY_WORLD, run, EMPTY_WORLD.(hub := DISPATCHED), boot, At(DISPATCHED, NEW_DAEMON, {}, map[], []));
    Spawns(c.text);
    Extend(c, EMPTY_WORLD, run + [boot], At(DISPATCHED, NEW_DAEMON, {}, map[], []), connect, At(DISPATCHED, CONNECTED, {}, map[], []));
    assert run + [boot] + [connect] == BOOT_RUN;
  }

  lemma {:induction false} PromptReached(c: Settings, col: Collation, chunk: string)
    requires c.hub == Setup(col) && Prompts(c.text, chunk)
    ensures Reaches(c, EMPTY_WORLD, PromptRun(chunk), WorldPrompted(chunk))
  {
    var deliver, output := Deliver(0, Spawned, true), DaemonAct(SERVER, Child(0, Data(chunk)));
    BootReached(c, col);
    DeliversSubmit(c);
    Extend(c, EMPTY_WORLD, BOOT_RUN, At(DISPATCHED, CONNECTED, {}, map[], []), deliver, At(DISPATCHED, SPAWNED, {0}, map[], []));
    Holds(c.text, chunk);
    Extend(c, EMPTY_WORLD, BOOT_RUN + [deliver], At(DISPATCHED, SPAWNED, {0}, map[], []), output, WorldPrompted(chunk));
    assert BOOT_RUN + [deliver] + [output] == PromptRun(chunk);
  }

  // The Hub handles the daemon's three events.

  const SUBMITS := [Packet(SERVER, SubmitTask(TASK))]

  function Logged(chunk: string): HubState { HubWith(Row(TaskStatus.Running, [Chunk(SERVER, chunk)], None), SUBMITS) }

  function Asked(chunk: string): HubState {
    HubWith(Row(AwaitingApproval, [Chunk(SERVER, chunk)], Some(ApprovalStatus.Pending)), SUBMITS)
  }

  lemma Handles(cfg: Hub.Config, chunk: string)
    ensures Apply(cfg, DISPATCHED, StatusEvent(TASK, TaskStatus.Running)) == DISPATCHED
    ensures Apply(cfg, DISPATCHED, LogEvent(TASK, SERVER, chunk)) == Logged(chunk)
    ensures Apply(cfg, Logged(chunk), ApprovalEvent(TASK)) == Asked(chunk)
  {
    TouchesSole(DISPATCHED.tasks[TASK].attempts);
    assert [] + [Chunk(SERVER, chunk)] == [Chunk(SERVER, chunk)];
  }

  function AskRun(chunk: string): seq<WStep> {
    PromptRun(chunk) + [HubReceive(SERVER)] + [HubReceive(SERVER)] + [HubReceive(SERVER)]
  }

  function WorldAsked(chunk: string): World { WorldHeard(Asked(chunk), chunk, 3) }

  function WorldHeard(hub: HubState, chunk: string, n: nat): World { At(hub, HoldingDaemon(chunk), {0}, map[SERVER := n], []) }

  lemma HearsStatus(c: Settings, chunk: string)
    ensures WApply(c, WorldPrompted(chunk), HubReceive(SERVER)) == WorldHeard(DISPATCHED, chunk, 1)
  {
    Handles(c.hub, chunk);
  }

  lemma HearsLog(c: Settings, chunk: string)
    ensures WApply(c, WorldHeard(DISPATCHED, chunk, 1), HubReceive(SERVER)) == WorldHeard(Logged(chunk), chunk, 2)
  {
    Handles(c.hub, chunk);
  }

  lemma HearsRequest(c: Settings, chunk: string)
    ensures WApply(c, WorldHeard(Logged(chunk), chunk, 2), HubReceive(SERVER)) == WorldAsked(chunk)
  {
    Handles(c.hub, chunk);
  }

  lemma {:induction false} AskReached(c: Settings, col: Collation, chunk: string)
    requires c.hub == Setup(col) && Prompts(c.text, chunk)
    ensures Reaches(c, EMPTY_WORLD, AskRun(chunk), WorldAsked(chunk))
  {
    var run := PromptRun(chunk);
    PromptReached(c, col, chunk);
    HearsStatus(c, chunk);
    HearsLog(c, chunk);
    HearsRequest(c, chunk);
    Extend(c, EMPTY_WORLD, run, WorldPrompted(chunk), HubReceive(SERVER), WorldHeard(DISPATCHED, chunk, 1));
    Extend(c, EMPTY_WORLD, run + [HubReceive(SERVER)], WorldHeard(DISPATCHED, chunk, 1), HubReceive(SERVER), WorldHeard(Logged(chunk), chunk, 2));
    Extend(c, EMPTY_WORLD, run + [HubReceive(SERVER)] + [HubReceive(SERVER)], WorldHeard(Logged(chunk), chunk, 2),
           HubReceive(SERVER), WorldAsked(chunk));
  }

  // The owner decides.

  function Deciding(approve: bool, delivered: bool): WStep { HubAct(Step.Decide(USER, TASK, approve, delivered)) }

  function WorldDecided(c: Settings, chunk: string, approve: bool, delivered: bool): World {
    WApply(c, WorldAsked(chunk), Deciding(approve, delivered))
  }

  lemma Decides(c: Settings, chunk: string, approve: bool, delivered: bool)
    ensures var w := WorldDecided(c, chunk, approve, delivered);
            && w.hub.servers == SERVERS
            && w.hub.tasks == map[TASK := Row(if approve then TaskStatus.Running else Cancelled, [Chunk(SERVER, chunk)],
                                              Some(if approve then Approved else Rejected))]
            && w.hub.outbox == SUBMITS + (if delivered then [Packet(SERVER, ApprovalDecision(TASK, approve))] else [])
            && w == WorldAsked(chunk).(hub := w.hub)
            && Holding(w, SERVER, 0, TASK) && Spared(w, SERVER, 0, TASK)
  {
  }

  lemma {:induction false} DecisionReached(c: Settings, col: Collation, chunk: string, approve: bool, delivered: bool)
    requires c.hub == Setup(col) && Prompts(c.text, chunk)
    ensures ConfigOk(c.hub) && WInitial(EMPTY_WORLD)
    ensures Reaches(c, EMPTY_WORLD, AskRun(chunk) + [Deciding(approve, delivered)], WorldDecided(c, chunk, approve, delivered))
    ensures WInv(WorldAsked(chunk)) && WInv(WorldDecided(c, chunk, approve, delivered))
  {
    SetupIsOk(col);
    AskReached(c, col, chunk);
    Extend(c, EMPTY_WORLD, AskRun(chunk), WorldAsked(chunk), Deciding(approve, delivered), WorldDecided(c, chunk, approve, delivered));
    WRunKeeps(c, EMPTY_WORLD, AskRun(chunk));
    WRunKeeps(c, EMPTY_WORLD, AskRun(chunk) + [Deciding(approve, delivered)]);
  }

  /** The approval cannot be sent: the runner holds, and by
      `LostDecisionIsNeverReplayed` it holds in every continuation. */
  lemma {:induction false} ApprovalLost(c: Settings, col: Collation, chunk: string, steps: seq<WStep>)
    requires c.hub == Setup(col) && Prompts(c.text, chunk)
    requires WRunOk(c, WorldDecided(c, chunk, true, false), steps)
    ensures ConfigOk(c.hub) && WInitial(EMPTY_WORLD)
    ensures Reaches(c, EMPTY_WORLD, AskRun(chunk) + [Deciding(true, false)], WorldDecided(c, chunk, true, false))
    ensures WorldDecided(c, chunk, true, false).hub.tasks[TASK].approval == Some(Approved)
    ensures var w' := WRun(c, WorldDecided(c, chunk, true, false), steps);
            Holding(w', SERVER, 0, TASK) && forall j :: 0 <= j < |w'.releases| ==> w'.releases[j].taskId != TASK
  {
    DecisionReached(c, col, chunk, true, false);
    Decides(c, chunk, true, false);
    DecisionSpentIff(c, WorldAsked(chunk), USER, TASK, true, false);
    LostDecisionIsNeverReplayed(c, WorldDecided(c, chunk, true, false), steps, TASK, SERVER, 0);
  }

  /** Delivered, the same approval ends the hold and resumes the child. */
  lemma {:induction false} ApprovalTakesEffect(c: Settings, col: Collation, chunk: string, stdinOpen: bool)
    requires c.hub == Setup(col) && Prompts(c.text, chunk)
    ensures ConfigOk(c.hub) && WInitial(EMPTY_WORLD)
    ensures Reaches(c, EMPTY_WORLD, AskRun(chunk) + [Deciding(true, true)], WorldDecided(c, chunk, true, true))
    ensures var w' := WApply(c, WorldDecided(c, chunk, true, true), Deliver(1, Spawned, stdinOpen));
            !Holding(w', SERVER, 0, TASK) && w'.releases == [Release(1, SERVER, TASK, stdinOpen)]
  {
    DecisionReached(c, col, chunk, true, true);
    Decides(c, chunk, true, true);
    assert Grants(WorldDecided(c, chunk, true, true), 1, SERVER, TASK);
    DeliveredApprovalReleases(c, WorldDecided(c, chunk, true, true), 1, Spawned, stdinOpen, SERVER, 0, TASK);
  }

  /** The rejection cannot be sent: the task is CANCELLED, its record REJECTED, and
      in every continuation without a cancel the runner is not killed. */
  lemma {:induction false} RejectionLost(c: Settings, col: Collation, chunk: string, steps: seq<WStep>)
    requires c.hub == Setup(col) && Prompts(c.text, chunk)
    requires WRunOk(c, WorldDecided(c, chunk, false, false), steps)
    requires forall k :: 0 <= k < |steps| ==> !PlatformRuns.Cancels(steps[k], TASK)
    ensures ConfigOk(c.hub) && WInitial(EMPTY_WORLD)
    ensures Reaches(c, EMPTY_WORLD, AskRun(chunk) + [Deciding(false, false)], WorldDecided(c, chunk, false, false))
    ensures var t := WorldDecided(c, chunk, false, false).hub.tasks[TASK];
            t.status.Cancelled? && t.approval == Some(Rejected)
    ensures Spared(WRun(c, WorldDecided(c, chunk, false, false), steps), SERVER, 0, TASK)
  {
    DecisionReached(c, col, chunk, false, false);
    Decides(c, chunk, false, false);
    RejectionSpentIff(c, WorldAsked(chunk), USER, TASK, false, false);
    LostRejectionIsNeverReplayed(c, WorldDecided(c, chunk, false, false), steps, TASK, SERVER, 0);
  }

  // ----- an inconsistent comparator -----

  const TWO_PROFILES := [Profile(SERVER, CodexProvider, "default", true), Profile(SERVER, CodexProvider, "spare", true)]

  /** Two enabled profiles of one provider on the preferred server, which the
      unique constraint allows: the sort is handed an inconsistent comparator. */
  lemma TwoProfilesConfuseTheSort(col: Collation)
    requires LawfulCollation(col)
    ensures UniqueProfiles(TWO_PROFILES)
    ensures !ConsistentComparator((a, b) => Compare(col, SERVER, a, b), EligibleRows(SERVERS, TWO_PROFILES, CodexProvider, USER, {}))
  {
    var rows := EligibleRows(SERVERS, TWO_PROFILES, CodexProvider, USER, {});
    assert TWO_PROFILES[0] in TWO_PROFILES && TWO_PROFILES[1] in TWO_PROFILES;
    assert ToCandidate(SERVERS, TWO_PROFILES[0]) in rows && ToCandidate(SERVERS, TWO_PROFILES[1]) in rows;
    ComparatorConsistentIff(col, SERVER, rows);
  }
}
