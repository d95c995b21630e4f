/** A run in which one server's late capacity failure excludes another: server A
    goes offline with its result in the buffer, the watchdog moves the task to
    server B, A comes back. */
module LateFailure {
  import opened Common
  import opened Tasks
  import opened WorkerRegistry
  import opened Hub
  import opened HubInvariants
  import opened Runner
  import opened Daemon
  import opened Platform
  import opened PlatformRuns
  import opened Scenarios

  const A: ServerId := SERVER
  const B: ServerId := 2
  const A_ONLINE: ServerTable := map[A := Server(USER, "alpha", true), B := Server(USER, "beta", false)]
  const B_ONLINE: ServerTable := map[A := Server(USER, "alpha", false), B := Server(USER, "beta", true)]
  const PROFILE_A := Profile(A, CodexProvider, "default", true)
  const PROFILE_B := Profile(B, CodexProvider, "default", true)
  const BOTH := [PROFILE_A, PROFILE_B]

  // ----- the Hub's side -----

  /** Of two profiles only the one is eligible. */
  lemma OneOfTwo(servers: ServerTable, p: Profile, q: Profile, owner: UserId, excluded: set<ServerId>)
    ensures EligibleProfile(servers, p, CodexProvider, owner, excluded) && !EligibleProfile(servers, q, CodexProvider, owner, excluded)
            ==> EligibleRows(servers, [p, q], CodexProvider, owner, excluded) == [ToCandidate(servers, p)]
    ensures !EligibleProfile(servers, p, CodexProvider, owner, excluded) && EligibleProfile(servers, q, CodexProvider, owner, excluded)
            ==> EligibleRows(servers, [p, q], CodexProvider, owner, excluded) == [ToCandidate(servers, q)]
  {
    assert [p, q][1..] == [q] && [q][1..] == [];
    assert EligibleRows(servers, [], CodexProvider, owner, excluded) == [];
    assert EligibleRows(servers, [q], CodexProvider, owner, excluded)
        == if EligibleProfile(servers, q, CodexProvider, owner, excluded) then [ToCandidate(servers, q)] else [];
  }

  lemma SoleRow(col: Collation, servers: ServerTable, t: Task, c: Candidate, s: HubState)
    requires t.serverId in servers && t.workerType == Codex && s.servers == servers && s.profiles == BOTH
    requires EligibleRows(servers, BOTH, CodexProvider, servers[t.serverId].ownerId, ExcludedServers(t.attempts)) == [c]
    ensures CandidatesFor(Setup(col), s, t) == Some([c])
  {
    SortOne((a, b) => RowLe(col, a, b), c);
    SortOne(CompareLe(col, t.serverId), c);
  }

  const TO_A := Attempt(A, AttemptStatus.Running, None, 0)
  const ON_A := Task(USER, A, Codex, TaskStatus.Running, [], None, 0, [TO_A], None)
  const TO_B := Attempt(B, AttemptStatus.Running, None, LATER)

  function OnB(logs: seq<LogSegment>): Task {
    Task(USER, B, Codex, TaskStatus.Running, logs, None, LATER, [TIMED_OUT, TO_B], None)
  }

  const SENT_A := Packet(A, SubmitTask(TASK))
  const SENT_B := Packet(B, SubmitTask(TASK))

  const START := HubState(A_ONLINE, BOTH, map[], [], [], 0)
  const QUEUED_A := HubState(A_ONLINE, BOTH, map[TASK := QUEUED], [Job(TASK, Waiting(0))], [], 0)
  const RUNS_ON_A := HubState(A_ONLINE, BOTH, map[TASK := ON_A], [Job(TASK, Done)], [SENT_A], 0)
  const SILENT := RUNS_ON_A.(now := LATER)
  const MOVING := SILENT.(tasks := map[TASK := TimedOutRow(TaskStatus.Queued)], jobs := [Job(TASK, Done), Job(TASK, Waiting(0))])
  const SWAPPED := MOVING.(servers := B_ONLINE)

  function RunsOnB(logs: seq<LogSegment>): HubState {
    HubState(B_ONLINE, BOTH, map[TASK := OnB(logs)], [Job(TASK, Done), Job(TASK, Done)], [SENT_A, SENT_B], LATER)
  }

  const MOVED := RunsOnB([WatchdogRequeued(A)])

  lemma ToA(col: Collation)
    ensures StepOk(Setup(col), START, SUBMIT) && Apply(Setup(col), START, SUBMIT) == QUEUED_A
    ensures StepOk(Setup(col), QUEUED_A, DISPATCH) && Apply(Setup(col), QUEUED_A, DISPATCH) == RUNS_ON_A
  {
    var c := Candidate(A, "alpha", CodexProvider, "default");
    assert ExcludedServers(QUEUED.attempts) == {};
    OneOfTwo(A_ONLINE, PROFILE_A, PROFILE_B, USER, {});
    SoleRow(col, A_ONLINE, QUEUED, c, QUEUED_A);
    DispatchedRow();
    assert ServerIds([c]) == [A];
    assert DoRunJob(Setup(col), QUEUED_A, 0, [Accepted]).tasks == RUNS_ON_A.tasks;
  }

  lemma MovesOn(col: Collation)
    ensures StepOk(Setup(col), SILENT, WATCHDOG) && Apply(Setup(col), SILENT, WATCHDOG) == MOVING
  {
    var w, t := Setup(col).watchdog, SILENT.tasks[TASK];
    assert t.attempts[..0] == [] && TimedOutCount([]) == 0;
    assert TimedOutCount(t.attempts) == 0;
    assert WatchdogActs(t, w, LATER) && WatchdogRequeues(t, w);
    assert AfterWatchdog(t, w, LATER) == TimedOutRow(TaskStatus.Queued);
    assert Requeued(Setup(col), SILENT, [TASK], 0) == [];
    assert Requeued(Setup(col), SILENT, [TASK], 1) == [TASK];
    assert NewJobs([TASK]) == [Job(TASK, Waiting(0))];
  }

  lemma RowOnB()
    ensures AfterDispatch(TimedOutRow(TaskStatus.Queued), [B], [Accepted], LATER) == OnB([WatchdogRequeued(A)])
  {
    assert FirstAccepting([Accepted], 0, 1) == 0;
    assert RefusedAttempts([B], [Accepted], 0, LATER) == [];
  }

  lemma CandidateB(col: Collation)
    ensures CandidatesFor(Setup(col), SWAPPED, TimedOutRow(TaskStatus.Queued)) == Some([Candidate(B, "beta", CodexProvider, "default")])
  {
    var t, c := TimedOutRow(TaskStatus.Queued), Candidate(B, "beta", CodexProvider, "default");
    assert t.attempts[0] == TIMED_OUT && ExcludedServers(t.attempts) == {A};
    OneOfTwo(B_ONLINE, PROFILE_A, PROFILE_B, USER, {A});
    SoleRow(col, B_ONLINE, t, c, SWAPPED);
  }

  lemma ToB(col: Collation)
    ensures StepOk(Setup(col), SWAPPED, RunJob(1, [Accepted])) && Apply(Setup(col), SWAPPED, RunJob(1, [Accepted])) == MOVED
  {
    CandidateB(col);
    RowOnB();
    assert ServerIds([Candidate(B, "beta", CodexProvider, "default")]) == [B];
    assert FirstAccepting([Accepted], 0, 1) == 0;
    assert DoRunJob(Setup(col), SWAPPED, 1, [Accepted]).tasks == MOVED.tasks;
  }

  lemma TouchesB()
    ensures Touch([TIMED_OUT, TO_B], LATER) == [TIMED_OUT, TO_B]
  {
    assert LatestLive([TIMED_OUT, TO_B]) == Some(1);
  }

  /** A's first two events are taken for B's. */
  lemma HearsA(cfg: Hub.Config, chunk: string)
    ensures Apply(cfg, MOVED, StatusEvent(TASK, TaskStatus.Running)) == MOVED
    ensures Apply(cfg, MOVED, LogEvent(TASK, A, chunk)) == RunsOnB([WatchdogRequeued(A), Chunk(A, chunk)])
  {
    TouchesB();
    assert [WatchdogRequeued(A)] + [Chunk(A, chunk)] == [WatchdogRequeued(A), Chunk(A, chunk)];
  }

  // ----- the daemon's side -----

  const EXHAUSTED := Failure(CapacityExhausted, Some(true), None, None)

  /** Heuristics that take `chunk` for a capacity failure and not for a prompt. */
  ghost predicate Exhausts(h: Heuristics, chunk: string) {
    chunk != "" && |chunk| <= TAIL_LIMIT && h.detect(chunk) == None && h.capacity(chunk) == Some(EXHAUSTED)
  }

  function FailedPayload(chunk: string): ResultPayload { ResultPayload(false, Some(EXHAUSTED), chunk) }

  function Failed(chunk: string): Event { TaskResult(TASK, FailedPayload(chunk)) }

  function PrintedRunner(chunk: string): RunnerState { RunnerState(TASK, false, false, chunk, chunk, false, chunk, None) }

  const STATUS := StatusUpdate(TASK, TaskStatus.Running)

  function Offline(chunk: string): DaemonState {
    DaemonState(Link(false, [Log(TASK, chunk)], [STATUS], [STATUS, Log(TASK, chunk)]), map[TASK := 0],
                [PrintedRunner(chunk)], [(TASK, chunk)], [])
  }

  function Ended(chunk: string): DaemonState {
    DaemonState(Link(false, [Log(TASK, chunk), Failed(chunk)], [STATUS], [STATUS, Log(TASK, chunk), Failed(chunk)]), map[],
                [PrintedRunner(chunk).(exitHandled := true, outcome := Some(FailedPayload(chunk)))], [(TASK, chunk)],
                [ExitRecord(0, Close(Some(1), None), PrintedRunner(chunk))])
  }

  function Back(chunk: string): DaemonState {
    var all := [STATUS, Log(TASK, chunk), Failed(chunk)];
    Ended(chunk).(link := Link(true, [], all, all))
  }

  const DROPPED := SPAWNED.(link := SPAWNED.link.(connected := false))

  lemma PrintsOffline(h: Heuristics, chunk: string)
    requires Exhausts(h, chunk)
    ensures DApply(h, SPAWNED, Disconnect) == DROPPED
    ensures DApply(h, DROPPED, Child(0, Data(chunk))) == Offline(chunk)
  {
    assert "" + chunk == chunk;
    var e := Perform(h, DROPPED.pool[0], Data(chunk));
    assert e.runner == Offline(chunk).pool[0] && e.events == [Log(TASK, chunk)];
  }

  lemma EndsOffline(h: Heuristics, chunk: string)
    requires Exhausts(h, chunk)
    ensures DApply(h, Offline(chunk), Child(0, Close(Some(1), None))) == Ended(chunk)
  {
    var e := Perform(h, Offline(chunk).pool[0], Close(Some(1), None));
    assert e.runner == Ended(chunk).pool[0] && e.events == [Failed(chunk)] && e.drop;
  }

  lemma ComesBack(h: Heuristics, chunk: string)
    ensures DApply(h, Ended(chunk), Connect) == Back(chunk)
  {
    assert [STATUS] + [Log(TASK, chunk), Failed(chunk)] == [STATUS, Log(TASK, chunk), Failed(chunk)];
  }

  // ----- together -----

  const FRESH := World(START, map[], {}, map[], [])

  function With(hub: HubState, d: DaemonState): World { At(hub, d, {0}, map[], []) }

  const FIRST := [HubAct(SUBMIT), HubAct(DISPATCH), DaemonBoots(A), DaemonAct(A, Connect), Deliver(0, Spawned, true)]

  lemma DeliversToA(c: Settings)
    ensures WApply(c, At(RUNS_ON_A, CONNECTED, {}, map[], []), Deliver(0, Spawned, true)) == With(RUNS_ON_A, SPAWNED)
  {
    Spawns(c.text);
  }

  /** A step of the Hub alone, whatever the rest of the world is. */
  lemma {:induction false} HubMoves(c: Settings, run: seq<WStep>, w: World, st: Step, hub: HubState)
    requires Reaches(c, FRESH, run, w) && !FromDaemon(st) && StepOk(c.hub, w.hub, st) && Apply(c.hub, w.hub, st) == hub
    ensures Reaches(c, FRESH, run + [HubAct(st)], w.(hub := hub))
  {
    Extend(c, FRESH, run, w, HubAct(st), w.(hub := hub));
  }

  /** A step of A's daemon alone. */
  lemma {:induction false} DaemonMoves(c: Settings, run: seq<WStep>, hub: HubState, d: DaemonState, dstep: DStep, d': DaemonState)
    requires Reaches(c, FRESH, run, With(hub, d)) && WStepOk(c, With(hub, d), DaemonAct(A, dstep)) && DApply(c.text, d, dstep) == d'
    ensures Reaches(c, FRESH, run + [DaemonAct(A, dstep)], With(hub, d'))
  {
    Extend(c, FRESH, run, With(hub, d), DaemonAct(A, dstep), With(hub, d'));
  }

  lemma {:induction false} OnAReached(c: Settings, col: Collation)
    requires c.hub == Setup(col)
    ensures Reaches(c, FRESH, [] + [HubAct(SUBMIT)] + [HubAct(DISPATCH)], FRESH.(hub := RUNS_ON_A))
  {
    ToA(col);
    HubMoves(c, [], FRESH, SUBMIT, QUEUED_A);
    HubMoves(c, [] + [HubAct(SUBMIT)], FRESH.(hub := QUEUED_A), DISPATCH, RUNS_ON_A);
  }

  lemma {:induction false} FirstReached(c: Settings, col: Collation)
    requires c.hub == Setup(col)
    ensures Reaches(c, FRESH, FIRST, With(RUNS_ON_A, SPAWNED))
  {
    var run := [] + [HubAct(SUBMIT)] + [HubAct(DISPATCH)];
    OnAReached(c, col);
    Extend(c, FRESH, run, FRESH.(hub := RUNS_ON_A), DaemonBoots(A), At(RUNS_ON_A, NEW_DAEMON, {}, map[], []));
    BootsOn(c, run + [DaemonBoots(A)]);
    assert run + [DaemonBoots(A)] + [DaemonAct(A, Connect)] + [Deliver(0, Spawned, true)] == FIRST;
  }

  lemma {:induction false} BootsOn(c: Settings, run: seq<WStep>)
    requires Reaches(c, FRESH, run, At(RUNS_ON_A, NEW_DAEMON, {}, map[], []))
    ensures Reaches(c, FRESH, run + [DaemonAct(A, Connect)] + [Deliver(0, Spawned, true)], With(RUNS_ON_A, SPAWNED))
  {
    Spawns(c.text);
    Extend(c, FRESH, run, At(RUNS_ON_A, NEW_DAEMON, {}, map[], []), DaemonAct(A, Connect), At(RUNS_ON_A, CONNECTED, {}, map[], []));
    DeliversToA(c);
    Extend(c, FRESH, run + [DaemonAct(A, Connect)], At(RUNS_ON_A, CONNECTED, {}, map[], []), Deliver(0, Spawned, true), With(RUNS_ON_A, SPAWNED));
  }

  /** A fails while it is offline. */
  function Failing(chunk: string): seq<WStep> {
    FIRST + [DaemonAct(A, Disconnect)] + [DaemonAct(A, Child(0, Data(chunk)))] + [DaemonAct(A, Child(0, Close(Some(1), None)))]
  }

  lemma {:induction false} FailingReached(c: Settings, col: Collation, chunk: string)
    requires c.hub == Setup(col) && Exhausts(c.text, chunk)
    ensures Reaches(c, FRESH, Failing(chunk), With(RUNS_ON_A, Ended(chunk)))
  {
    var run := FIRST + [DaemonAct(A, Disconnect)];
    FirstReached(c, col);
    PrintsOffline(c.text, chunk);
    EndsOffline(c.text, chunk);
    DaemonMoves(c, FIRST, RUNS_ON_A, SPAWNED, Disconnect, DROPPED);
    DaemonMoves(c, run, RUNS_ON_A, DROPPED, Child(0, Data(chunk)), Offline(chunk));
    DaemonMoves(c, run + [DaemonAct(A, Child(0, Data(chunk)))], RUNS_ON_A, Offline(chunk), Child(0, Close(Some(1), None)), Ended(chunk));
  }

  const SWAP := ChangeServers(B_ONLINE, BOTH)

  /** The watchdog moves the task to B. */
  function Moving(chunk: string): seq<WStep> {
    Failing(chunk) + [HubAct(WAIT)] + [HubAct(WATCHDOG)] + [HubAct(SWAP)] + [HubAct(RunJob(1, [Accepted]))]
  }

  lemma Waits(col: Collation)
    ensures StepOk(Setup(col), RUNS_ON_A, WAIT) && Apply(Setup(col), RUNS_ON_A, WAIT) == SILENT
    ensures StepOk(Setup(col), MOVING, SWAP) && Apply(Setup(col), MOVING, SWAP) == SWAPPED
  {
  }

  lemma {:induction false} MovingReached(c: Settings, col: Collation, chunk: string)
    requires c.hub == Setup(col) && Exhausts(c.text, chunk)
    ensures Reaches(c, FRESH, Moving(chunk), With(MOVED, Ended(chunk)))
  {
    var d, run := Ended(chunk), Failing(chunk);
    FailingReached(c, col, chunk);
    Waits(col);
    HubMoves(c, run, With(RUNS_ON_A, d), WAIT, SILENT);
    MovesOn(col);
    HubMoves(c, run + [HubAct(WAIT)], With(SILENT, d), WATCHDOG, MOVING);
    HubMoves(c, run + [HubAct(WAIT)] + [HubAct(WATCHDOG)], With(MOVING, d), SWAP, SWAPPED);
    ToB(col);
    HubMoves(c, run + [HubAct(WAIT)] + [HubAct(WATCHDOG)] + [HubAct(SWAP)], With(SWAPPED, d), RunJob(1, [Accepted]), MOVED);
  }

  /** A comes back, and the Hub handles its status and its output. */
  function Returning(chunk: string): seq<WStep> {
    Moving(chunk) + [DaemonAct(A, Connect)] + [HubReceive(A)] + [HubReceive(A)]
  }

  function Returned(chunk: string): World {
    At(RunsOnB([WatchdogRequeued(A), Chunk(A, chunk)]), Back(chunk), {0}, map[A := 2], [])
  }

  lemma Receives(c: Settings, chunk: string)
    ensures WApply(c, With(MOVED, Back(chunk)), HubReceive(A)) == At(MOVED, Back(chunk), {0}, map[A := 1], [])
    ensures WApply(c, At(MOVED, Back(chunk), {0}, map[A := 1], []), HubReceive(A)) == Returned(chunk)
  {
    HearsA(c.hub, chunk);
  }

  lemma {:induction false} ReturningReached(c: Settings, col: Collation, chunk: string)
    requires c.hub == Setup(col) && Exhausts(c.text, chunk)
    ensures Reaches(c, FRESH, Returning(chunk), Returned(chunk))
  {
    var run, back := Moving(chunk), DaemonAct(A, Connect);
    MovingReached(c, col, chunk);
    ComesBack(c.text, chunk);
    DaemonMoves(c, run, MOVED, Ended(chunk), Connect, Back(chunk));
    Receives(c, chunk);
    Extend(c, FRESH, run + [back], With(MOVED, Back(chunk)), HubReceive(A), At(MOVED, Back(chunk), {0}, map[A := 1], []));
    Extend(c, FRESH, run + [back] + [HubReceive(A)], At(MOVED, Back(chunk), {0}, map[A := 1], []), HubReceive(A), Returned(chunk));
  }

  /** The next event is A's own capacity failure.  The attempt it closes is the one
      on B, and it is B that becomes excluded. */
  lemma {:induction false} InnocentServerExcluded(c: Settings, col: Collation, chunk: string)
    requires c.hub == Setup(col) && Exhausts(c.text, chunk)
    ensures ConfigOk(c.hub) && WInitial(FRESH)
    ensures Reaches(c, FRESH, Returning(chunk), Returned(chunk)) && ReportsCapacity(Returned(chunk), A, TASK)
    ensures Returned(chunk).hub.tasks[TASK].serverId == B && BlamesOther(c, Returned(chunk), A, TASK)
  {
    SetupIsOk(col);
    ReturningReached(c, col, chunk);
    WRunKeeps(c, FRESH, Returning(chunk));
    ReturnedIs(chunk);
    OtherIsBlamed(c, Returned(chunk), A, TASK);
  }

  lemma ReturnedIs(chunk: string)
    ensures ReportsCapacity(Returned(chunk), A, TASK)
    ensures var t := Returned(chunk).hub.tasks[TASK]; t.serverId == B && HasLive(t.attempts)
  {
    assert Live(Returned(chunk).hub.tasks[TASK].attempts[1]);
  }
}
