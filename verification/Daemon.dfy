/** One Agent Daemon (`agent-daemon/src/client.js`) as a step system: the socket
    with its offline buffer, the runner map, and every runner ever created. */
module Daemon {
  import opened Common
  import opened Runner

  /** `sent` is everything handed to the socket, in order; `emitted` is a history
      variable: everything any part of the daemon ever emitted. */
  datatype Link = Link(connected: bool, buffer: seq<Event>, sent: seq<Event>, emitted: seq<Event>)

  function LinkEmit(l: Link, es: seq<Event>): Link {
    if l.connected then l.(sent := l.sent + es, emitted := l.emitted + es)
    else l.(buffer := l.buffer + es, emitted := l.emitted + es)
  }

  /** The `connect` event with its flush, as one step. */
  function LinkConnect(l: Link): Link {
    l.(connected := true, buffer := [], sent := l.sent + l.buffer)
  }

  function LinkDisconnect(l: Link): Link {
    l.(connected := false)
  }

  /** `pool` holds every accepted submit's runner, in order; `runners` maps a
      task id to a position in it.  Two history variables: `output` is every chunk
      any child printed, with its task, and `exits` every event that ends a runner,
      with the runner as it was. */
  datatype DaemonState = DaemonState(
    link: Link,
    runners: map<TaskId, nat>,
    pool: seq<RunnerState>,
    output: seq<(TaskId, string)>,
    exits: seq<ExitRecord>)

  datatype ExitRecord = ExitRecord(runner: nat, op: Op, before: RunnerState)

  const NEW_DAEMON := DaemonState(Link(false, [], [], []), map[], [], [], [])

  datatype DStep =
    | TaskSubmit(taskId: TaskId, outcome: SpawnOutcome)
    | TaskCancel(taskId: TaskId)
    | DecisionArrives(taskId: TaskId, approved: bool, stdinOpen: bool)
    | Child(runner: nat, op: Op)
    | HeartbeatTimer
    | Connect
    | Disconnect

  /** Run one operation of runner `i` and carry out its effect on the client. */
  function RunOp(h: Heuristics, d: DaemonState, i: nat, op: Op): DaemonState
    requires i < |d.pool|
  {
    var e := Perform(h, d.pool[i], op);
    d.(pool := d.pool[i := e.runner],
       link := LinkEmit(d.link, e.events),
       runners := if e.drop then d.runners - {d.pool[i].taskId} else d.runners,
       output := if op.Data? then d.output + [(d.pool[i].taskId, op.chunk)] else d.output,
       exits := if IsExit(op) then d.exits + [ExitRecord(i, op, d.pool[i])] else d.exits)
  }

  function DApply(h: Heuristics, d: DaemonState, step: DStep): DaemonState {
    match step
    case TaskSubmit(id, outcome) =>
      if id in d.runners then d
      else
        var i := |d.pool|;
        RunOp(h, d.(pool := d.pool + [Fresh(id)], runners := d.runners[id := i]), i, Start(outcome))
    case TaskCancel(id) =>
      if id in d.runners && d.runners[id] < |d.pool| then RunOp(h, d, d.runners[id], Kill) else d
    case DecisionArrives(id, approved, stdinOpen) =>
      if id in d.runners && d.runners[id] < |d.pool| then RunOp(h, d, d.runners[id], Decision(approved, stdinOpen)) else d
    case Child(i, op) => if i < |d.pool| then RunOp(h, d, i, op) else d
    case HeartbeatTimer => d.(link := LinkEmit(d.link, [Heartbeat]))
    case Connect => d.(link := LinkConnect(d.link))
    case Disconnect => d.(link := LinkDisconnect(d.link))
  }

  /** Child processes only print, close and fail; everything else comes from the Hub. */
  predicate DStepOk(step: DStep) {
    step.Child? ==> step.op.Data? || step.op.Close? || step.op.Error?
  }

  function DRun(h: Heuristics, d: DaemonState, steps: seq<DStep>): DaemonState {
    if |steps| == 0 then d
    else DApply(h, DRun(h, d, steps[..|steps| - 1]), steps[|steps| - 1])
  }

  predicate DRunOk(steps: seq<DStep>) {
    forall i :: 0 <= i < |steps| ==> DStepOk(steps[i])
  }

  // ----- invariant -----

  /** The buffer never loses, duplicates or reorders an event. */
  ghost predicate LinkInv(l: Link) {
    l.emitted == l.sent + l.buffer && (l.connected ==> l.buffer == [])
  }

  /** The map holds exactly the runners whose exit is unhandled, one per task id. */
  ghost predicate MapInv(d: DaemonState) {
    && (forall id :: id in d.runners ==>
          d.runners[id] < |d.pool| && d.pool[d.runners[id]].taskId == id && !d.pool[d.runners[id]].exitHandled)
    && (forall i :: 0 <= i < |d.pool| && !d.pool[i].exitHandled ==>
          d.pool[i].taskId in d.runners && d.runners[d.pool[i].taskId] == i)
  }

  /** What the task's runners have reported, in the order the runners were made. */
  function OutcomesOf(pool: seq<RunnerState>, id: TaskId): seq<ResultPayload> {
    if |pool| == 0 then []
    else
      var before := OutcomesOf(pool[..|pool| - 1], id);
      var r := pool[|pool| - 1];
      if r.taskId == id && r.outcome.Some? then before + [r.outcome.value] else before
  }

  /** Accepted submits of the task. */
  function CountAccepted(pool: seq<RunnerState>, id: TaskId): nat {
    if |pool| == 0 then 0
    else CountAccepted(pool[..|pool| - 1], id) + (if pool[|pool| - 1].taskId == id then 1 else 0)
  }

  function OutputOf(output: seq<(TaskId, string)>, id: TaskId): seq<string> {
    if |output| == 0 then []
    else
      var before := OutputOf(output[..|output| - 1], id);
      var o := output[|output| - 1];
      if o.0 == id then before + [o.1] else before
  }

  /** A task has a new runner only once its last one has ended. */
  ghost predicate OrderInv(d: DaemonState) {
    forall i, j :: 0 <= i < j < |d.pool| && d.pool[i].taskId == d.pool[j].taskId ==> d.pool[i].exitHandled
  }

  /** The results emitted for a task are what its runners reported, in order. */
  ghost predicate ResultsInv(d: DaemonState) {
    forall id :: ResultsOf(d.link.emitted, id) == OutcomesOf(d.pool, id)
  }

  /** The event that ended runner `i`: later ones do not count. */
  function FirstExit(exits: seq<ExitRecord>, i: nat): Option<ExitRecord> {
    if |exits| == 0 then None
    else
      var first := FirstExit(exits[..|exits| - 1], i);
      if first.None? && exits[|exits| - 1].runner == i then Some(exits[|exits| - 1]) else first
  }

  /** The child of runner `i` closed with code 0 and no signal, before anything else
      ended the runner and before the Hub killed it. */
  ghost predicate ClosedWell(d: DaemonState, i: nat) {
    && FirstExit(d.exits, i).Some?
    && FirstExit(d.exits, i).value.op == Close(Some(0), None)
    && !FirstExit(d.exits, i).value.before.killedByHub
  }

  ghost predicate Succeeded(r: RunnerState) { r.outcome.Some? && r.outcome.value.completed }

  ghost predicate ExitInv(d: DaemonState) {
    && (forall k :: 0 <= k < |d.exits| ==> d.exits[k].runner < |d.pool|)
    && (forall i :: 0 <= i < |d.pool| ==>
          && (d.pool[i].exitHandled <==> FirstExit(d.exits, i).Some?)
          && (Succeeded(d.pool[i]) <==> ClosedWell(d, i)))
  }

  ghost predicate OutputInv(d: DaemonState) {
    forall id :: LogChunks(d.link.emitted, id) == OutputOf(d.output, id)
  }

  ghost predicate DInv(d: DaemonState) {
    && LinkInv(d.link) && MapInv(d) && ResultsInv(d) && OutputInv(d) && OrderInv(d) && ExitInv(d)
    && (forall i :: 0 <= i < |d.pool| ==> RunnerInv(d.pool[i]))
  }

  // ----- preservation -----

  lemma LinkKeeps(l: Link, es: seq<Event>)
    requires LinkInv(l)
    ensures LinkInv(LinkEmit(l, es)) && LinkInv(LinkConnect(l)) && LinkInv(LinkDisconnect(l))
    ensures LinkEmit(l, es).emitted == l.emitted + es
  {
    assert l.sent + l.buffer + es == l.sent + (l.buffer + es);
    if l.connected { assert l.sent + [] + es == (l.sent + es) + []; }
  }

  lemma {:induction false} OutcomesUpdate(pool: seq<RunnerState>, i: nat, r: RunnerState, id: TaskId)
    requires i < |pool| && r.taskId == pool[i].taskId && (pool[i].outcome.Some? ==> r.outcome == pool[i].outcome)
    requires r.outcome != pool[i].outcome ==> forall j :: i < j < |pool| ==> pool[j].taskId != r.taskId
    ensures OutcomesOf(pool[i := r], id)
         == OutcomesOf(pool, id) + (if id == r.taskId && r.outcome.Some? && pool[i].outcome.None? then [r.outcome.value] else [])
  {
    var n := |pool| - 1;
    if i < n {
      OutcomesUpdate(pool[..n], i, r, id);
      assert pool[i := r][..n] == pool[..n][i := r];
    } else {
      assert pool[i := r][..n] == pool[..n];
    }
  }

  lemma RunOpMap(h: Heuristics, d: DaemonState, i: nat, op: Op)
    requires MapInv(d) && i < |d.pool| && RunnerInv(d.pool[i])
    ensures MapInv(RunOp(h, d, i, op))
  {
    var r := d.pool[i];
    var e := Perform(h, r, op);
    var d' := RunOp(h, d, i, op);
    PerformOk(h, r, op);
    forall id | id in d'.runners
      ensures d'.runners[id] < |d'.pool| && d'.pool[d'.runners[id]].taskId == id && !d'.pool[d'.runners[id]].exitHandled
    {
      if d.runners[id] == i { assert !r.exitHandled && !e.drop; }
    }
  }

  lemma RunOpResults(h: Heuristics, d: DaemonState, i: nat, op: Op)
    requires ResultsInv(d) && OrderInv(d) && LinkInv(d.link) && i < |d.pool| && RunnerInv(d.pool[i])
    ensures ResultsInv(RunOp(h, d, i, op)) && OrderInv(RunOp(h, d, i, op))
  {
    var e := Perform(h, d.pool[i], op);
    var d' := RunOp(h, d, i, op);
    PerformOk(h, d.pool[i], op);
    LinkKeeps(d.link, e.events);
    forall id ensures ResultsOf(d'.link.emitted, id) == OutcomesOf(d'.pool, id) {
      Appending(d.link.emitted, e.events, id);
      OutcomesUpdate(d.pool, i, e.runner, id);
    }
  }

  lemma RunOpOutput(h: Heuristics, d: DaemonState, i: nat, op: Op)
    requires OutputInv(d) && LinkInv(d.link) && i < |d.pool| && RunnerInv(d.pool[i])
    ensures OutputInv(RunOp(h, d, i, op)) && LinkInv(RunOp(h, d, i, op).link)
  {
    var e := Perform(h, d.pool[i], op);
    var d' := RunOp(h, d, i, op);
    PerformOk(h, d.pool[i], op);
    LinkKeeps(d.link, e.events);
    forall id ensures LogChunks(d'.link.emitted, id) == OutputOf(d'.output, id) {
      Appending(d.link.emitted, e.events, id);
      if op.Data? { assert d'.output[..|d.output|] == d.output; }
    }
  }

  lemma FirstExitSnoc(exits: seq<ExitRecord>, rec: ExitRecord, i: nat)
    ensures FirstExit(exits + [rec], i)
         == if FirstExit(exits, i).None? && rec.runner == i then Some(rec) else FirstExit(exits, i)
  {
    assert (exits + [rec])[..|exits|] == exits;
  }

  lemma {:induction false} NoExitOf(exits: seq<ExitRecord>, i: nat)
    requires forall k :: 0 <= k < |exits| ==> exits[k].runner != i
    ensures FirstExit(exits, i).None?
  {
    if |exits| > 0 { NoExitOf(exits[..|exits| - 1], i); }
  }

  lemma RunOpExits(h: Heuristics, d: DaemonState, i: nat, op: Op)
    requires ExitInv(d) && i < |d.pool| && RunnerInv(d.pool[i])
    ensures ExitInv(RunOp(h, d, i, op))
  {
    var d' := RunOp(h, d, i, op);
    PerformExits(h, d.pool[i], op);
    forall j | 0 <= j < |d'.pool|
      ensures (d'.pool[j].exitHandled <==> FirstExit(d'.exits, j).Some?) && (Succeeded(d'.pool[j]) <==> ClosedWell(d', j))
    {
      FirstExitSnoc(d.exits, ExitRecord(i, op, d.pool[i]), j);
      assert ClosedWell(d, j) <==> Succeeded(d.pool[j]);
    }
  }

  lemma RunOpKeeps(h: Heuristics, d: DaemonState, i: nat, op: Op)
    requires DInv(d) && i < |d.pool|
    ensures DInv(RunOp(h, d, i, op))
  {
    RunOpMap(h, d, i, op);
    RunOpResults(h, d, i, op);
    RunOpOutput(h, d, i, op);
    RunOpExits(h, d, i, op);
    PerformKeeps(h, d.pool[i], op);
  }

  lemma AcceptMap(d: DaemonState, id: TaskId)
    requires MapInv(d) && OrderInv(d) && id !in d.runners
    ensures var d' := d.(pool := d.pool + [Fresh(id)], runners := d.runners[id := |d.pool|]);
            MapInv(d') && OrderInv(d')
  {
  }

  lemma AcceptResults(d: DaemonState, id: TaskId)
    requires ResultsInv(d)
    ensures ResultsInv(d.(pool := d.pool + [Fresh(id)], runners := d.runners[id := |d.pool|]))
  {
    assert (d.pool + [Fresh(id)])[..|d.pool|] == d.pool;
  }

  lemma AcceptExits(d: DaemonState, id: TaskId)
    requires ExitInv(d)
    ensures ExitInv(d.(pool := d.pool + [Fresh(id)], runners := d.runners[id := |d.pool|]))
  {
    var d' := d.(pool := d.pool + [Fresh(id)], runners := d.runners[id := |d.pool|]);
    NoExitOf(d.exits, |d.pool|);
    forall i | 0 <= i < |d'.pool|
      ensures (d'.pool[i].exitHandled <==> FirstExit(d'.exits, i).Some?) && (Succeeded(d'.pool[i]) <==> ClosedWell(d', i))
    {
      if i < |d.pool| { assert ClosedWell(d, i) <==> Succeeded(d.pool[i]); }
    }
  }

  lemma AcceptKeeps(d: DaemonState, id: TaskId)
    requires DInv(d) && id !in d.runners
    ensures DInv(d.(pool := d.pool + [Fresh(id)], runners := d.runners[id := |d.pool|]))
  {
    AcceptMap(d, id);
    AcceptResults(d, id);
    AcceptExits(d, id);
  }

  lemma DStepKeeps(h: Heuristics, d: DaemonState, step: DStep)
    requires DInv(d)
    ensures DInv(DApply(h, d, step))
  {
    match step {
      case TaskSubmit(id, outcome) =>
        if id !in d.runners {
          AcceptKeeps(d, id);
          RunOpKeeps(h, d.(pool := d.pool + [Fresh(id)], runners := d.runners[id := |d.pool|]), |d.pool|, Start(outcome));
        }
      case TaskCancel(id) => if id in d.runners { RunOpKeeps(h, d, d.runners[id], Kill); }
      case DecisionArrives(id, approved, stdinOpen) =>
        if id in d.runners { RunOpKeeps(h, d, d.runners[id], Decision(approved, stdinOpen)); }
      case Child(i, op) => if i < |d.pool| { RunOpKeeps(h, d, i, op); }
      case _ =>
        LinkKeeps(d.link, [Heartbeat]);
        forall id
          ensures ResultsOf(d.link.emitted + [Heartbeat], id) == ResultsOf(d.link.emitted, id)
          ensures LogChunks(d.link.emitted + [Heartbeat], id) == LogChunks(d.link.emitted, id)
        {
          Appending(d.link.emitted, [Heartbeat], id);
          Single(Heartbeat, id);
        }
    }
  }

  // ----- theorems over runs -----

  lemma {:induction false} DRunKeeps(h: Heuristics, steps: seq<DStep>)
    ensures DInv(DRun(h, NEW_DAEMON, steps))
  {
    if |steps| > 0 {
      DRunKeeps(h, steps[..|steps| - 1]);
      DStepKeeps(h, DRun(h, NEW_DAEMON, steps[..|steps| - 1]), steps[|steps| - 1]);
    }
  }

  lemma {:induction false} OutcomesAtMostAccepted(pool: seq<RunnerState>, id: TaskId)
    ensures |OutcomesOf(pool, id)| <= CountAccepted(pool, id)
  {
    if |pool| > 0 { OutcomesAtMostAccepted(pool[..|pool| - 1], id); }
  }

  /** In every reachable state: nothing emitted is lost, duplicated or reordered,
      a connected daemon has an empty buffer, and each accepted submit has
      produced at most one `task:result`. */
  lemma DaemonSafety(h: Heuristics, steps: seq<DStep>, id: TaskId)
    ensures var d := DRun(h, NEW_DAEMON, steps);
            && d.link.sent + d.link.buffer == d.link.emitted
            && (d.link.connected ==> d.link.buffer == [])
            && MapInv(d)
            && |ResultsOf(d.link.emitted, id)| <= CountAccepted(d.pool, id)
  {
    DRunKeeps(h, steps);
    OutcomesAtMostAccepted(DRun(h, NEW_DAEMON, steps).pool, id);
  }

  /** Once a runner's exit is handled, a late close or error of its child changes
      nothing but the history, so it cannot remove a newer runner for the same task. */
  lemma LateExitIsIgnored(h: Heuristics, d: DaemonState, i: nat, op: Op)
    requires i < |d.pool| && d.pool[i].exitHandled && (op.Close? || op.Error?)
    ensures DApply(h, d, Child(i, op)) == d.(exits := d.exits + [ExitRecord(i, op, d.pool[i])])
  {
    assert d.pool[i := d.pool[i]] == d.pool;
    assert d.link.sent + [] == d.link.sent && d.link.buffer + [] == d.link.buffer && d.link.emitted + [] == d.link.emitted;
  }

  predicate IsClose(step: DStep, i: nat) {
    step.Child? && step.runner == i && step.op.Close?
  }

  predicate IsError(step: DStep, i: nat) {
    step.Child? && step.runner == i && step.op.Error?
  }

  /** Some `error` event of child `i` comes before any `close` of it. */
  ghost predicate ErrorBeforeClose(steps: seq<DStep>, i: nat) {
    exists k :: 0 <= k < |steps| && IsError(steps[k], i) && NoClose(steps[..k], i)
  }

  ghost predicate NoClose(steps: seq<DStep>, i: nat) {
    forall j :: 0 <= j < |steps| ==> !IsClose(steps[j], i)
  }

  ghost predicate Exits(steps: seq<DStep>, i: nat) {
    exists k :: 0 <= k < |steps| && (IsClose(steps[k], i) || IsError(steps[k], i))
  }

  /** What one step does to the flags of a killed runner. */
  lemma KilledRunnerStep(h: Heuristics, d: DaemonState, step: DStep, i: nat)
    requires i < |d.pool| && d.pool[i].killedByHub && DStepOk(step)
    ensures var d' := DApply(h, d, step);
            && i < |d'.pool| && d'.pool[i].killedByHub
            && (d'.pool[i].exitHandled <==> d.pool[i].exitHandled || IsClose(step, i) || IsError(step, i))
            && (d'.pool[i].outcome.Some? <==> d.pool[i].outcome.Some? || (IsError(step, i) && !d.pool[i].exitHandled))
  {
  }

  lemma ErrorBeforeCloseSnoc(steps: seq<DStep>, i: nat)
    requires |steps| > 0
    ensures var n := |steps| - 1;
            ErrorBeforeClose(steps, i) <==> ErrorBeforeClose(steps[..n], i) || (IsError(steps[n], i) && NoClose(steps[..n], i))
  {
    var n := |steps| - 1;
    forall k | 0 <= k < n ensures steps[..n][..k] == steps[..k] { }
    if ErrorBeforeClose(steps[..n], i) {
      var k :| 0 <= k < n && IsError(steps[..n][k], i) && NoClose(steps[..n][..k], i);
      assert IsError(steps[k], i);
    }
    if ErrorBeforeClose(steps, i) {
      var k :| 0 <= k < |steps| && IsError(steps[k], i) && NoClose(steps[..k], i);
      if k < n { assert IsError(steps[..n][k], i); }
    }
  }

  /** An exit among steps without a `close` is an `error` before any `close`. */
  lemma ExitWithoutClose(steps: seq<DStep>, i: nat)
    requires Exits(steps, i) && NoClose(steps, i)
    ensures ErrorBeforeClose(steps, i)
  {
    var k :| 0 <= k < |steps| && (IsClose(steps[k], i) || IsError(steps[k], i));
    assert NoClose(steps[..k], i);
  }

  /** A runner the Hub killed before its exit reports a result in exactly those
      continuations in which its child raises an `error` event before it closes. */
  lemma {:induction false} KilledRunnerReportsIff(h: Heuristics, d: DaemonState, i: nat, steps: seq<DStep>)
    requires DInv(d) && i < |d.pool| && d.pool[i].killedByHub && !d.pool[i].exitHandled
    requires DRunOk(steps)
    ensures var d' := DRun(h, d, steps);
            && i < |d'.pool| && d'.pool[i].killedByHub
            && (d'.pool[i].exitHandled <==> Exits(steps, i))
            && (d'.pool[i].outcome.Some? <==> ErrorBeforeClose(steps, i))
  {
    if |steps| > 0 {
      var n := |steps| - 1;
      var before, step := steps[..n], steps[n];
      KilledRunnerReportsIff(h, d, i, before);
      KilledRunnerStep(h, DRun(h, d, before), step, i);
      ErrorBeforeCloseSnoc(steps, i);
      if Exits(before, i) && NoClose(before, i) { ExitWithoutClose(before, i); }
      assert Exits(steps, i) <==> Exits(before, i) || IsClose(step, i) || IsError(step, i) by {
        if Exits(before, i) {
          var k :| 0 <= k < n && (IsClose(before[k], i) || IsError(before[k], i));
          assert IsClose(steps[k], i) || IsError(steps[k], i);
        }
        if Exits(steps, i) {
          var k :| 0 <= k < |steps| && (IsClose(steps[k], i) || IsError(steps[k], i));
          if k < n { assert IsClose(before[k], i) || IsError(before[k], i); }
        }
      }
    }
  }

  lemma DRunSnoc(h: Heuristics, d: DaemonState, steps: seq<DStep>, step: DStep)
    ensures DRun(h, d, steps + [step]) == DApply(h, DRun(h, d, steps), step)
  {
    assert (steps + [step])[..|steps|] == steps;
  }

  lemma SoleReport(d: DaemonState, id: TaskId)
    requires ResultsInv(d) && |d.pool| == 1 && d.pool[0].taskId == id && d.pool[0].outcome.Some?
    ensures |ResultsOf(d.link.emitted, id)| == 1
  {
    assert OutcomesOf(d.pool[..0], id) == [];
    assert OutcomesOf(d.pool, id) == [] + [d.pool[0].outcome.value];
  }

  lemma CancelledThenFails(h: Heuristics, id: TaskId, message: string)
    ensures var d := DApply(h, DApply(h, DApply(h, NEW_DAEMON, TaskSubmit(id, Spawned)), TaskCancel(id)), Child(0, Error(message)));
            |d.pool| == 1 && d.pool[0].taskId == id && d.pool[0].outcome.Some?
  {
  }

  /** Such a run: a cancelled child that fails to start still reports a failure. */
  lemma CancelledChildReports(h: Heuristics, id: TaskId, message: string)
    ensures var steps := [] + [TaskSubmit(id, Spawned)] + [TaskCancel(id)] + [Child(0, Error(message))];
            && DRunOk(steps)
            && |ResultsOf(DRun(h, NEW_DAEMON, steps).link.emitted, id)| == 1
  {
    var none: seq<DStep> := [];
    var one := none + [TaskSubmit(id, Spawned)];
    var two := one + [TaskCancel(id)];
    var steps := two + [Child(0, Error(message))];
    DRunSnoc(h, NEW_DAEMON, none, TaskSubmit(id, Spawned));
    DRunSnoc(h, NEW_DAEMON, one, TaskCancel(id));
    DRunSnoc(h, NEW_DAEMON, two, Child(0, Error(message)));
    CancelledThenFails(h, id, message);
    DRunKeeps(h, steps);
    SoleReport(DRun(h, NEW_DAEMON, steps), id);
  }
}
