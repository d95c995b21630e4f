/** Hub and daemons together.  The Hub's messages are delivered at most once, in
    any order or not at all; each daemon's events reach the Hub in order.  There
    is one daemon per server. */
module Platform {
  import opened Common
  import opened Tasks
  import opened Hub
  import opened HubInvariants
  import opened Runner
  import opened Daemon

  datatype Settings = Settings(hub: Hub.Config, text: Heuristics)

  /** The end of a runner's hold on delivery of `packet`; `wrote` is whether the
      resume input was also written to the child's stdin. */
  datatype Release = Release(packet: nat, server: ServerId, taskId: TaskId, wrote: bool)

  /** `consumed` are the positions of `hub.outbox` already delivered, `handled`
      how many of a daemon's sent events the Hub has handled, `releases` a history
      of all holds ever ended. */
  datatype World = World(
    hub: HubState,
    daemons: map<ServerId, DaemonState>,
    consumed: set<nat>,
    handled: map<ServerId, nat>,
    releases: seq<Release>)

  datatype WStep =
    | HubAct(step: Step)
    | HubReceive(server: ServerId)
    | Deliver(packet: nat, outcome: SpawnOutcome, stdinOpen: bool)
    | DaemonAct(server: ServerId, dstep: DStep)
    | DaemonBoots(server: ServerId)

  predicate FromDaemon(step: Step) {
    step.StatusEvent? || step.LogEvent? || step.ResultEvent? || step.ApprovalEvent?
  }

  /** The Hub handler that the gateway calls for an event of server `s`. */
  function HandlerFor(s: ServerId, e: Event): Option<Step> {
    match e
    case Heartbeat => None
    case StatusUpdate(id, status) => Some(StatusEvent(id, status))
    case Log(id, chunk) => Some(LogEvent(id, s, chunk))
    case ApprovalRequest(id, _) => Some(ApprovalEvent(id))
    case TaskResult(id, payload) => Some(ResultEvent(id, payload))
  }

  function Arrival(m: Message, outcome: SpawnOutcome, stdinOpen: bool): DStep {
    match m
    case SubmitTask(id) => TaskSubmit(id, outcome)
    case CancelTask(id) => TaskCancel(id)
    case ApprovalDecision(id, approved) => DecisionArrives(id, approved, stdinOpen)
  }

  /** Whether handling the message ends a hold. */
  predicate Releases(d: DaemonState, m: Message, stdinOpen: bool) {
    && m.ApprovalDecision? && m.taskId in d.runners && d.runners[m.taskId] < |d.pool|
    && d.pool[d.runners[m.taskId]].awaitingApproval
    && !DecisionEffect(d, m, stdinOpen).runner.awaitingApproval
  }

  function DecisionEffect(d: DaemonState, m: Message, stdinOpen: bool): Effect
    requires m.ApprovalDecision? && m.taskId in d.runners && d.runners[m.taskId] < |d.pool|
  {
    Runner.OnDecision(d.pool[d.runners[m.taskId]], m.approved, stdinOpen)
  }

  function HandledOf(w: World, s: ServerId): nat {
    if s in w.handled then w.handled[s] else 0
  }

  function DoReceive(c: Settings, w: World, s: ServerId): World {
    if s !in w.daemons || HandledOf(w, s) >= |w.daemons[s].link.sent| then w
    else
      var next := w.(handled := w.handled[s := HandledOf(w, s) + 1]);
      match HandlerFor(s, w.daemons[s].link.sent[HandledOf(w, s)])
      case None => next
      case Some(step) => next.(hub := Apply(c.hub, w.hub, step))
  }

  function DoDeliver(c: Settings, w: World, k: nat, outcome: SpawnOutcome, stdinOpen: bool): World {
    if k >= |w.hub.outbox| || k in w.consumed || w.hub.outbox[k].server !in w.daemons then w
    else
      var s, m := w.hub.outbox[k].server, w.hub.outbox[k].message;
      var d := w.daemons[s];
      w.(daemons := w.daemons[s := DApply(c.text, d, Arrival(m, outcome, stdinOpen))],
         consumed := w.consumed + {k},
         releases := if Releases(d, m, stdinOpen)
                     then w.releases + [Release(k, s, m.taskId, DecisionEffect(d, m, stdinOpen).wrote)]
                     else w.releases)
  }

  function WApply(c: Settings, w: World, step: WStep): World {
    match step
    case HubAct(st) => w.(hub := Apply(c.hub, w.hub, st))
    case HubReceive(s) => DoReceive(c, w, s)
    case Deliver(k, outcome, stdinOpen) => DoDeliver(c, w, k, outcome, stdinOpen)
    case DaemonAct(s, dstep) =>
      if s in w.daemons then w.(daemons := w.daemons[s := DApply(c.text, w.daemons[s], dstep)]) else w
    case DaemonBoots(s) => if s in w.daemons then w else w.(daemons := w.daemons[s := NEW_DAEMON])
  }

  ghost predicate WStepOk(c: Settings, w: World, step: WStep) {
    match step
    case HubAct(st) => !FromDaemon(st) && StepOk(c.hub, w.hub, st)
    case DaemonAct(_, dstep) => DStepOk(dstep) && !dstep.TaskSubmit? && !dstep.TaskCancel? && !dstep.DecisionArrives?
    case _ => true
  }

  function WRun(c: Settings, w: World, steps: seq<WStep>): World {
    if |steps| == 0 then w
    else WApply(c, WRun(c, w, steps[..|steps| - 1]), steps[|steps| - 1])
  }

  ghost predicate WRunOk(c: Settings, w: World, steps: seq<WStep>) {
    |steps| == 0
    || (&& WRunOk(c, w, steps[..|steps| - 1])
        && WStepOk(c, WRun(c, w, steps[..|steps| - 1]), steps[|steps| - 1]))
  }

  ghost predicate WInitial(w: World) {
    Initial(w.hub) && w.daemons == map[] && w.consumed == {} && w.handled == map[] && w.releases == []
  }

  // ----- what the Hub sends -----

  /** A decision on the wire repeats the recorded one, and there is only one per task. */
  ghost predicate DecisionsOnWire(s: HubState) {
    && (forall k :: 0 <= k < |s.outbox| ==> MatchesRecord(s, s.outbox[k].message))
    && (forall k, l ::
          (0 <= k < l < |s.outbox| && s.outbox[k].message.ApprovalDecision? && s.outbox[l].message.ApprovalDecision?)
          ==> s.outbox[k].message.taskId != s.outbox[l].message.taskId)
  }

  /** One step sends at most one message; only `Decide` on a pending approval sends a decision. */
  ghost predicate SendsAtMostOne(s: HubState, s': HubState) {
    && s.outbox <= s'.outbox && |s'.outbox| <= |s.outbox| + 1
    && s.tasks.Keys <= s'.tasks.Keys
    && (s'.outbox != s.outbox ==>
          var m := s'.outbox[|s.outbox|].message;
          && m.taskId in s.tasks && m.taskId in s'.tasks
          && (m.ApprovalDecision? ==>
                && s.tasks[m.taskId].approval == Some(ApprovalStatus.Pending)
                && s'.tasks[m.taskId].approval == Some(if m.approved then Approved else Rejected)))
  }

  lemma OutboxGrows(cfg: Hub.Config, s: HubState, step: Step)
    ensures SendsAtMostOne(s, Apply(cfg, s, step))
  {
  }

  ghost predicate MatchesRecord(s: HubState, m: Message) {
    m.ApprovalDecision? ==>
      m.taskId in s.tasks && s.tasks[m.taskId].approval == Some(if m.approved then Approved else Rejected)
  }

  lemma RecordKept(s: HubState, s': HubState, m: Message)
    requires StepEvolves(s, s') && MatchesRecord(s, m)
    ensures MatchesRecord(s', m)
  {
    if m.ApprovalDecision? { assert Decided(s.tasks[m.taskId]); }
  }

  lemma DecisionsKept(s: HubState, s': HubState)
    requires StepEvolves(s, s') && SendsAtMostOne(s, s') && DecisionsOnWire(s)
    ensures DecisionsOnWire(s')
  {
    forall k | 0 <= k < |s'.outbox| ensures MatchesRecord(s', s'.outbox[k].message) {
      if k < |s.outbox| {
        assert s'.outbox[k] == s.outbox[k];
        RecordKept(s, s', s.outbox[k].message);
      }
    }
    forall k, l | 0 <= k < l < |s'.outbox| && s'.outbox[k].message.ApprovalDecision? && s'.outbox[l].message.ApprovalDecision?
      ensures s'.outbox[k].message.taskId != s'.outbox[l].message.taskId
    {
      assert s'.outbox[k] == s.outbox[k] && MatchesRecord(s, s.outbox[k].message);
      if l < |s.outbox| { assert s'.outbox[l] == s.outbox[l]; }
    }
  }

  // ----- invariant of the platform -----

  /** Each release consumed its own approving decision packet. */
  ghost predicate ReleasesInv(w: World) {
    && (forall k :: k in w.consumed ==> k < |w.hub.outbox|)
    && (forall i :: 0 <= i < |w.releases| ==>
          && w.releases[i].packet in w.consumed
          && w.releases[i].packet < |w.hub.outbox|
          && w.hub.outbox[w.releases[i].packet].message == ApprovalDecision(w.releases[i].taskId, true))
    && (forall i, j :: 0 <= i < j < |w.releases| ==> w.releases[i].packet != w.releases[j].packet)
  }

  ghost predicate KnownEvent(tasks: map<TaskId, Task>, e: Event) {
    e.Heartbeat? || (e.taskId in tasks && (e.StatusUpdate? ==> e.status.Running?))
  }

  ghost predicate DaemonKnown(tasks: map<TaskId, Task>, d: DaemonState) {
    && (forall i :: 0 <= i < |d.pool| ==> d.pool[i].taskId in tasks)
    && (forall e :: e in d.link.emitted ==> KnownEvent(tasks, e))
  }

  /** Nobody ever talks about a task the Hub does not have. */
  ghost predicate KnownInv(w: World) {
    && (forall k :: 0 <= k < |w.hub.outbox| ==> w.hub.outbox[k].message.taskId in w.hub.tasks)
    && (forall s :: s in w.daemons ==> DInv(w.daemons[s]) && DaemonKnown(w.hub.tasks, w.daemons[s]))
  }

  ghost predicate WInv(w: World) {
    Inv(w.hub) && DecisionsOnWire(w.hub) && ReleasesInv(w) && KnownInv(w)
  }

  lemma PerformKnown(h: Heuristics, r: RunnerState, op: Op, tasks: map<TaskId, Task>)
    requires r.taskId in tasks
    ensures forall e :: e in Perform(h, r, op).events ==> KnownEvent(tasks, e)
  {
  }

  lemma RunOpKnown(h: Heuristics, d: DaemonState, i: nat, op: Op, tasks: map<TaskId, Task>)
    requires DaemonKnown(tasks, d) && i < |d.pool|
    ensures DaemonKnown(tasks, RunOp(h, d, i, op))
  {
    PerformKnown(h, d.pool[i], op, tasks);
    var d' := RunOp(h, d, i, op);
    var es := Perform(h, d.pool[i], op).events;
    assert d'.link.emitted == d.link.emitted + es;
    forall j | 0 <= j < |d'.pool| ensures d'.pool[j].taskId in tasks { assert d'.pool[j].taskId == d.pool[j].taskId; }
  }

  lemma DApplyKnown(h: Heuristics, d: DaemonState, step: DStep, tasks: map<TaskId, Task>)
    requires DInv(d) && DaemonKnown(tasks, d) && (step.TaskSubmit? ==> step.taskId in tasks)
    ensures DInv(DApply(h, d, step)) && DaemonKnown(tasks, DApply(h, d, step))
  {
    DStepKeeps(h, d, step);
    match step {
      case TaskSubmit(id, outcome) =>
        if id !in d.runners {
          RunOpKnown(h, d.(pool := d.pool + [Fresh(id)], runners := d.runners[id := |d.pool|]), |d.pool|, Start(outcome), tasks);
        }
      case TaskCancel(id) => if id in d.runners { RunOpKnown(h, d, d.runners[id], Kill, tasks); }
      case DecisionArrives(id, a, o) => if id in d.runners { RunOpKnown(h, d, d.runners[id], Decision(a, o), tasks); }
      case Child(i, op) => if i < |d.pool| { RunOpKnown(h, d, i, op, tasks); }
      case _ =>
    }
  }

  lemma HubKeepsReleases(w: World, w': World)
    requires ReleasesInv(w) && w'.consumed == w.consumed && w'.releases == w.releases && w.hub.outbox <= w'.hub.outbox
    ensures ReleasesInv(w')
  {
    forall i | 0 <= i < |w.releases| ensures w'.hub.outbox[w.releases[i].packet].message == ApprovalDecision(w.releases[i].taskId, true) {
      assert w'.hub.outbox[w.releases[i].packet] == w.hub.outbox[w.releases[i].packet];
    }
  }

  lemma HubKeepsKnown(w: World, w': World)
    requires KnownInv(w) && w'.daemons == w.daemons && SendsAtMostOne(w.hub, w'.hub)
    ensures KnownInv(w')
  {
    forall k | 0 <= k < |w'.hub.outbox| ensures w'.hub.outbox[k].message.taskId in w'.hub.tasks {
      if k < |w.hub.outbox| { assert w'.hub.outbox[k] == w.hub.outbox[k]; }
    }
  }

  /** A Hub step keeps the invariant, with everything else in place. */
  lemma {:induction false} HubStepKeepsWorld(c: Settings, w: World, step: Step, w': World)
    requires ConfigOk(c.hub) && WInv(w) && StepOk(c.hub, w.hub, step)
    requires w' == w.(hub := Apply(c.hub, w.hub, step), handled := w'.handled)
    ensures WInv(w') && StepEvolves(w.hub, w'.hub)
  {
    StepKeeps(c.hub, w.hub, step);
    OutboxGrows(c.hub, w.hub, step);
    DecisionsKept(w.hub, w'.hub);
    HubKeepsReleases(w, w');
    HubKeepsKnown(w, w');
  }

  lemma ReceiveIsOk(c: Settings, w: World, s: ServerId)
    requires WInv(w) && s in w.daemons && HandledOf(w, s) < |w.daemons[s].link.sent|
    ensures var e := w.daemons[s].link.sent[HandledOf(w, s)];
            KnownEvent(w.hub.tasks, e) && (HandlerFor(s, e).Some? ==> StepOk(c.hub, w.hub, HandlerFor(s, e).value))
  {
    var l := w.daemons[s].link;
    assert l.emitted[HandledOf(w, s)] == l.sent[HandledOf(w, s)];
    assert l.sent[HandledOf(w, s)] in l.emitted;
  }

  ghost predicate Deliverable(w: World, k: nat) {
    k < |w.hub.outbox| && k !in w.consumed && w.hub.outbox[k].server in w.daemons
  }

  lemma DeliverKeepsReleases(c: Settings, w: World, k: nat, outcome: SpawnOutcome, stdinOpen: bool)
    requires ReleasesInv(w) && Deliverable(w, k)
    ensures ReleasesInv(DoDeliver(c, w, k, outcome, stdinOpen))
  {
    var m := w.hub.outbox[k].message;
    var d := w.daemons[w.hub.outbox[k].server];
    assert Releases(d, m, stdinOpen) ==> m == ApprovalDecision(m.taskId, true);
  }

  lemma DaemonStepKeepsKnown(c: Settings, w: World, s: ServerId, dstep: DStep, w': World)
    requires KnownInv(w) && s in w.daemons && (dstep.TaskSubmit? ==> dstep.taskId in w.hub.tasks)
    requires w'.hub == w.hub && w'.daemons == w.daemons[s := DApply(c.text, w.daemons[s], dstep)]
    ensures KnownInv(w')
  {
    DApplyKnown(c.text, w.daemons[s], dstep, w.hub.tasks);
  }

  lemma {:induction false} ReceiveKeeps(c: Settings, w: World, s: ServerId)
    requires ConfigOk(c.hub) && WInv(w)
    ensures WInv(DoReceive(c, w, s))
    ensures DoReceive(c, w, s).hub == w.hub || StepEvolves(w.hub, DoReceive(c, w, s).hub)
  {
    if s in w.daemons && HandledOf(w, s) < |w.daemons[s].link.sent| {
      ReceiveIsOk(c, w, s);
      var h := HandlerFor(s, w.daemons[s].link.sent[HandledOf(w, s)]);
      if h.Some? { HubStepKeepsWorld(c, w, h.value, DoReceive(c, w, s)); }
    }
  }

  lemma {:induction false} DeliverKeeps(c: Settings, w: World, k: nat, outcome: SpawnOutcome, stdinOpen: bool)
    requires WInv(w)
    ensures WInv(DoDeliver(c, w, k, outcome, stdinOpen))
  {
    if Deliverable(w, k) {
      DeliverKeepsReleases(c, w, k, outcome, stdinOpen);
      DaemonStepKeepsKnown(c, w, w.hub.outbox[k].server, Arrival(w.hub.outbox[k].message, outcome, stdinOpen),
                           DoDeliver(c, w, k, outcome, stdinOpen));
    }
  }

  lemma {:induction false} WStepKeeps(c: Settings, w: World, step: WStep)
    requires ConfigOk(c.hub) && WInv(w) && WStepOk(c, w, step)
    ensures WInv(WApply(c, w, step))
    ensures WApply(c, w, step).hub == w.hub || StepEvolves(w.hub, WApply(c, w, step).hub)
  {
    match step {
      case HubAct(st) => HubStepKeepsWorld(c, w, st, WApply(c, w, step));
      case HubReceive(s) => ReceiveKeeps(c, w, s);
      case Deliver(k, outcome, stdinOpen) => DeliverKeeps(c, w, k, outcome, stdinOpen);
      case DaemonAct(s, dstep) => if s in w.daemons { DaemonStepKeepsKnown(c, w, s, dstep, WApply(c, w, step)); }
      case DaemonBoots(_) =>
    }
  }

  lemma {:induction false} WRunKeeps(c: Settings, w: World, steps: seq<WStep>)
    requires ConfigOk(c.hub) && WInv(w) && WRunOk(c, w, steps)
    ensures WInv(WRun(c, w, steps))
  {
    if |steps| > 0 {
      WRunKeeps(c, w, steps[..|steps| - 1]);
      WStepKeeps(c, WRun(c, w, steps[..|steps| - 1]), steps[|steps| - 1]);
    }
  }

  // ----- the approval gate -----

  /** In every run, a hold is ended, and so the resume input written, for a task
      only if the task's approval record is APPROVED, and never twice for the
      same task. */
  lemma ApprovalGate(c: Settings, w0: World, steps: seq<WStep>, i: nat)
    requires ConfigOk(c.hub) && WInitial(w0) && WRunOk(c, w0, steps) && i < |WRun(c, w0, steps).releases|
    ensures var w := WRun(c, w0, steps);
            && w.releases[i].taskId in w.hub.tasks
            && w.hub.tasks[w.releases[i].taskId].approval == Some(Approved)
            && (forall j :: 0 <= j < |w.releases| && j != i ==> w.releases[j].taskId != w.releases[i].taskId)
  {
    WRunKeeps(c, w0, steps);
    var w := WRun(c, w0, steps);
    forall j | 0 <= j < |w.releases| && j != i ensures w.releases[j].taskId != w.releases[i].taskId {
      var a, b := w.releases[i].packet, w.releases[j].packet;
      assert a != b by { if i < j { } else { } }
      assert w.hub.outbox[a].message.ApprovalDecision? && w.hub.outbox[b].message.ApprovalDecision?;
    }
  }

  /** A decided approval never changes, wherever the run goes. */
  lemma {:induction false} DecisionsAreFinal(c: Settings, w: World, steps: seq<WStep>, id: TaskId)
    requires ConfigOk(c.hub) && WInv(w) && WRunOk(c, w, steps) && id in w.hub.tasks && Decided(w.hub.tasks[id])
    ensures id in WRun(c, w, steps).hub.tasks && WRun(c, w, steps).hub.tasks[id].approval == w.hub.tasks[id].approval
  {
    if |steps| > 0 {
      var before := steps[..|steps| - 1];
      DecisionsAreFinal(c, w, before, id);
      WRunKeeps(c, w, before);
      WStepKeeps(c, WRun(c, w, before), steps[|steps| - 1]);
    }
  }
}
