/** End-to-end results about Hub and daemons: what happens to a decision that
    was lost, and the order of a task's logs through disconnects. */
module PlatformRuns {
  import opened Common
  import opened Tasks
  import opened Hub
  import opened HubInvariants
  import opened HubRuns
  import opened Runner
  import opened Daemon
  import opened Platform

  // ----- a decision is offered once -----

  /** The approval is decided and no undelivered message can still grant it. */
  ghost predicate Spent(w: World, id: TaskId) {
    && id in w.hub.tasks && Decided(w.hub.tasks[id])
    && forall k :: 0 <= k < |w.hub.outbox| && k !in w.consumed ==> w.hub.outbox[k].message != ApprovalDecision(id, true)
  }

  /** Runner `i` of server `s` holds its child for the task's approval. */
  ghost predicate Holding(w: World, s: ServerId, i: nat, id: TaskId) {
    && s in w.daemons && i < |w.daemons[s].pool|
    && w.daemons[s].pool[i].taskId == id && w.daemons[s].pool[i].awaitingApproval
  }

  lemma HoldKept(h: Heuristics, d: DaemonState, step: DStep, i: nat)
    requires DInv(d) && DStepOk(step) && i < |d.pool| && d.pool[i].awaitingApproval
    requires !(step.DecisionArrives? && step.approved && step.taskId == d.pool[i].taskId)
    ensures var d' := DApply(h, d, step);
            i < |d'.pool| && d'.pool[i].taskId == d.pool[i].taskId && d'.pool[i].awaitingApproval
  {
  }

  lemma SpentHub(w: World, w': World, id: TaskId)
    requires Spent(w, id) && w'.consumed == w.consumed && StepEvolves(w.hub, w'.hub) && SendsAtMostOne(w.hub, w'.hub)
    ensures Spent(w', id)
  {
    forall k | 0 <= k < |w'.hub.outbox| && k !in w'.consumed ensures w'.hub.outbox[k].message != ApprovalDecision(id, true) {
      if k < |w.hub.outbox| { assert w'.hub.outbox[k] == w.hub.outbox[k]; }
    }
  }

  lemma {:induction false} SpentStep(c: Settings, w: World, step: WStep, id: TaskId)
    requires ConfigOk(c.hub) && WInv(w) && WStepOk(c, w, step) && Spent(w, id)
    ensures Spent(WApply(c, w, step), id)
  {
    var w' := WApply(c, w, step);
    match step {
      case HubAct(st) =>
        HubStepKeepsWorld(c, w, st, w');
        OutboxGrows(c.hub, w.hub, st);
        SpentHub(w, w', id);
      case HubReceive(s) =>
        if s in w.daemons && HandledOf(w, s) < |w.daemons[s].link.sent| {
          ReceiveIsOk(c, w, s);
          var h := HandlerFor(s, w.daemons[s].link.sent[HandledOf(w, s)]);
          if h.Some? {
            HubStepKeepsWorld(c, w, h.value, w');
            OutboxGrows(c.hub, w.hub, h.value);
            SpentHub(w, w', id);
          }
        }
      case _ =>
    }
  }

  lemma SpentReleases(c: Settings, w: World, step: WStep, id: TaskId)
    requires Spent(w, id)
    ensures w.releases <= WApply(c, w, step).releases
    ensures forall i :: |w.releases| <= i < |WApply(c, w, step).releases| ==> WApply(c, w, step).releases[i].taskId != id
  {
    if step.Deliver? && Deliverable(w, step.packet) {
      var m := w.hub.outbox[step.packet].message;
      var d := w.daemons[w.hub.outbox[step.packet].server];
      assert Releases(d, m, step.stdinOpen) ==> m == ApprovalDecision(m.taskId, true);
    }
  }

  /** Message `k` would grant the approval to the daemon of server `s`. */
  ghost predicate Grants(w: World, k: nat, s: ServerId, id: TaskId) {
    Deliverable(w, k) && w.hub.outbox[k] == Packet(s, ApprovalDecision(id, true))
  }

  lemma OtherDeliveryKeepsHold(c: Settings, w: World, k: nat, outcome: SpawnOutcome, stdinOpen: bool, s: ServerId, i: nat, id: TaskId)
    requires KnownInv(w) && Holding(w, s, i, id) && !Grants(w, k, s, id)
    ensures Holding(DoDeliver(c, w, k, outcome, stdinOpen), s, i, id)
  {
    if Deliverable(w, k) && w.hub.outbox[k].server == s {
      HoldKept(c.text, w.daemons[s], Arrival(w.hub.outbox[k].message, outcome, stdinOpen), i);
    }
  }

  /** Only the delivery of a granting message can end a hold. */
  lemma HoldingStep(c: Settings, w: World, step: WStep, s: ServerId, i: nat, id: TaskId)
    requires KnownInv(w) && WStepOk(c, w, step) && Holding(w, s, i, id)
    requires !(step.Deliver? && Grants(w, step.packet, s, id))
    ensures Holding(WApply(c, w, step), s, i, id)
  {
    match step {
      case Deliver(k, outcome, stdinOpen) => OtherDeliveryKeepsHold(c, w, k, outcome, stdinOpen, s, i, id);
      case DaemonAct(t, dstep) => if t == s { HoldKept(c.text, w.daemons[s], dstep, i); }
      case _ =>
    }
  }

  /** Decisions are not reconciled later: once no undelivered message can grant a
      decided approval, no run ever ends a hold for that task again, and a runner
      that holds (or holds again) for it holds forever. */
  lemma {:induction false} LostDecisionIsNeverReplayed(c: Settings, w: World, steps: seq<WStep>, id: TaskId, s: ServerId, i: nat)
    requires ConfigOk(c.hub) && WInv(w) && WRunOk(c, w, steps) && Spent(w, id)
    ensures var w' := WRun(c, w, steps);
            && Spent(w', id)
            && w.releases <= w'.releases
            && (forall j :: |w.releases| <= j < |w'.releases| ==> w'.releases[j].taskId != id)
            && (Holding(w, s, i, id) ==> Holding(w', s, i, id))
  {
    if |steps| > 0 {
      var before := steps[..|steps| - 1];
      LostDecisionIsNeverReplayed(c, w, before, id, s, i);
      WRunKeeps(c, w, before);
      var w1 := WRun(c, w, before);
      SpentStep(c, w1, steps[|steps| - 1], id);
      SpentReleases(c, w1, steps[|steps| - 1], id);
      if Holding(w1, s, i, id) { HoldingStep(c, w1, steps[|steps| - 1], s, i, id); }
    }
  }

  /** A decision by the owner on a pending approval is spent at once exactly when
      it does not approve or the daemon was not reachable. */
  lemma DecisionSpentIff(c: Settings, w: World, owner: UserId, id: TaskId, approve: bool, delivered: bool)
    requires WInv(w) && id in w.hub.tasks && w.hub.tasks[id].approval == Some(ApprovalStatus.Pending)
    requires OwnsServer(w.hub.servers, owner, w.hub.tasks[id].serverId)
    ensures Spent(WApply(c, w, HubAct(Decide(owner, id, approve, delivered))), id) <==> !(approve && delivered)
  {
    var w' := WApply(c, w, HubAct(Decide(owner, id, approve, delivered)));
    var n := |w.hub.outbox|;
    forall k | 0 <= k < n ensures w.hub.outbox[k].message != ApprovalDecision(id, true) {
      assert MatchesRecord(w.hub, w.hub.outbox[k].message);
    }
    if approve && delivered {
      assert w'.hub.outbox[n].message == ApprovalDecision(id, true) && n !in w'.consumed;
    }
  }

  /** What an approval does to a daemon with a runner that holds for the task. */
  lemma ApprovalArrives(h: Heuristics, d: DaemonState, stdinOpen: bool, i: nat, id: TaskId)
    requires MapInv(d) && i < |d.pool| && d.pool[i].taskId == id && d.pool[i].awaitingApproval
    ensures var d' := DApply(h, d, DecisionArrives(id, true, stdinOpen));
            && i < |d'.pool| && d'.pool[i].taskId == id
            && (d'.pool[i].awaitingApproval <==> d.pool[i].exitHandled)
            && (!d.pool[i].exitHandled ==> id in d.runners && d.runners[id] == i)
  {
  }

  /** When an approval is delivered to a daemon with a runner that holds for the
      task, the hold ends exactly if that runner's exit is unhandled, and the
      resume input is written exactly if the child's stdin is also open. */
  lemma DeliveredApprovalReleases(c: Settings, w: World, k: nat, outcome: SpawnOutcome, stdinOpen: bool, s: ServerId, i: nat, id: TaskId)
    requires WInv(w) && Grants(w, k, s, id) && Holding(w, s, i, id)
    ensures var w' := WApply(c, w, Deliver(k, outcome, stdinOpen));
            var exited := w.daemons[s].pool[i].exitHandled;
            && (Holding(w', s, i, id) <==> exited)
            && (!exited ==> w'.releases == w.releases + [Release(k, s, id, stdinOpen)])
  {
    assert DInv(w.daemons[s]);
    ApprovalArrives(c.text, w.daemons[s], stdinOpen, i, id);
  }

  /** There is no other way out of a hold: if a step ends one, it delivered an
      approval for that task, and the history records it. */
  lemma HoldsEndByReleaseOnly(c: Settings, w: World, step: WStep, s: ServerId, i: nat, id: TaskId)
    requires WInv(w) && WStepOk(c, w, step) && Holding(w, s, i, id)
    ensures !Holding(WApply(c, w, step), s, i, id) ==>
              && step.Deliver? && Grants(w, step.packet, s, id)
              && WApply(c, w, step).releases == w.releases + [Release(step.packet, s, id, step.stdinOpen)]
  {
    if step.Deliver? && Grants(w, step.packet, s, id) {
      DeliveredApprovalReleases(c, w, step.packet, step.outcome, step.stdinOpen, s, i, id);
    } else {
      HoldingStep(c, w, step, s, i, id);
    }
  }

  /** A task whose hold was ended has spent its approval: a second prompt of the
      same child is never answered. */
  lemma ReleasedIsSpent(c: Settings, w0: World, steps: seq<WStep>, i: nat)
    requires ConfigOk(c.hub) && WInitial(w0) && WRunOk(c, w0, steps) && i < |WRun(c, w0, steps).releases|
    ensures Spent(WRun(c, w0, steps), WRun(c, w0, steps).releases[i].taskId)
  {
    WRunKeeps(c, w0, steps);
    var w := WRun(c, w0, steps);
    var k := w.releases[i].packet;
    assert MatchesRecord(w.hub, w.hub.outbox[k].message);
    forall l | 0 <= l < |w.hub.outbox| && l !in w.consumed
      ensures w.hub.outbox[l].message != ApprovalDecision(w.releases[i].taskId, true)
    {
      assert k != l && (k < l || l < k);
    }
  }

  // ----- rejections -----

  /** The message makes a daemon kill its runner of the task. */
  predicate Kills(m: Message, id: TaskId) {
    m == ApprovalDecision(id, false) || m == CancelTask(id)
  }

  /** Runner `i` of server `s` runs for the task and has not been killed. */
  ghost predicate Spared(w: World, s: ServerId, i: nat, id: TaskId) {
    && s in w.daemons && i < |w.daemons[s].pool|
    && w.daemons[s].pool[i].taskId == id && !w.daemons[s].pool[i].killedByHub
  }

  /** The approval is decided and no undelivered message can still kill a runner. */
  ghost predicate Unstoppable(w: World, id: TaskId) {
    && id in w.hub.tasks && Decided(w.hub.tasks[id])
    && forall k :: 0 <= k < |w.hub.outbox| && k !in w.consumed ==> !Kills(w.hub.outbox[k].message, id)
  }

  lemma RejectionArrives(h: Heuristics, d: DaemonState, m: Message, outcome: SpawnOutcome, stdinOpen: bool, i: nat, id: TaskId)
    requires MapInv(d) && i < |d.pool| && d.pool[i].taskId == id && !d.pool[i].killedByHub && Kills(m, id)
    ensures var d' := DApply(h, d, Arrival(m, outcome, stdinOpen));
            i < |d'.pool| && d'.pool[i].taskId == id && (d'.pool[i].killedByHub <==> !d.pool[i].exitHandled)
  {
  }

  /** A delivered rejection or cancel kills a runner of the task if and only if
      the runner's exit is unhandled. */
  lemma DeliveredRejectionKills(c: Settings, w: World, k: nat, outcome: SpawnOutcome, stdinOpen: bool, s: ServerId, i: nat, id: TaskId)
    requires WInv(w) && Deliverable(w, k) && w.hub.outbox[k].server == s && Kills(w.hub.outbox[k].message, id)
    requires Spared(w, s, i, id)
    ensures Spared(WApply(c, w, Deliver(k, outcome, stdinOpen)), s, i, id) <==> w.daemons[s].pool[i].exitHandled
  {
    assert DInv(w.daemons[s]);
    RejectionArrives(c.text, w.daemons[s], w.hub.outbox[k].message, outcome, stdinOpen, i, id);
  }

  lemma SparedKept(h: Heuristics, d: DaemonState, step: DStep, i: nat)
    requires DInv(d) && DStepOk(step) && i < |d.pool| && !d.pool[i].killedByHub
    requires !(step.TaskCancel? && step.taskId == d.pool[i].taskId)
    requires !(step.DecisionArrives? && !step.approved && step.taskId == d.pool[i].taskId)
    ensures var d' := DApply(h, d, step);
            i < |d'.pool| && d'.pool[i].taskId == d.pool[i].taskId && !d'.pool[i].killedByHub
  {
  }

  lemma SparedDelivery(c: Settings, w: World, k: nat, outcome: SpawnOutcome, stdinOpen: bool, s: ServerId, i: nat, id: TaskId)
    requires KnownInv(w) && Unstoppable(w, id) && Spared(w, s, i, id)
    ensures Spared(DoDeliver(c, w, k, outcome, stdinOpen), s, i, id)
  {
    if Deliverable(w, k) && w.hub.outbox[k].server == s {
      SparedKept(c.text, w.daemons[s], Arrival(w.hub.outbox[k].message, outcome, stdinOpen), i);
    }
  }

  lemma SparedStep(c: Settings, w: World, step: WStep, s: ServerId, i: nat, id: TaskId)
    requires KnownInv(w) && WStepOk(c, w, step) && Unstoppable(w, id) && Spared(w, s, i, id)
    ensures Spared(WApply(c, w, step), s, i, id)
  {
    match step {
      case Deliver(k, outcome, stdinOpen) => SparedDelivery(c, w, k, outcome, stdinOpen, s, i, id);
      case DaemonAct(t, dstep) => if t == s { SparedKept(c.text, w.daemons[s], dstep, i); }
      case _ =>
    }
  }

  /** A step sends a killing message for a decided task only as a cancel of it. */
  lemma SendsNoKill(cfg: Hub.Config, s: HubState, step: Step, id: TaskId)
    requires id in s.tasks && Decided(s.tasks[id]) && !(step.Cancel? && step.taskId == id)
    ensures var s' := Apply(cfg, s, step);
            s'.outbox != s.outbox ==> |s'.outbox| > |s.outbox| && !Kills(s'.outbox[|s.outbox|].message, id)
  {
    OutboxGrows(cfg, s, step);
  }

  lemma UnstoppableHub(w: World, w': World, id: TaskId)
    requires Unstoppable(w, id) && w'.consumed == w.consumed && StepEvolves(w.hub, w'.hub) && SendsAtMostOne(w.hub, w'.hub)
    requires w'.hub.outbox != w.hub.outbox ==> |w'.hub.outbox| > |w.hub.outbox| && !Kills(w'.hub.outbox[|w.hub.outbox|].message, id)
    ensures Unstoppable(w', id)
  {
    forall k | 0 <= k < |w'.hub.outbox| && k !in w'.consumed ensures !Kills(w'.hub.outbox[k].message, id) {
      if k < |w.hub.outbox| { assert w'.hub.outbox[k] == w.hub.outbox[k]; }
    }
  }

  /** The step is the user's cancel of the task. */
  predicate Cancels(step: WStep, id: TaskId) {
    step.HubAct? && step.step.Cancel? && step.step.taskId == id
  }

  lemma UnstoppableHubStep(c: Settings, w: World, st: Step, w': World, id: TaskId)
    requires ConfigOk(c.hub) && WInv(w) && StepOk(c.hub, w.hub, st) && Unstoppable(w, id) && !(st.Cancel? && st.taskId == id)
    requires w' == w.(hub := Apply(c.hub, w.hub, st), handled := w'.handled)
    ensures Unstoppable(w', id)
  {
    HubStepKeepsWorld(c, w, st, w');
    OutboxGrows(c.hub, w.hub, st);
    SendsNoKill(c.hub, w.hub, st, id);
    UnstoppableHub(w, w', id);
  }

  lemma UnstoppableStep(c: Settings, w: World, step: WStep, id: TaskId)
    requires ConfigOk(c.hub) && WInv(w) && WStepOk(c, w, step) && Unstoppable(w, id) && !Cancels(step, id)
    ensures Unstoppable(WApply(c, w, step), id)
  {
    match step {
      case HubAct(st) => UnstoppableHubStep(c, w, st, WApply(c, w, step), id);
      case HubReceive(s) =>
        if s in w.daemons && HandledOf(w, s) < |w.daemons[s].link.sent| {
          ReceiveIsOk(c, w, s);
          var h := HandlerFor(s, w.daemons[s].link.sent[HandledOf(w, s)]);
          if h.Some? { UnstoppableHubStep(c, w, h.value, WApply(c, w, step), id); }
        }
      case _ =>
    }
  }

  /** A lost rejection is not reconciled either: unless the user also cancels, no
      run ever kills a runner of the task, although its record says REJECTED. */
  lemma {:induction false} LostRejectionIsNeverReplayed(c: Settings, w: World, steps: seq<WStep>, id: TaskId, s: ServerId, i: nat)
    requires ConfigOk(c.hub) && WInv(w) && WRunOk(c, w, steps) && Unstoppable(w, id)
    requires forall k :: 0 <= k < |steps| ==> !Cancels(steps[k], id)
    ensures Unstoppable(WRun(c, w, steps), id)
    ensures Spared(w, s, i, id) ==> Spared(WRun(c, w, steps), s, i, id)
  {
    if |steps| > 0 {
      var before, last := steps[..|steps| - 1], steps[|steps| - 1];
      LostRejectionIsNeverReplayed(c, w, before, id, s, i);
      WRunKeeps(c, w, before);
      var w1 := WRun(c, w, before);
      UnstoppableStep(c, w1, last, id);
      if Spared(w1, s, i, id) { SparedStep(c, w1, last, s, i, id); }
    }
  }

  /** A decision by the owner on a pending approval, with no cancel on its way,
      leaves the task's runners unstoppable exactly when it does not reject or
      the daemon was not reachable. */
  lemma RejectionSpentIff(c: Settings, w: World, owner: UserId, id: TaskId, approve: bool, delivered: bool)
    requires WInv(w) && id in w.hub.tasks && w.hub.tasks[id].approval == Some(ApprovalStatus.Pending)
    requires OwnsServer(w.hub.servers, owner, w.hub.tasks[id].serverId)
    requires forall k :: 0 <= k < |w.hub.outbox| && k !in w.consumed ==> w.hub.outbox[k].message != CancelTask(id)
    ensures Unstoppable(WApply(c, w, HubAct(Decide(owner, id, approve, delivered))), id) <==> !(!approve && delivered)
  {
    var w' := WApply(c, w, HubAct(Decide(owner, id, approve, delivered)));
    var n := |w.hub.outbox|;
    forall k | 0 <= k < n ensures w.hub.outbox[k].message != ApprovalDecision(id, false) {
      assert MatchesRecord(w.hub, w.hub.outbox[k].message);
    }
    if !approve && delivered {
      assert Kills(w'.hub.outbox[n].message, id) && n !in w'.consumed;
    }
  }

  // ----- who is excluded for whose failure -----

  /** The next event of server `s` is a retryable capacity failure of the task. */
  ghost predicate ReportsCapacity(w: World, s: ServerId, id: TaskId) {
    && s in w.daemons && HandledOf(w, s) < |w.daemons[s].link.sent|
    && w.daemons[s].link.sent[HandledOf(w, s)].TaskResult?
    && w.daemons[s].link.sent[HandledOf(w, s)].taskId == id
    && IsRetryableCapacityFailure(w.daemons[s].link.sent[HandledOf(w, s)].payload)
  }

  /** Handling a capacity failure of server `s` excludes `s`, and only `s`, for the
      task if and only if the task's live attempt runs there; a live attempt on
      another server is closed and its server excluded instead. */
  lemma SenderExcludedIff(c: Settings, w: World, s: ServerId, id: TaskId)
    requires WInv(w) && ReportsCapacity(w, s, id) && id in w.hub.tasks && HasLive(w.hub.tasks[id].attempts)
    ensures var t, u := w.hub.tasks[id], WApply(c, w, HubReceive(s)).hub.tasks[id];
            && ExcludedServers(u.attempts) == ExcludedServers(t.attempts) + {t.serverId}
            && t.serverId !in ExcludedServers(t.attempts)
            && (ExcludedServers(u.attempts) == ExcludedServers(t.attempts) + {s} <==>
                  s == t.serverId)
  {
    var t := w.hub.tasks[id];
    CapacityReceived(c, w, s, id);
    assert TaskInv(w.hub.servers, w.hub.now, t);
    OneMore(ExcludedServers(t.attempts), t.serverId, s);
  }

  /** Handling the next event of server `s` excludes, for the task, the other
      server on which its live attempt runs. */
  ghost predicate BlamesOther(c: Settings, w: World, s: ServerId, id: TaskId) {
    var w' := WApply(c, w, HubReceive(s));
    && id in w.hub.tasks && id in w'.hub.tasks && w.hub.tasks[id].serverId != s
    && w.hub.tasks[id].serverId !in ExcludedServers(w.hub.tasks[id].attempts)
    && w.hub.tasks[id].serverId in ExcludedServers(w'.hub.tasks[id].attempts)
  }

  lemma OtherIsBlamed(c: Settings, w: World, s: ServerId, id: TaskId)
    requires WInv(w) && ReportsCapacity(w, s, id) && id in w.hub.tasks && HasLive(w.hub.tasks[id].attempts)
    requires w.hub.tasks[id].serverId != s
    ensures BlamesOther(c, w, s, id)
  {
    SenderExcludedIff(c, w, s, id);
  }

  lemma CapacityReceived(c: Settings, w: World, s: ServerId, id: TaskId)
    requires WInv(w) && ReportsCapacity(w, s, id) && id in w.hub.tasks && HasLive(w.hub.tasks[id].attempts)
    ensures var t, u := w.hub.tasks[id], WApply(c, w, HubReceive(s)).hub.tasks[id];
            ExcludedServers(u.attempts) == ExcludedServers(t.attempts) + {t.serverId}
  {
    CapacityExcludes(c.hub, w.hub, id, w.daemons[s].link.sent[HandledOf(w, s)].payload);
  }

  lemma OneMore(a: set<ServerId>, x: ServerId, y: ServerId)
    requires x !in a
    ensures a + {x} == a + {y} <==> x == y
  {
    assert x in a + {x};
  }

  // ----- log order -----

  /** What server `s` contributed to a log, chunk by chunk. */
  function ChunksFrom(logs: seq<LogSegment>, s: ServerId): seq<string> {
    if |logs| == 0 then []
    else
      var before := ChunksFrom(logs[..|logs| - 1], s);
      var g := logs[|logs| - 1];
      if g.Chunk? && g.server == s then before + [g.text] else before
  }

  lemma ChunksSnoc(logs: seq<LogSegment>, g: LogSegment, s: ServerId)
    ensures ChunksFrom(logs + [g], s) == if g.Chunk? && g.server == s then ChunksFrom(logs, s) + [g.text] else ChunksFrom(logs, s)
  {
    assert (logs + [g])[..|logs|] == logs;
  }

  /** The log after a step that handles no chunk for the task: at most one line of the Hub's own. */
  ghost predicate AddsNoChunk(before: seq<LogSegment>, after: seq<LogSegment>) {
    after == before || exists g: LogSegment :: !g.Chunk? && after == before + [g]
  }

  function LogsOf(hub: HubState, id: TaskId): seq<LogSegment> {
    if id in hub.tasks then hub.tasks[id].logs else []
  }

  lemma DispatchLogs(cfg: Hub.Config, hub: HubState, j: nat, replies: seq<Reply>, id: TaskId)
    ensures AddsNoChunk(LogsOf(hub, id), LogsOf(DoRunJob(cfg, hub, j, replies), id))
  {
    if j < |hub.jobs| && id == hub.jobs[j].taskId && id in hub.tasks {
      var cs := CandidatesFor(cfg, hub, hub.tasks[id]);
      if cs.Some? {
        assert !DispatchExhausted(RefusalMessages(replies, FirstAccepting(replies, 0, |cs.value|))).Chunk?;
      }
    }
  }

  lemma ScanLogs(cfg: Hub.Config, hub: HubState, rows: seq<TaskId>, id: TaskId)
    ensures AddsNoChunk(LogsOf(hub, id), LogsOf(DoScan(cfg, hub, rows), id))
  {
  }

  lemma ResultLogs(cfg: Hub.Config, hub: HubState, other: TaskId, p: ResultPayload, id: TaskId)
    ensures AddsNoChunk(LogsOf(hub, id), LogsOf(DoResult(cfg, hub, other, p), id))
  {
  }

  lemma LogsGrow(cfg: Hub.Config, hub: HubState, step: Step, id: TaskId)
    requires StepOk(cfg, hub, step) && !(step.LogEvent? && step.taskId == id)
    ensures AddsNoChunk(LogsOf(hub, id), LogsOf(Apply(cfg, hub, step), id))
  {
    match step {
      case RunJob(j, replies) => DispatchLogs(cfg, hub, j, replies, id);
      case Scan(rows) => ScanLogs(cfg, hub, rows, id);
      case ResultEvent(other, p) => ResultLogs(cfg, hub, other, p, id);
      case _ =>
    }
  }

  /** A handler adds a chunk only for a log event. */
  lemma {:induction false} ChunksAfter(cfg: Hub.Config, hub: HubState, step: Step, id: TaskId, s: ServerId)
    requires StepOk(cfg, hub, step)
    ensures ChunksFrom(LogsOf(Apply(cfg, hub, step), id), s)
         == ChunksFrom(LogsOf(hub, id), s)
            + (if step.LogEvent? && step.taskId == id && step.from == s && id in hub.tasks then [step.chunk] else [])
  {
    if step.LogEvent? && step.taskId == id {
      ChunksSnoc(LogsOf(hub, id), Chunk(step.from, step.chunk), s);
    } else {
      LogsGrow(cfg, hub, step, id);
      var before, after := LogsOf(hub, id), LogsOf(Apply(cfg, hub, step), id);
      if after != before {
        var g: LogSegment :| !g.Chunk? && after == before + [g];
        ChunksSnoc(before, g, s);
      }
    }
  }

  /** The Hub's log holds exactly what it has handled from each server. */
  ghost predicate LogInv(w: World) {
    && (forall s :: s in w.daemons ==> HandledOf(w, s) <= |w.daemons[s].link.sent|)
    && (forall s :: s !in w.daemons ==> HandledOf(w, s) == 0)
    && (forall s, id :: id in w.hub.tasks ==> ChunksFrom(w.hub.tasks[id].logs, s) == HandledChunks(w, s, id))
  }

  function HandledChunks(w: World, s: ServerId, id: TaskId): seq<string> {
    if s in w.daemons && HandledOf(w, s) <= |w.daemons[s].link.sent|
    then LogChunks(w.daemons[s].link.sent[..HandledOf(w, s)], id) else []
  }

  lemma {:induction false} UnknownHasNoLogs(es: seq<Event>, id: TaskId)
    requires forall e :: e in es ==> e.Heartbeat? || e.taskId != id
    ensures LogChunks(es, id) == []
  {
    if |es| > 0 { UnknownHasNoLogs(es[..|es| - 1], id); }
  }

  /** A Hub step that handles no event. */
  lemma LogInvHubAct(c: Settings, w: World, step: Step)
    requires WInv(w) && LogInv(w) && StepOk(c.hub, w.hub, step) && !FromDaemon(step)
    ensures LogInv(w.(hub := Apply(c.hub, w.hub, step)))
  {
    var w' := w.(hub := Apply(c.hub, w.hub, step));
    forall s, id | id in w'.hub.tasks ensures ChunksFrom(w'.hub.tasks[id].logs, s) == HandledChunks(w', s, id) {
      ChunksAfter(c.hub, w.hub, step, id, s);
      if id !in w.hub.tasks && s in w.daemons {
        var l := w.daemons[s].link;
        forall e | e in l.sent[..HandledOf(w, s)] ensures e.Heartbeat? || e.taskId != id { assert e in l.emitted; }
        UnknownHasNoLogs(l.sent[..HandledOf(w, s)], id);
      }
    }
  }

  lemma LogChunksSnoc(es: seq<Event>, n: nat, id: TaskId)
    requires n < |es|
    ensures LogChunks(es[..n + 1], id) == LogChunks(es[..n], id) + (if es[n].Log? && es[n].taskId == id then [es[n].chunk] else [])
  {
    assert es[..n + 1][..n] == es[..n];
  }

  /** From `w` to `w'` the log of `id` gained, of server `t`'s chunks, exactly the
      one in the next event of server `s`, if that is one. */
  ghost predicate Gains(w: World, w': World, s: ServerId, t: ServerId, id: TaskId)
    requires s in w.daemons && HandledOf(w, s) < |w.daemons[s].link.sent|
  {
    var e := w.daemons[s].link.sent[HandledOf(w, s)];
    && id in w.hub.tasks && id in w'.hub.tasks
    && ChunksFrom(w'.hub.tasks[id].logs, t)
       == ChunksFrom(w.hub.tasks[id].logs, t) + (if t == s && e.Log? && e.taskId == id then [e.chunk] else [])
  }

  /** The Hub handles the next event of server `s`: one log, seen from server `t`. */
  lemma {:induction false} ChunksReceived(c: Settings, w: World, s: ServerId, t: ServerId, id: TaskId)
    requires WInv(w) && LogInv(w) && s in w.daemons && HandledOf(w, s) < |w.daemons[s].link.sent|
    requires id in DoReceive(c, w, s).hub.tasks
    ensures Gains(w, DoReceive(c, w, s), s, t, id)
  {
    ReceiveIsOk(c, w, s);
    var h := HandlerFor(s, w.daemons[s].link.sent[HandledOf(w, s)]);
    if h.Some? {
      DaemonEventsAddNoTask(c.hub, w.hub, h.value);
      ChunksAfter(c.hub, w.hub, h.value, id, t);
    }
  }

  lemma DaemonEventsAddNoTask(cfg: Hub.Config, hub: HubState, step: Step)
    requires FromDaemon(step)
    ensures Apply(cfg, hub, step).tasks.Keys == hub.tasks.Keys
  {
  }

  /** The bookkeeping of one handled event, with its effect on the logs given. */
  lemma LogInvAdvance(w: World, w': World, s: ServerId)
    requires LogInv(w) && s in w.daemons && HandledOf(w, s) < |w.daemons[s].link.sent|
    requires w'.daemons == w.daemons && w'.handled == w.handled[s := HandledOf(w, s) + 1]
    requires forall t, id :: id in w'.hub.tasks ==> Gains(w, w', s, t, id)
    ensures LogInv(w')
  {
    forall t, id | id in w'.hub.tasks ensures ChunksFrom(w'.hub.tasks[id].logs, t) == HandledChunks(w', t, id) {
      assert Gains(w, w', s, t, id);
      LogChunksSnoc(w.daemons[s].link.sent, HandledOf(w, s), id);
      assert ChunksFrom(w.hub.tasks[id].logs, t) == HandledChunks(w, t, id);
    }
  }

  lemma {:induction false} LogInvReceive(c: Settings, w: World, s: ServerId)
    requires WInv(w) && LogInv(w) && s in w.daemons && HandledOf(w, s) < |w.daemons[s].link.sent|
    ensures LogInv(DoReceive(c, w, s))
  {
    forall t, id | id in DoReceive(c, w, s).hub.tasks ensures Gains(w, DoReceive(c, w, s), s, t, id) {
      ChunksReceived(c, w, s, t, id);
    }
    LogInvAdvance(w, DoReceive(c, w, s), s);
  }

  lemma SentGrows(h: Heuristics, d: DaemonState, step: DStep)
    ensures d.link.sent <= DApply(h, d, step).link.sent
  {
  }

  /** A step of daemon `s`: its sent events only grow. */
  lemma LogInvDaemon(w: World, w': World, s: ServerId)
    requires LogInv(w) && w'.hub == w.hub && w'.handled == w.handled && s in w'.daemons
    requires w'.daemons == w.daemons[s := w'.daemons[s]]
    requires if s in w.daemons then w.daemons[s].link.sent <= w'.daemons[s].link.sent else true
    ensures LogInv(w')
  {
    forall t, id | id in w.hub.tasks ensures HandledChunks(w', t, id) == HandledChunks(w, t, id) {
      if t == s && s in w.daemons {
        assert w'.daemons[s].link.sent[..HandledOf(w, s)] == w.daemons[s].link.sent[..HandledOf(w, s)];
      }
    }
  }

  lemma {:induction false} LogInvStep(c: Settings, w: World, step: WStep)
    requires WInv(w) && LogInv(w) && WStepOk(c, w, step)
    ensures LogInv(WApply(c, w, step))
  {
    match step {
      case HubAct(st) => LogInvHubAct(c, w, st);
      case HubReceive(s) => if s in w.daemons && HandledOf(w, s) < |w.daemons[s].link.sent| { LogInvReceive(c, w, s); }
      case Deliver(k, outcome, stdinOpen) =>
        if k < |w.hub.outbox| && k !in w.consumed && w.hub.outbox[k].server in w.daemons {
          var s := w.hub.outbox[k].server;
          SentGrows(c.text, w.daemons[s], Arrival(w.hub.outbox[k].message, outcome, stdinOpen));
          LogInvDaemon(w, WApply(c, w, step), s);
        }
      case DaemonAct(s, dstep) =>
        if s in w.daemons {
          SentGrows(c.text, w.daemons[s], dstep);
          LogInvDaemon(w, WApply(c, w, step), s);
        }
      case DaemonBoots(s) => if s !in w.daemons { LogInvDaemon(w, WApply(c, w, step), s); }
    }
  }

  lemma {:induction false} LogInvRun(c: Settings, w0: World, steps: seq<WStep>)
    requires ConfigOk(c.hub) && WInitial(w0) && WRunOk(c, w0, steps)
    ensures LogInv(WRun(c, w0, steps)) && WInv(WRun(c, w0, steps))
  {
    if |steps| > 0 {
      LogInvRun(c, w0, steps[..|steps| - 1]);
      LogInvStep(c, WRun(c, w0, steps[..|steps| - 1]), steps[|steps| - 1]);
    }
    WRunKeeps(c, w0, steps);
  }

  lemma {:induction false} LogChunksPrefix(es: seq<Event>, n: nat, id: TaskId)
    requires n <= |es|
    ensures LogChunks(es[..n], id) <= LogChunks(es, id)
  {
    assert es == es[..n] + es[n..];
    Appending(es[..n], es[n..], id);
  }

  /** End to end, through any disconnects and reconnects and whatever else runs
      in between: what server `s` has contributed to the task's log is always a
      prefix, chunk by chunk, of what its children printed for that task, and is
      all of it once the daemon's buffer is empty and the Hub has caught up. */
  lemma {:induction false} LogOrder(c: Settings, w0: World, steps: seq<WStep>, s: ServerId, id: TaskId)
    requires ConfigOk(c.hub) && WInitial(w0) && WRunOk(c, w0, steps)
    requires var w := WRun(c, w0, steps); s in w.daemons && id in w.hub.tasks
    ensures var w := WRun(c, w0, steps);
            var printed := OutputOf(w.daemons[s].output, id);
            && ChunksFrom(w.hub.tasks[id].logs, s) <= printed
            && (w.daemons[s].link.buffer == [] && HandledOf(w, s) == |w.daemons[s].link.sent| ==>
                  ChunksFrom(w.hub.tasks[id].logs, s) == printed)
  {
    LogInvRun(c, w0, steps);
    var w := WRun(c, w0, steps);
    var l := w.daemons[s].link;
    assert ChunksFrom(w.hub.tasks[id].logs, s) == HandledChunks(w, s, id);
    assert l.emitted[..HandledOf(w, s)] == l.sent[..HandledOf(w, s)];
    LogChunksPrefix(l.emitted, HandledOf(w, s), id);
    assert LogChunks(l.emitted, id) == OutputOf(w.daemons[s].output, id);
    assert l.emitted[..|l.emitted|] == l.emitted;
  }
}
