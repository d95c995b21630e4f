/** Where COMPLETED comes from: through the whole platform, a task is COMPLETED
    only if a child of it exited well. */
module PlatformExits {
  import opened Common
  import opened Tasks
  import opened Hub
  import opened HubInvariants
  import opened Runner
  import opened Daemon
  import opened DaemonExits
  import opened Platform

  lemma {:induction false} ResultMember(es: seq<Event>, id: TaskId, p: ResultPayload, n: nat)
    requires n < |es| && es[n] == TaskResult(id, p)
    ensures p in ResultsOf(es, id)
  {
    if n < |es| - 1 { ResultMember(es[..|es| - 1], id, p, n); }
  }

  /** If the next event of a daemon is a result that says COMPLETED, a child of that
      task on that server closed well. */
  lemma ReceivedCompletion(w: World, s: ServerId)
    requires WInv(w) && s in w.daemons && HandledOf(w, s) < |w.daemons[s].link.sent|
    ensures var e := w.daemons[s].link.sent[HandledOf(w, s)];
            e.TaskResult? && e.payload.completed ==> SomeClosedWell(w.daemons[s], e.taskId)
  {
    var d := w.daemons[s];
    var e := d.link.sent[HandledOf(w, s)];
    if e.TaskResult? && e.payload.completed {
      assert d.link.emitted[HandledOf(w, s)] == e;
      ResultMember(d.link.emitted, e.taskId, e.payload, HandledOf(w, s));
      SaidCompletedIff(d, e.taskId);
    }
  }

  // ----- it stays that way -----

  lemma {:induction false} FirstExitPrefix(a: seq<ExitRecord>, b: seq<ExitRecord>, i: nat)
    requires a <= b && FirstExit(a, i).Some?
    ensures FirstExit(b, i) == FirstExit(a, i)
  {
    if |a| < |b| {
      assert b == b[..|b| - 1] + [b[|b| - 1]];
      FirstExitPrefix(a, b[..|b| - 1], i);
    } else {
      assert a == b;
    }
  }

  lemma HistoryGrows(h: Heuristics, d: DaemonState, step: DStep)
    ensures var d' := DApply(h, d, step);
            && d.exits <= d'.exits && |d.pool| <= |d'.pool|
            && forall i :: 0 <= i < |d.pool| ==> d'.pool[i].taskId == d.pool[i].taskId
  {
  }

  lemma ClosedWellKept(h: Heuristics, d: DaemonState, step: DStep, id: TaskId)
    requires SomeClosedWell(d, id)
    ensures SomeClosedWell(DApply(h, d, step), id)
  {
    var d' := DApply(h, d, step);
    HistoryGrows(h, d, step);
    var i :| 0 <= i < |d.pool| && d.pool[i].taskId == id && ClosedWell(d, i);
    FirstExitPrefix(d.exits, d'.exits, i);
    assert d'.pool[i].taskId == id && ClosedWell(d', i);
  }

  /** Some child of the task, on some server, closed well. */
  ghost predicate ChildDone(w: World, id: TaskId) {
    exists s :: s in w.daemons && SomeClosedWell(w.daemons[s], id)
  }

  ghost predicate CompletedInv(w: World) {
    forall id :: id in w.hub.tasks && w.hub.tasks[id].status.Completed? ==> ChildDone(w, id)
  }

  /** Which steps of the Hub make a task COMPLETED: a result or a status that says so. */
  lemma HubCompletes(cfg: Hub.Config, s: HubState, step: Step, id: TaskId)
    requires id in Apply(cfg, s, step).tasks && Apply(cfg, s, step).tasks[id].status.Completed?
    requires id !in s.tasks || !s.tasks[id].status.Completed?
    ensures || (step.ResultEvent? && step.taskId == id && step.payload.completed)
            || (step.StatusEvent? && step.taskId == id && step.status.Completed?)
  {
  }

  lemma DoneKept(c: Settings, w: World, s: ServerId, dstep: DStep, w': World, id: TaskId)
    requires s in w.daemons && w'.daemons == w.daemons[s := DApply(c.text, w.daemons[s], dstep)] && ChildDone(w, id)
    ensures ChildDone(w', id)
  {
    var t :| t in w.daemons && SomeClosedWell(w.daemons[t], id);
    if t == s { ClosedWellKept(c.text, w.daemons[s], dstep, id); }
    assert SomeClosedWell(w'.daemons[t], id);
  }

  lemma SameDaemonsDone(w: World, w': World, id: TaskId)
    requires ChildDone(w, id) && forall s :: s in w.daemons ==> s in w'.daemons && w'.daemons[s] == w.daemons[s]
    ensures ChildDone(w', id)
  {
    var t :| t in w.daemons && SomeClosedWell(w.daemons[t], id);
    assert SomeClosedWell(w'.daemons[t], id);
  }

  lemma ReceiveCompletes(c: Settings, w: World, s: ServerId)
    requires WInv(w) && CompletedInv(w)
    ensures CompletedInv(DoReceive(c, w, s))
  {
    var w' := DoReceive(c, w, s);
    if s in w.daemons && HandledOf(w, s) < |w.daemons[s].link.sent| {
      ReceiveIsOk(c, w, s);
      ReceivedCompletion(w, s);
      var h := HandlerFor(s, w.daemons[s].link.sent[HandledOf(w, s)]);
      forall id | id in w'.hub.tasks && w'.hub.tasks[id].status.Completed? ensures ChildDone(w', id) {
        if id in w.hub.tasks && w.hub.tasks[id].status.Completed? {
          SameDaemonsDone(w, w', id);
        } else {
          HubCompletes(c.hub, w.hub, h.value, id);
          assert SomeClosedWell(w'.daemons[s], id);
        }
      }
    }
  }

  lemma HubActCompletes(c: Settings, w: World, st: Step)
    requires CompletedInv(w) && !FromDaemon(st)
    ensures CompletedInv(w.(hub := Apply(c.hub, w.hub, st)))
  {
    var w' := w.(hub := Apply(c.hub, w.hub, st));
    forall id | id in w'.hub.tasks && w'.hub.tasks[id].status.Completed? ensures ChildDone(w', id) {
      if !(id in w.hub.tasks && w.hub.tasks[id].status.Completed?) { HubCompletes(c.hub, w.hub, st, id); }
      SameDaemonsDone(w, w', id);
    }
  }

  lemma DaemonStepCompletes(c: Settings, w: World, s: ServerId, dstep: DStep, w': World)
    requires CompletedInv(w) && s in w.daemons && w'.hub == w.hub
    requires w'.daemons == w.daemons[s := DApply(c.text, w.daemons[s], dstep)]
    ensures CompletedInv(w')
  {
    forall id | id in w'.hub.tasks && w'.hub.tasks[id].status.Completed? ensures ChildDone(w', id) {
      DoneKept(c, w, s, dstep, w', id);
    }
  }

  lemma DeliverCompletes(c: Settings, w: World, k: nat, outcome: SpawnOutcome, stdinOpen: bool)
    requires CompletedInv(w)
    ensures CompletedInv(DoDeliver(c, w, k, outcome, stdinOpen))
  {
    if Deliverable(w, k) {
      DaemonStepCompletes(c, w, w.hub.outbox[k].server, Arrival(w.hub.outbox[k].message, outcome, stdinOpen),
                          DoDeliver(c, w, k, outcome, stdinOpen));
    }
  }

  lemma BootCompletes(w: World, s: ServerId)
    requires CompletedInv(w) && s !in w.daemons
    ensures CompletedInv(w.(daemons := w.daemons[s := NEW_DAEMON]))
  {
    var w' := w.(daemons := w.daemons[s := NEW_DAEMON]);
    forall id | id in w'.hub.tasks && w'.hub.tasks[id].status.Completed? ensures ChildDone(w', id) {
      SameDaemonsDone(w, w', id);
    }
  }

  lemma StepCompletes(c: Settings, w: World, step: WStep)
    requires WInv(w) && WStepOk(c, w, step) && CompletedInv(w)
    ensures CompletedInv(WApply(c, w, step))
  {
    match step {
      case HubAct(st) => HubActCompletes(c, w, st);
      case HubReceive(s) => ReceiveCompletes(c, w, s);
      case Deliver(k, outcome, stdinOpen) => DeliverCompletes(c, w, k, outcome, stdinOpen);
      case DaemonAct(s, dstep) => if s in w.daemons { DaemonStepCompletes(c, w, s, dstep, WApply(c, w, step)); }
      case DaemonBoots(s) => if s !in w.daemons { BootCompletes(w, s); }
    }
  }

  /** In every run of Hub and daemons, a task is COMPLETED only if a child of it, on
      some server, closed with code 0 and no signal before anything else ended its
      runner and before the Hub killed it. */
  lemma {:induction false} CompletedMeansClosedWell(c: Settings, w0: World, steps: seq<WStep>)
    requires ConfigOk(c.hub) && WInitial(w0) && WRunOk(c, w0, steps)
    ensures CompletedInv(WRun(c, w0, steps))
  {
    if |steps| > 0 {
      var before := steps[..|steps| - 1];
      CompletedMeansClosedWell(c, w0, before);
      WRunKeeps(c, w0, before);
      StepCompletes(c, WRun(c, w0, before), steps[|steps| - 1]);
    }
  }
}
