/** What a daemon reports about the end of its children, over whole runs. */
module DaemonExits {
  import opened Common
  import opened Runner
  import opened Daemon

  lemma {:induction false} OutcomeMember(pool: seq<RunnerState>, id: TaskId, p: ResultPayload)
    ensures p in OutcomesOf(pool, id) <==> exists i :: 0 <= i < |pool| && pool[i].taskId == id && pool[i].outcome == Some(p)
  {
    if |pool| > 0 {
      var n := |pool| - 1;
      OutcomeMember(pool[..n], id, p);
      if p in OutcomesOf(pool[..n], id) {
        var i :| 0 <= i < n && pool[..n][i].taskId == id && pool[..n][i].outcome == Some(p);
        assert pool[i].taskId == id && pool[i].outcome == Some(p);
      }
      if exists i :: 0 <= i < |pool| && pool[i].taskId == id && pool[i].outcome == Some(p) {
        var i :| 0 <= i < |pool| && pool[i].taskId == id && pool[i].outcome == Some(p);
        if i < n { assert pool[..n][i].taskId == id && pool[..n][i].outcome == Some(p); }
      }
    }
  }

  /** Some result emitted for the task says COMPLETED. */
  ghost predicate SaidCompleted(d: DaemonState, id: TaskId) {
    exists p :: p in ResultsOf(d.link.emitted, id) && p.completed
  }

  /** Some child of the task closed with code 0 and no signal, before anything else
      ended its runner and before the Hub killed it. */
  ghost predicate SomeClosedWell(d: DaemonState, id: TaskId) {
    exists i :: 0 <= i < |d.pool| && d.pool[i].taskId == id && ClosedWell(d, i)
  }

  lemma SaidCompletedIff(d: DaemonState, id: TaskId)
    requires DInv(d)
    ensures SaidCompleted(d, id) <==> SomeClosedWell(d, id)
  {
    if SaidCompleted(d, id) {
      var p :| p in ResultsOf(d.link.emitted, id) && p.completed;
      OutcomeMember(d.pool, id, p);
      var i :| 0 <= i < |d.pool| && d.pool[i].taskId == id && d.pool[i].outcome == Some(p);
      assert Succeeded(d.pool[i]) && ClosedWell(d, i);
    }
    if SomeClosedWell(d, id) {
      var i :| 0 <= i < |d.pool| && d.pool[i].taskId == id && ClosedWell(d, i);
      assert Succeeded(d.pool[i]);
      OutcomeMember(d.pool, id, d.pool[i].outcome.value);
    }
  }

  /** In every run: a result that says COMPLETED was emitted for a task exactly if a
      child of it closed well; for one runner, it is exactly that runner's child. */
  lemma CompletedIffClosedWell(h: Heuristics, steps: seq<DStep>, id: TaskId, i: nat)
    ensures SaidCompleted(DRun(h, NEW_DAEMON, steps), id) <==> SomeClosedWell(DRun(h, NEW_DAEMON, steps), id)
    ensures var d := DRun(h, NEW_DAEMON, steps);
            i < |d.pool| ==> (Succeeded(d.pool[i]) <==> ClosedWell(d, i))
  {
    DRunKeeps(h, steps);
    SaidCompletedIff(DRun(h, NEW_DAEMON, steps), id);
  }

  // ----- what the other results carry -----

  /** What the runner reported about its end: COMPLETED without a failure, or FAILED
      with the heuristics' judgement of the end of its output. */
  ghost predicate Judged(h: Heuristics, d: DaemonState, i: nat)
    requires i < |d.pool|
  {
    var first := FirstExit(d.exits, i);
    && (first.Some? ==> IsExit(first.value.op))
    && (d.pool[i].outcome.Some? <==> first.Some? && !Silenced(first.value.before, first.value.op))
    && (d.pool[i].outcome.Some? ==>
          d.pool[i].outcome.value.failure
          == (if ClosedWell(d, i) then None else h.capacity(JudgedText(first.value.before, first.value.op))))
  }

  ghost predicate JudgedInv(h: Heuristics, d: DaemonState) {
    forall i :: 0 <= i < |d.pool| ==> Judged(h, d, i)
  }

  lemma RunOpJudged(h: Heuristics, d: DaemonState, i: nat, op: Op)
    requires DInv(d) && JudgedInv(h, d) && i < |d.pool|
    ensures JudgedInv(h, RunOp(h, d, i, op))
  {
    var d' := RunOp(h, d, i, op);
    PerformExits(h, d.pool[i], op);
    forall j | 0 <= j < |d'.pool| ensures Judged(h, d', j) {
      FirstExitSnoc(d.exits, ExitRecord(i, op, d.pool[i]), j);
      assert Judged(h, d, j) && (ClosedWell(d, j) <==> Succeeded(d.pool[j]));
    }
  }

  lemma AcceptJudged(h: Heuristics, d: DaemonState, id: TaskId)
    requires DInv(d) && JudgedInv(h, d) && id !in d.runners
    ensures JudgedInv(h, d.(pool := d.pool + [Fresh(id)], runners := d.runners[id := |d.pool|]))
  {
    var d' := d.(pool := d.pool + [Fresh(id)], runners := d.runners[id := |d.pool|]);
    NoExitOf(d.exits, |d.pool|);
    forall j | 0 <= j < |d'.pool| ensures Judged(h, d', j) {
      if j < |d.pool| { assert Judged(h, d, j) && (ClosedWell(d', j) <==> ClosedWell(d, j)); }
    }
  }

  lemma StepJudged(h: Heuristics, d: DaemonState, step: DStep)
    requires DInv(d) && JudgedInv(h, d)
    ensures JudgedInv(h, DApply(h, d, step))
  {
    match step {
      case TaskSubmit(id, outcome) =>
        if id !in d.runners {
          var accepted := d.(pool := d.pool + [Fresh(id)], runners := d.runners[id := |d.pool|]);
          AcceptKeeps(d, id);
          AcceptJudged(h, d, id);
          RunOpJudged(h, accepted, |d.pool|, Start(outcome));
        }
      case TaskCancel(id) => if id in d.runners { RunOpJudged(h, d, d.runners[id], Kill); }
      case DecisionArrives(id, approved, stdinOpen) =>
        if id in d.runners { RunOpJudged(h, d, d.runners[id], Decision(approved, stdinOpen)); }
      case Child(i, op) => if i < |d.pool| { RunOpJudged(h, d, i, op); }
      case _ =>
        var d' := DApply(h, d, step);
        forall j | 0 <= j < |d'.pool| ensures Judged(h, d', j) { assert Judged(h, d, j) && (ClosedWell(d', j) <==> ClosedWell(d, j)); }
    }
  }

  /** In every run, a runner has reported exactly if the event that ended it was not
      the close of a killed child; its report carries no failure if its child closed
      well, and otherwise what the heuristics make of the end of its output. */
  lemma {:induction false} ReportsAreJudged(h: Heuristics, steps: seq<DStep>)
    ensures JudgedInv(h, DRun(h, NEW_DAEMON, steps))
  {
    if |steps| > 0 {
      ReportsAreJudged(h, steps[..|steps| - 1]);
      DRunKeeps(h, steps[..|steps| - 1]);
      StepJudged(h, DRun(h, NEW_DAEMON, steps[..|steps| - 1]), steps[|steps| - 1]);
    }
  }
}
