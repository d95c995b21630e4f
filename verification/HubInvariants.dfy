/** What every step of the Hub keeps, task by task. */
module HubInvariants {
  import opened Common
  import opened Tasks
  import opened WorkerRegistry
  import opened Hub

  /** A live attempt is the newest one, runs on the task's server, that server
      is not excluded, and the task is not queued. */
  ghost predicate LiveInv(t: Task) {
    forall i :: 0 <= i < |t.attempts| && Live(t.attempts[i]) ==>
      && i == |t.attempts| - 1
      && t.attempts[i].serverId == t.serverId
      && t.serverId !in ExcludedServers(t.attempts)
      && !t.status.Queued?
  }

  /** Timed-out and capacity-failed attempts sit on pairwise distinct servers. */
  ghost predicate DistinctExclusions(attempts: seq<Attempt>) {
    forall i, j :: 0 <= i < j < |attempts| && Excludes(attempts[i]) && Excludes(attempts[j]) ==>
      attempts[i].serverId != attempts[j].serverId
  }

  /** The task and all its attempts stay on servers of the submitting user. */
  ghost predicate Confined(servers: ServerTable, t: Task) {
    && OwnsServer(servers, t.submitter, t.serverId)
    && forall i :: 0 <= i < |t.attempts| ==> OwnsServer(servers, t.submitter, t.attempts[i].serverId)
  }

  ghost predicate TaskInv(servers: ServerTable, now: Time, t: Task) {
    LiveInv(t) && DistinctExclusions(t.attempts) && Confined(servers, t) && t.updatedAt <= now
  }

  ghost predicate Decided(t: Task) {
    t.approval.Some? && !t.approval.value.Pending?
  }

  /** How a row may change in one step. */
  ghost predicate Evolves(a: Task, b: Task) {
    && b.submitter == a.submitter
    && ExcludedServers(a.attempts) <= ExcludedServers(b.attempts)
    && (HasLive(a.attempts) && b.status.Queued? ==> ExcludedServers(a.attempts) < ExcludedServers(b.attempts))
    && TimedOutCount(a.attempts) <= TimedOutCount(b.attempts)
    && a.updatedAt <= b.updatedAt
    && (Decided(a) ==> b.approval == a.approval)
  }

  // ----- attempt lists -----

  lemma ExcludedSnoc(a: seq<Attempt>, x: Attempt)
    ensures ExcludedServers(a + [x]) == ExcludedServers(a) + (if Excludes(x) then {x.serverId} else {})
  {
    var b := a + [x];
    forall s | s in ExcludedServers(a) ensures s in ExcludedServers(b) {
      var i :| 0 <= i < |a| && Excludes(a[i]) && a[i].serverId == s;
      assert b[i] == a[i];
    }
    if Excludes(x) { assert b[|a|] == x; }
  }

  lemma TimedOutSnoc(a: seq<Attempt>, x: Attempt)
    ensures TimedOutCount(a + [x]) == TimedOutCount(a) + (if x.status.TimedOut? then 1 else 0)
  {
    assert (a + [x])[..|a|] == a;
  }

  /** Replacing a live last attempt. */
  lemma ReplaceLast(a: seq<Attempt>, x: Attempt)
    requires |a| > 0 && Live(a[|a| - 1])
    ensures ExcludedServers(a[|a| - 1 := x]) == ExcludedServers(a) + (if Excludes(x) then {x.serverId} else {})
    ensures TimedOutCount(a[|a| - 1 := x]) == TimedOutCount(a) + (if x.status.TimedOut? then 1 else 0)
  {
    var n := |a| - 1;
    assert a == a[..n] + [a[n]];
    assert a[n := x] == a[..n] + [x];
    ExcludedSnoc(a[..n], a[n]);
    ExcludedSnoc(a[..n], x);
    TimedOutSnoc(a[..n], a[n]);
    TimedOutSnoc(a[..n], x);
  }

  /** Closing or touching the live attempt keeps the invariants of the list. */
  lemma ReplaceLive(servers: ServerTable, now: Time, t: Task, x: Attempt, u: Task)
    requires TaskInv(servers, now, t)
    requires |t.attempts| > 0 && Live(t.attempts[|t.attempts| - 1])
    requires x.serverId == t.serverId
    requires u.attempts == t.attempts[|t.attempts| - 1 := x]
    requires u.serverId == t.serverId && u.submitter == t.submitter && u.updatedAt <= now
    requires Live(x) ==> !u.status.Queued?
    ensures TaskInv(servers, now, u)
    ensures ExcludedServers(u.attempts) == ExcludedServers(t.attempts) + (if Excludes(x) then {t.serverId} else {})
    ensures TimedOutCount(u.attempts) == TimedOutCount(t.attempts) + (if x.status.TimedOut? then 1 else 0)
    ensures t.serverId !in ExcludedServers(t.attempts)
  {
    ReplaceLast(t.attempts, x);
    var n := |t.attempts| - 1;
    forall i | 0 <= i < n && Excludes(t.attempts[i]) ensures t.attempts[i].serverId != t.serverId {
      assert t.attempts[i].serverId in ExcludedServers(t.attempts);
    }
    forall i, j | 0 <= i < j < |u.attempts| && Excludes(u.attempts[i]) && Excludes(u.attempts[j])
      ensures u.attempts[i].serverId != u.attempts[j].serverId
    {
      if j < n { assert u.attempts[j] == t.attempts[j]; }
      assert u.attempts[i] == t.attempts[i];
    }
  }

  lemma LatestLiveIsLast(t: Task)
    requires LiveInv(t)
    ensures HasLive(t.attempts) <==> |t.attempts| > 0 && Live(t.attempts[|t.attempts| - 1])
    ensures LatestLive(t.attempts) == if HasLive(t.attempts) then Some(|t.attempts| - 1) else None
  {
  }

  // ----- handlers -----

  lemma TouchKeeps(servers: ServerTable, now: Time, t: Task, u: Task)
    requires TaskInv(servers, now, t)
    requires u.attempts == Touch(t.attempts, now)
    requires u.serverId == t.serverId && u.submitter == t.submitter && u.updatedAt == now && (u.approval == t.approval)
    requires u.status.Queued? ==> t.status.Queued?
    ensures TaskInv(servers, now, u) && Evolves(t, u)
  {
    LatestLiveIsLast(t);
    if HasLive(t.attempts) {
      var x := t.attempts[|t.attempts| - 1].(status := AttemptStatus.Running, lastSeenAt := now);
      ReplaceLive(servers, now, t, x, u);
    }
  }

  /** After `Finish` no attempt is live. */
  lemma FinishKeeps(servers: ServerTable, now: Time, t: Task, succeeded: bool, reason: Option<string>, u: Task)
    requires TaskInv(servers, now, t)
    requires u.attempts == Finish(t.attempts, succeeded, reason, now)
    requires u.serverId == t.serverId && u.submitter == t.submitter && t.updatedAt <= u.updatedAt <= now && u.approval == t.approval
    requires u.status.Queued? && HasLive(t.attempts) ==> !succeeded && reason.Some? && CAPACITY_PREFIX <= reason.value
    ensures TaskInv(servers, now, u) && Evolves(t, u) && !HasLive(u.attempts)
    ensures HasLive(t.attempts) && !succeeded && reason.Some? && CAPACITY_PREFIX <= reason.value
            ==> t.serverId in ExcludedServers(u.attempts)
  {
    LatestLiveIsLast(t);
    if HasLive(t.attempts) {
      var n := |t.attempts| - 1;
      ReplaceLive(servers, now, t, u.attempts[n], u);
      LatestLiveIsLast(u);
    }
  }

  lemma ReasonHasPrefix(p: ResultPayload)
    ensures CAPACITY_PREFIX <= FormatStructuredFailureReason(p)
  {
  }

  lemma WatchdogKeeps(servers: ServerTable, now: Time, t: Task, w: WatchdogConfig)
    requires TaskInv(servers, now, t) && WatchdogActs(t, w, now)
    ensures var u := AfterWatchdog(t, w, now);
            TaskInv(servers, now, u) && Evolves(t, u) && TimedOutCount(u.attempts) == TimedOutCount(t.attempts) + 1
  {
    var u := AfterWatchdog(t, w, now);
    ReplaceLive(servers, now, t, u.attempts[|t.attempts| - 1], u);
  }

  /** Rows that neither are live nor exclude anything can be appended freely. */
  lemma {:induction false} AppendInert(a: seq<Attempt>, more: seq<Attempt>)
    requires forall i :: 0 <= i < |more| ==> !Excludes(more[i])
    ensures ExcludedServers(a + more) == ExcludedServers(a)
    ensures TimedOutCount(a + more) == TimedOutCount(a)
    ensures DistinctExclusions(a) ==> DistinctExclusions(a + more)
  {
    if |more| == 0 {
      assert a + more == a;
    } else {
      var n := |more| - 1;
      AppendInert(a, more[..n]);
      assert a + more == (a + more[..n]) + [more[n]];
      ExcludedSnoc(a + more[..n], more[n]);
      TimedOutSnoc(a + more[..n], more[n]);
    }
  }

  ghost predicate GoodServers(servers: ServerTable, t: Task, ids: seq<ServerId>) {
    forall i :: 0 <= i < |ids| ==> OwnsServer(servers, t.submitter, ids[i]) && ids[i] !in ExcludedServers(t.attempts)
  }

  /** Appending rows that exclude nothing, of which only the last may be live. */
  lemma AppendKeeps(servers: ServerTable, now: Time, t: Task, more: seq<Attempt>, u: Task)
    requires TaskInv(servers, now, t) && !HasLive(t.attempts)
    requires forall i :: 0 <= i < |more| ==> !Excludes(more[i]) && OwnsServer(servers, t.submitter, more[i].serverId)
    requires forall i :: 0 <= i < |more| && Live(more[i]) ==>
               i == |more| - 1 && more[i].serverId == u.serverId && u.serverId !in ExcludedServers(t.attempts) && !u.status.Queued?
    requires u.attempts == t.attempts + more && OwnsServer(servers, t.submitter, u.serverId)
    requires u.submitter == t.submitter && u.approval == t.approval && t.updatedAt <= u.updatedAt <= now
    ensures TaskInv(servers, now, u) && Evolves(t, u)
  {
    AppendInert(t.attempts, more);
    var n := |t.attempts|;
    forall i | 0 <= i < |u.attempts| ensures OwnsServer(servers, t.submitter, u.attempts[i].serverId) {
      if i >= n { assert u.attempts[i] == more[i - n]; }
    }
    forall i | 0 <= i < |u.attempts| && Live(u.attempts[i])
      ensures i == |u.attempts| - 1 && u.attempts[i].serverId == u.serverId
              && u.serverId !in ExcludedServers(u.attempts) && !u.status.Queued?
    {
      assert i >= n;
      assert u.attempts[i] == more[i - n];
    }
  }

  lemma RefusedAreInert(ids: seq<ServerId>, replies: seq<Reply>, k: nat, now: Time)
    requires k <= |ids| && forall i :: 0 <= i < k ==> ReplyAt(replies, i).Refused?
    requires forall i :: 0 <= i < |replies| ==> OrdinaryReply(replies[i])
    ensures var r := RefusedAttempts(ids, replies, k, now);
            |r| == k && forall i :: 0 <= i < k ==> !Excludes(r[i]) && !Live(r[i]) && r[i].serverId == ids[i]
  {
    NoAnswerIsOrdinary();
    var r := RefusedAttempts(ids, replies, k, now);
    forall i | 0 <= i < k ensures !Excludes(r[i]) && !Live(r[i]) && r[i].serverId == ids[i] {
      assert r[i] == RefusedAttempt(ids[i], ReplyAt(replies, i), now);
    }
  }

  lemma DispatchKeeps(servers: ServerTable, now: Time, t: Task, ids: seq<ServerId>, replies: seq<Reply>)
    requires TaskInv(servers, now, t) && t.status.Queued?
    requires GoodServers(servers, t, ids)
    requires forall i :: 0 <= i < |replies| ==> OrdinaryReply(replies[i])
    ensures var u := AfterDispatch(t, ids, replies, now); TaskInv(servers, now, u) && Evolves(t, u)
  {
    var u := AfterDispatch(t, ids, replies, now);
    var k := FirstAccepting(replies, 0, |ids|);
    var refused := RefusedAttempts(ids, replies, k, now);
    RefusedAreInert(ids, replies, k, now);
    var more := if k < |ids| then refused + [Attempt(ids[k], AttemptStatus.Running, None, now)] else refused;
    assert u.attempts == t.attempts + more;
    AppendKeeps(servers, now, t, more, u);
  }

  lemma NoAnswerIsOrdinary()
    ensures !(CAPACITY_PREFIX <= "no answer")
  {
    assert CAPACITY_PREFIX[0] == 'C' && "no answer"[0] == 'n';
  }

  /** Candidates are online servers of the owner that are not excluded. */
  lemma CandidatesAreGood(cfg: Config, s: HubState, t: Task)
    requires ConfigOk(cfg) && CandidatesFor(cfg, s, t).Some?
    ensures t.serverId in s.servers
    ensures forall c :: c in CandidatesFor(cfg, s, t).value ==>
              && OwnsServer(s.servers, s.servers[t.serverId].ownerId, c.serverId)
              && s.servers[c.serverId].online
              && c.serverId !in ExcludedServers(t.attempts)
  {
    var owner := s.servers[t.serverId].ownerId;
    var rows := Rows(cfg.col, s.servers, s.profiles, ProviderFor(t.workerType), owner, ExcludedServers(t.attempts));
    SameMembers(cfg.rank(t.serverId, rows), rows);
  }

  lemma CandidatesServe(cfg: Config, s: HubState, t: Task)
    requires ConfigOk(cfg) && CandidatesFor(cfg, s, t).Some? && Confined(s.servers, t)
    ensures GoodServers(s.servers, t, ServerIds(CandidatesFor(cfg, s, t).value))
  {
    CandidatesAreGood(cfg, s, t);
    var cs := CandidatesFor(cfg, s, t).value;
    forall i | 0 <= i < |cs| ensures OwnsServer(s.servers, t.submitter, cs[i].serverId) && cs[i].serverId !in ExcludedServers(t.attempts) {
      assert cs[i] in cs;
    }
  }

  lemma CapacityKeeps(cfg: Config, s: HubState, id: TaskId, p: ResultPayload)
    requires ConfigOk(cfg) && id in s.tasks && TaskInv(s.servers, s.now, s.tasks[id])
    ensures var u := DoCapacityFailure(cfg, s, id, p).tasks[id];
            TaskInv(s.servers, s.now, u) && Evolves(s.tasks[id], u)
  {
    var u := DoCapacityFailure(cfg, s, id, p).tasks[id];
    ReasonHasPrefix(p);
    FinishKeeps(s.servers, s.now, s.tasks[id], false, Some(FormatStructuredFailureReason(p)), u);
  }

  // ----- all steps -----

  ghost predicate Inv(s: HubState) {
    forall id :: id in s.tasks ==> TaskInv(s.servers, s.now, s.tasks[id])
  }

  ghost predicate StepEvolves(s: HubState, s': HubState) {
    && (forall id :: id in s.tasks ==> id in s'.tasks && Evolves(s.tasks[id], s'.tasks[id]))
    && ServersGrow(s.servers, s'.servers)
    && s.now <= s'.now
  }

  lemma Unchanged(t: Task)
    requires LiveInv(t)
    ensures Evolves(t, t)
  {
  }

  /** The row a dispatch job leaves behind. */
  lemma DispatchedRowKeeps(cfg: Config, s: HubState, t: Task, replies: seq<Reply>)
    requires ConfigOk(cfg) && TaskInv(s.servers, s.now, t) && t.status.Queued?
    requires CandidatesFor(cfg, s, t).Some? && forall i :: 0 <= i < |replies| ==> OrdinaryReply(replies[i])
    ensures var u := AfterDispatch(t, ServerIds(CandidatesFor(cfg, s, t).value), replies, s.now);
            TaskInv(s.servers, s.now, u) && Evolves(t, u)
  {
    CandidatesServe(cfg, s, t);
    DispatchKeeps(s.servers, s.now, t, ServerIds(CandidatesFor(cfg, s, t).value), replies);
  }

  /** A job touches only its own task's row, and that row is old or freshly dispatched. */
  lemma JobRows(cfg: Config, s: HubState, j: nat, replies: seq<Reply>)
    requires j < |s.jobs| && s.jobs[j].taskId in s.tasks
    ensures var s' := DoRunJob(cfg, s, j, replies);
            var id := s.jobs[j].taskId;
            && s'.servers == s.servers && s'.now == s.now && id in s'.tasks && s'.tasks == s.tasks[id := s'.tasks[id]]
            && (|| s'.tasks[id] == s.tasks[id]
                || (&& s.tasks[id].status.Queued? && CandidatesFor(cfg, s, s.tasks[id]).Some?
                    && s'.tasks[id] == AfterDispatch(s.tasks[id], ServerIds(CandidatesFor(cfg, s, s.tasks[id]).value), replies, s.now)))
  {
  }

  lemma RunJobKeeps(cfg: Config, s: HubState, j: nat, replies: seq<Reply>)
    requires ConfigOk(cfg) && Inv(s) && StepOk(cfg, s, RunJob(j, replies))
    ensures Inv(DoRunJob(cfg, s, j, replies)) && StepEvolves(s, DoRunJob(cfg, s, j, replies))
  {
    var id := s.jobs[j].taskId;
    if id in s.tasks {
      JobRows(cfg, s, j, replies);
      Unchanged(s.tasks[id]);
      if s.tasks[id].status.Queued? && CandidatesFor(cfg, s, s.tasks[id]).Some? {
        DispatchedRowKeeps(cfg, s, s.tasks[id], replies);
      }
      OneRow(s, id, DoRunJob(cfg, s, j, replies));
    } else {
      forall x | x in s.tasks ensures Evolves(s.tasks[x], s.tasks[x]) { Unchanged(s.tasks[x]); }
    }
  }

  lemma ScanKeeps(cfg: Config, s: HubState, rows: seq<TaskId>)
    requires Inv(s)
    ensures Inv(DoScan(cfg, s, rows)) && StepEvolves(s, DoScan(cfg, s, rows))
  {
    forall x | x in s.tasks
      ensures TaskInv(s.servers, s.now, ScanTask(cfg, s.tasks[x], s.now)) && Evolves(s.tasks[x], ScanTask(cfg, s.tasks[x], s.now))
    {
      if WatchdogActs(s.tasks[x], cfg.watchdog, s.now) {
        WatchdogKeeps(s.servers, s.now, s.tasks[x], cfg.watchdog);
      } else {
        Unchanged(s.tasks[x]);
      }
    }
  }

  /** Steps that rewrite at most the row `id`. */
  lemma OneRow(s: HubState, id: TaskId, s': HubState)
    requires Inv(s) && id in s.tasks
    requires s'.servers == s.servers && s'.now == s.now
    requires id in s'.tasks && s'.tasks == s.tasks[id := s'.tasks[id]]
    requires TaskInv(s.servers, s.now, s'.tasks[id]) && Evolves(s.tasks[id], s'.tasks[id])
    ensures Inv(s') && StepEvolves(s, s')
  {
    forall x | x in s.tasks ensures Evolves(s.tasks[x], s'.tasks[x]) {
      if x != id { Unchanged(s.tasks[x]); }
    }
  }

  /** Handlers that leave the attempts alone. */
  lemma SameAttemptsKeep(servers: ServerTable, now: Time, t: Task, u: Task)
    requires TaskInv(servers, now, t)
    requires u.attempts == t.attempts && u.serverId == t.serverId && u.submitter == t.submitter
    requires t.updatedAt <= u.updatedAt <= now
    requires u.status.Queued? ==> t.status.Queued?
    requires Decided(t) ==> u.approval == t.approval
    ensures TaskInv(servers, now, u) && Evolves(t, u)
  {
  }

  lemma OrdinaryResultKeeps(servers: ServerTable, now: Time, t: Task, p: ResultPayload)
    requires TaskInv(servers, now, t)
    ensures TaskInv(servers, now, OnResult(t, p, now)) && Evolves(t, OnResult(t, p, now))
  {
    FinishKeeps(servers, now, t, p.completed, if p.completed then None else Some(ORDINARY_FAILURE), OnResult(t, p, now));
  }

  lemma CapacityRows(cfg: Config, s: HubState, id: TaskId, p: ResultPayload)
    requires id in s.tasks
    ensures var s' := DoCapacityFailure(cfg, s, id, p);
            s'.servers == s.servers && s'.now == s.now && id in s'.tasks && s'.tasks == s.tasks[id := s'.tasks[id]]
  {
  }

  lemma ResultKeeps(cfg: Config, s: HubState, id: TaskId, p: ResultPayload)
    requires ConfigOk(cfg) && Inv(s) && id in s.tasks
    ensures Inv(DoResult(cfg, s, id, p)) && StepEvolves(s, DoResult(cfg, s, id, p))
  {
    if IsRetryableCapacityFailure(p) {
      CapacityKeeps(cfg, s, id, p);
      CapacityRows(cfg, s, id, p);
      OneRow(s, id, DoCapacityFailure(cfg, s, id, p));
    } else {
      OrdinaryResultKeeps(s.servers, s.now, s.tasks[id], p);
      OneRow(s, id, SetTask(s, id, OnResult(s.tasks[id], p, s.now)));
    }
  }

  lemma TouchStepKeeps(cfg: Config, s: HubState, step: Step, id: TaskId)
    requires Inv(s) && StepOk(cfg, s, step) && id in s.tasks
    requires (step.StatusEvent? && step.taskId == id) || (step.LogEvent? && step.taskId == id)
    ensures Inv(Apply(cfg, s, step)) && StepEvolves(s, Apply(cfg, s, step))
  {
    var s' := Apply(cfg, s, step);
    TouchKeeps(s.servers, s.now, s.tasks[id], s'.tasks[id]);
    OneRow(s, id, s');
  }

  lemma RowStepKeeps(cfg: Config, s: HubState, step: Step, id: TaskId)
    requires Inv(s) && id in s.tasks
    requires (step.ApprovalEvent? && step.taskId == id) || (step.Cancel? && step.taskId == id) || (step.Decide? && step.taskId == id)
    ensures Inv(Apply(cfg, s, step)) && StepEvolves(s, Apply(cfg, s, step))
  {
    var s' := Apply(cfg, s, step);
    SameAttemptsKeep(s.servers, s.now, s.tasks[id], s'.tasks[id]);
    OneRow(s, id, s');
  }

  /** Every step keeps the invariant and moves every row forward. */
  lemma {:induction false} StepKeeps(cfg: Config, s: HubState, step: Step)
    requires ConfigOk(cfg) && Inv(s) && StepOk(cfg, s, step)
    ensures Inv(Apply(cfg, s, step)) && StepEvolves(s, Apply(cfg, s, step))
  {
    forall x | x in s.tasks ensures Evolves(s.tasks[x], s.tasks[x]) { Unchanged(s.tasks[x]); }
    match step {
      case Submit(_, _, _, _) =>
      case RunJob(j, replies) => RunJobKeeps(cfg, s, j, replies);
      case Scan(rows) => ScanKeeps(cfg, s, rows);
      case StatusEvent(id, _) => if id in s.tasks { TouchStepKeeps(cfg, s, step, id); }
      case LogEvent(id, _, _) => if id in s.tasks { TouchStepKeeps(cfg, s, step, id); }
      case ResultEvent(id, p) => if id in s.tasks { ResultKeeps(cfg, s, id, p); }
      case ApprovalEvent(id) => if id in s.tasks { RowStepKeeps(cfg, s, step, id); }
      case Cancel(_, id, _) => if id in s.tasks { RowStepKeeps(cfg, s, step, id); }
      case Decide(_, id, _, _) => if id in s.tasks { RowStepKeeps(cfg, s, step, id); }
      case Tick(_) =>
      case ChangeServers(_, _) =>
    }
  }

  lemma {:induction false} RunKeeps(cfg: Config, s: HubState, steps: seq<Step>)
    requires ConfigOk(cfg) && Inv(s) && RunOk(cfg, s, steps)
    ensures Inv(Run(cfg, s, steps))
  {
    if |steps| > 0 {
      var before := steps[..|steps| - 1];
      RunKeeps(cfg, s, before);
      StepKeeps(cfg, Run(cfg, s, before), steps[|steps| - 1]);
    }
  }
}
