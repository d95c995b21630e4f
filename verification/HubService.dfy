/** The Hub's services in their own form: handlers and jobs that update the
    tables in place.  Each method is proved to make exactly its `Apply` step. */
module HubService {
  import opened Common
  import opened Tasks
  import opened WorkerRegistry
  import opened Hub

  class Service {
    const cfg: Config
    var servers: ServerTable
    var profiles: seq<Profile>
    var tasks: map<TaskId, Task>
    var jobs: seq<Job>
    var outbox: seq<Packet>
    var now: Time

    constructor (cfg: Config, servers: ServerTable, profiles: seq<Profile>, now: Time)
      ensures this.cfg == cfg
      ensures State() == HubState(servers, profiles, map[], [], [], now)
      ensures Initial(State())
    {
      this.cfg := cfg;
      this.servers, this.profiles, this.now := servers, profiles, now;
      this.tasks, this.jobs, this.outbox := map[], [], [];
    }

    ghost function State(): HubState
      reads this
    {
      HubState(servers, profiles, tasks, jobs, outbox, now)
    }

    // ----- TasksService -----

    method Submit(owner: UserId, id: TaskId, server: ServerId, w: WorkerType) returns (created: bool)
      requires id !in tasks
      modifies `tasks, `jobs
      ensures State() == Apply(cfg, old(State()), Step.Submit(owner, id, server, w))
      ensures created <==> OwnsServer(servers, owner, server)
    {
      if server !in servers || servers[server].ownerId != owner {
        return false;
      }
      tasks := tasks[id := Task(owner, server, w, TaskStatus.Queued, [], None, now, [], None)];
      RequeueTask(id);
      return true;
    }

    method RequeueTask(id: TaskId)
      modifies `jobs
      ensures State() == Requeue(old(State()), id)
    {
      jobs := jobs + [Job(id, Waiting(0))];
      assert NewJobs([id]) == [Job(id, Waiting(0))];
    }

    method TouchRunningAttempt(id: TaskId)
      requires id in tasks
      modifies `tasks
      ensures State() == SetTask(old(State()), id, old(tasks)[id].(attempts := Touch(old(tasks)[id].attempts, now)))
    {
      var t := tasks[id];
      match LatestLive(t.attempts) {
        case None =>
        case Some(k) =>
          var row := t.attempts[k].(status := AttemptStatus.Running, lastSeenAt := now);
          tasks := tasks[id := t.(attempts := t.attempts[k := row])];
      }
      assert tasks == old(tasks)[id := tasks[id]];
    }

    method FinishRunningAttempt(id: TaskId, succeeded: bool, reason: Option<string>)
      requires id in tasks
      modifies `tasks
      ensures State() == SetTask(old(State()), id, old(tasks)[id].(attempts := Finish(old(tasks)[id].attempts, succeeded, reason, now)))
    {
      var t := tasks[id];
      match LatestLive(t.attempts) {
        case None =>
        case Some(k) =>
          var row := t.attempts[k].(status := if succeeded then Succeeded else AttemptStatus.Failed, lastSeenAt := now);
          if reason.Some? {
            row := row.(failureReason := reason);
          }
          tasks := tasks[id := t.(attempts := t.attempts[k := row])];
      }
      assert tasks == old(tasks)[id := tasks[id]];
    }

    method HandleDaemonTaskStatus(id: TaskId, status: TaskStatus)
      modifies `tasks
      ensures State() == Apply(cfg, old(State()), StatusEvent(id, status))
    {
      if id !in tasks {
        return;
      }
      TouchRunningAttempt(id);
      tasks := tasks[id := tasks[id].(status := status, updatedAt := now)];
    }

    method HandleDaemonTaskLog(id: TaskId, from: ServerId, chunk: string)
      modifies `tasks
      ensures State() == Apply(cfg, old(State()), LogEvent(id, from, chunk))
    {
      if id !in tasks {
        return;
      }
      var logs := tasks[id].logs;
      TouchRunningAttempt(id);
      tasks := tasks[id := tasks[id].(logs := logs + [Chunk(from, chunk)], updatedAt := now)];
    }

    method HandleDaemonTaskResult(id: TaskId, payload: ResultPayload)
      modifies `tasks, `jobs
      ensures State() == Apply(cfg, old(State()), ResultEvent(id, payload))
    {
      if id !in tasks {
        return;
      }
      if IsRetryableCapacityFailure(payload) {
        HandleRetryableCapacityFailure(id, payload);
        return;
      }
      FinishRunningAttempt(id, payload.completed, if payload.completed then None else Some(ORDINARY_FAILURE));
      tasks := tasks[id := tasks[id].(
        status := if payload.completed then TaskStatus.Completed else TaskStatus.Failed,
        result := Some(payload.result),
        updatedAt := now)];
    }

    method HandleRetryableCapacityFailure(id: TaskId, payload: ResultPayload)
      requires id in tasks
      modifies `tasks, `jobs
      ensures State() == DoCapacityFailure(cfg, old(State()), id, payload)
    {
      var task := tasks[id];
      FinishRunningAttempt(id, false, Some(FormatStructuredFailureReason(payload)));
      var excluded := ExcludedServers(tasks[id].attempts);
      var candidates :=
        GetDispatchCandidates(cfg.col, cfg.rank, servers, profiles, task.workerType, task.serverId, excluded);
      if candidates.None? {
        return;
      }
      if |candidates.value| == 0 {
        tasks := tasks[id := tasks[id].(
          status := TaskStatus.Failed,
          result := Some(payload.result),
          logs := task.logs + [CapacityGaveUp(task.serverId)],
          updatedAt := now)];
        return;
      }
      tasks := tasks[id := tasks[id].(
        status := TaskStatus.Queued,
        logs := task.logs + [CapacityFailover(task.serverId, candidates.value[0].serverId)],
        updatedAt := now)];
      RequeueTask(id);
    }

    /** `delivered` is whether the socket layer found the daemon connected. */
    method Cancel(owner: UserId, id: TaskId, delivered: bool) returns (cancelled: bool)
      modifies `tasks, `outbox
      ensures State() == Apply(cfg, old(State()), Step.Cancel(owner, id, delivered))
      ensures cancelled ==> id in tasks && tasks[id].status.Cancelled?
      ensures !cancelled ==> State() == old(State())
    {
      if id !in tasks || tasks[id].serverId !in servers || servers[tasks[id].serverId].ownerId != owner {
        return false;
      }
      var task := tasks[id];
      if !Supported(task.workerType) || !delivered {
        return false;
      }
      outbox := outbox + [Packet(task.serverId, CancelTask(id))];
      tasks := tasks[id := task.(status := Cancelled, updatedAt := now)];
      return true;
    }

    // ----- ApprovalsService -----

    method HandleDaemonApprovalRequest(id: TaskId) returns (recorded: bool)
      modifies `tasks
      ensures State() == Apply(cfg, old(State()), ApprovalEvent(id))
      ensures recorded <==> id in old(tasks) && old(tasks)[id].approval.None?
    {
      if id !in tasks || tasks[id].approval.Some? {
        assert id in tasks ==> tasks == tasks[id := tasks[id]];
        return false;
      }
      tasks := tasks[id := tasks[id].(approval := Some(ApprovalStatus.Pending))];
      tasks := tasks[id := tasks[id].(status := AwaitingApproval, updatedAt := now)];
      return true;
    }

    method Decide(owner: UserId, id: TaskId, approve: bool, delivered: bool) returns (accepted: bool)
      modifies `tasks, `outbox
      ensures State() == Apply(cfg, old(State()), Step.Decide(owner, id, approve, delivered))
      ensures accepted <==> id in old(tasks) && old(tasks)[id].approval == Some(ApprovalStatus.Pending)
                            && OwnsServer(servers, owner, old(tasks)[id].serverId)
    {
      if id !in tasks || tasks[id].approval.None? {
        return false;
      }
      var task := tasks[id];
      if task.serverId !in servers || servers[task.serverId].ownerId != owner {
        return false;
      }
      if task.approval != Some(ApprovalStatus.Pending) {
        return false;
      }
      tasks := tasks[id := task.(approval := Some(if approve then Approved else Rejected))];
      tasks := tasks[id := tasks[id].(status := if approve then TaskStatus.Running else Cancelled, updatedAt := now)];
      if delivered {
        outbox := outbox + [Packet(task.serverId, ApprovalDecision(id, approve))];
      }
      return true;
    }

    // ----- TasksProcessor -----

    /** One turn of the dispatch loop: open an attempt row, submit, settle the row. */
    method TryCandidate(id: TaskId, candidate: Candidate, reply: Reply)
      requires id in tasks
      modifies `tasks, `outbox
      ensures State() ==
        if reply.Refused? then
          SetTask(old(State()), id,
                  old(tasks)[id].(attempts := old(tasks)[id].attempts + [RefusedAttempt(candidate.serverId, reply, now)]))
        else
          Send(SetTask(old(State()), id, old(tasks)[id].(
                 attempts := old(tasks)[id].attempts + [Attempt(candidate.serverId, AttemptStatus.Running, None, now)],
                 serverId := candidate.serverId, status := TaskStatus.Running, updatedAt := now)),
               candidate.serverId, SubmitTask(id))
    {
      var before := tasks[id].attempts;
      var attempt := Attempt(candidate.serverId, Dispatching, None, now);
      tasks := tasks[id := tasks[id].(attempts := before + [attempt])];
      match reply {
        case Accepted =>
          outbox := outbox + [Packet(candidate.serverId, SubmitTask(id))];
          tasks := tasks[id := tasks[id].(serverId := candidate.serverId, status := TaskStatus.Running, updatedAt := now)];
          tasks := tasks[id := tasks[id].(attempts := before + [attempt.(status := AttemptStatus.Running, lastSeenAt := now)])];
        case Refused(message) =>
          attempt := attempt.(status := AttemptStatus.Failed, failureReason := Some(message), lastSeenAt := now);
          tasks := tasks[id := tasks[id].(attempts := before + [attempt])];
      }
    }

    /** The loop over candidates; `replies` is what the adapter answers, by position. */
    method OfferInOrder(id: TaskId, cs: seq<Candidate>, replies: seq<Reply>) returns (accepted: bool)
      requires id in tasks
      modifies `tasks, `outbox
      ensures var k := FirstAccepting(replies, 0, |cs|);
              && accepted == (k < |cs|)
              && State() ==
                   (var offered := SetTask(old(State()), id, AfterDispatch(old(tasks)[id], ServerIds(cs), replies, now));
                    if k < |cs| then Send(offered, cs[k].serverId, SubmitTask(id)) else offered)
    {
      var task := tasks[id];
      ghost var ids := ServerIds(cs);
      var failures := [];
      var i := 0;
      assert task.attempts + RefusedAttempts(ids, replies, 0, now) == task.attempts;
      while i < |cs|
        invariant 0 <= i <= |cs|
        invariant FirstAccepting(replies, 0, |cs|) == FirstAccepting(replies, i, |cs|)
        invariant failures == RefusalMessages(replies, i)
        invariant id in tasks && State() ==
                    SetTask(old(State()), id, task.(attempts := task.attempts + RefusedAttempts(ids, replies, i, now)))
      {
        var reply := ReplyAt(replies, i);
        TryCandidate(id, cs[i], reply);
        if reply.Accepted? {
          return true;
        }
        failures := failures + [reply.message];
        RefusedStep(task.attempts, ids, replies, i, now);
        i := i + 1;
      }
      tasks := tasks[id := tasks[id].(logs := task.logs + [DispatchExhausted(failures)], updatedAt := now)];
      return false;
    }

    /** One try of dispatch job `j`. */
    method Process(j: nat, replies: seq<Reply>) returns (threw: bool)
      requires j < |jobs| && jobs[j].state.Waiting?
      modifies `tasks, `jobs, `outbox
      ensures State() == Apply(cfg, old(State()), RunJob(j, replies))
      ensures !threw <==> jobs[j].state.Done?
    {
      var id := jobs[j].taskId;
      if id !in tasks || !tasks[id].status.Queued? {
        jobs := jobs[j := jobs[j].(state := Done)];
        return false;
      }
      var task := tasks[id];
      var candidates :=
        GetDispatchCandidates(cfg.col, cfg.rank, servers, profiles, task.workerType, task.serverId, ExcludedServers(task.attempts));
      if candidates.None? || |candidates.value| == 0 {
        jobs := jobs[j := Thrown(jobs[j])];
        return true;
      }
      var accepted := OfferInOrder(id, candidates.value, replies);
      jobs := jobs[j := if accepted then jobs[j].(state := Done) else Thrown(jobs[j])];
      return !accepted;
    }

    /** The body of the watchdog loop for one row. */
    method CheckStaleTask(id: TaskId) returns (acted: bool)
      requires id in tasks && StaleRow(tasks[id], cfg.watchdog, now)
      modifies `tasks, `jobs
      ensures acted == WatchdogActs(old(tasks)[id], cfg.watchdog, now)
      ensures State() == ScanOne(cfg, old(State()), id)
    {
      var task := tasks[id];
      if |task.attempts| == 0 || !Live(task.attempts[|task.attempts| - 1])
         || task.attempts[|task.attempts| - 1].lastSeenAt >= now - cfg.watchdog.timeout {
        assert tasks == tasks[id := tasks[id]];
        return false;
      }
      var timedOut := TimedOutCount(task.attempts);
      var attempt := task.attempts[|task.attempts| - 1];
      tasks := tasks[id := task.(attempts := task.attempts[|task.attempts| - 1 :=
        attempt.(status := TimedOut, failureReason := Some(WATCHDOG_REASON))])];
      if timedOut >= cfg.watchdog.maxRequeues {
        tasks := tasks[id := tasks[id].(status := TaskStatus.Failed, logs := task.logs + [WatchdogFailed], updatedAt := now)];
      } else {
        tasks := tasks[id := tasks[id].(
          status := TaskStatus.Queued, logs := task.logs + [WatchdogRequeued(attempt.serverId)], updatedAt := now)];
        RequeueTask(id);
      }
      return true;
    }

    /** One watchdog pass over the rows the query returned.  Although the loop
        handles them one after the other, every stale task makes its own
        transition, and the result counts the tasks acted on. */
    method ScanStuckTasksOnce(rows: seq<TaskId>) returns (handled: nat)
      requires StaleRows(cfg, State(), rows)
      modifies `tasks, `jobs
      ensures State() == Apply(cfg, old(State()), Scan(rows))
      ensures handled == |Acted(cfg, old(State()))|
    {
      ghost var s := State();
      handled := 0;
      var i := 0;
      while i < |rows|
        invariant 0 <= i <= |rows|
        invariant State() == ScanEach(cfg, s, rows, i)
        invariant handled == CountRows(Acted(cfg, s), rows, i)
      {
        NextRow(cfg, s, rows, i);
        var acted := CheckStaleTask(rows[i]);
        if acted {
          handled := handled + 1;
        }
        i := i + 1;
      }
      ScanComplete(cfg, s, rows);
      CountComplete(cfg, s, rows);
    }
  }

  lemma RefusedStep(attempts: seq<Attempt>, ids: seq<ServerId>, replies: seq<Reply>, i: nat, now: Time)
    requires i < |ids| && ReplyAt(replies, i).Refused?
    ensures attempts + RefusedAttempts(ids, replies, i + 1, now)
            == (attempts + RefusedAttempts(ids, replies, i, now)) + [RefusedAttempt(ids[i], ReplyAt(replies, i), now)]
    ensures RefusalMessages(replies, i + 1) == RefusalMessages(replies, i) + [ReplyAt(replies, i).message]
  {
    assert RefusedAttempts(ids, replies, i + 1, now)
        == RefusedAttempts(ids, replies, i, now) + [RefusedAttempt(ids[i], ReplyAt(replies, i), now)];
  }

  /** The tasks a scan of `s` acts on. */
  ghost function Acted(cfg: Config, s: HubState): set<TaskId> {
    set id | id in s.tasks && WatchdogActs(s.tasks[id], cfg.watchdog, s.now)
  }

  /** One turn of the watchdog loop. */
  ghost function ScanOne(cfg: Config, s: HubState, id: TaskId): HubState {
    if id !in s.tasks then s
    else
      var scanned := SetTask(s, id, ScanTask(cfg, s.tasks[id], s.now));
      if ScanRequeues(cfg, s.tasks[id], s.now) then Requeue(scanned, id) else scanned
  }

  /** The first `n` rows, one after the other. */
  ghost function ScanEach(cfg: Config, s: HubState, rows: seq<TaskId>, n: nat): HubState
    requires n <= |rows|
  {
    if n == 0 then s else ScanOne(cfg, ScanEach(cfg, s, rows, n - 1), rows[n - 1])
  }

  /** How many of the first `n` rows are among `acted`. */
  ghost function CountRows(acted: set<TaskId>, rows: seq<TaskId>, n: nat): nat
    requires n <= |rows|
  {
    if n == 0 then 0 else CountRows(acted, rows, n - 1) + (if rows[n - 1] in acted then 1 else 0)
  }

  /** The first `n` rows, as a set. */
  ghost function Taken(rows: seq<TaskId>, n: nat): set<TaskId>
    requires n <= |rows|
  {
    set k | 0 <= k < n :: rows[k]
  }

  lemma TakeOneMore(rows: seq<TaskId>, n: nat)
    requires n < |rows|
    ensures Taken(rows, n + 1) == Taken(rows, n) + {rows[n]}
  {
  }

  /** `after` is `before` with `f` applied to the rows in `done`. */
  ghost predicate AppliedTo(f: Task -> Task, before: map<TaskId, Task>, after: map<TaskId, Task>, done: set<TaskId>) {
    && after.Keys == before.Keys
    && forall id :: id in before ==> after[id] == if id in done then f(before[id]) else before[id]
  }

  lemma ApplyOneMore(f: Task -> Task, before: map<TaskId, Task>, after: map<TaskId, Task>, done: set<TaskId>, id: TaskId)
    requires AppliedTo(f, before, after, done) && id in before && id !in done
    ensures AppliedTo(f, before, after[id := f(after[id])], done + {id})
  {
  }

  function Scanner(cfg: Config, now: Time): Task -> Task { (t: Task) => ScanTask(cfg, t, now) }

  lemma MoreJobs(jobs: seq<Job>, sofar: seq<TaskId>, id: TaskId)
    ensures jobs + NewJobs(sofar) + NewJobs([id]) == jobs + NewJobs(sofar + [id])
  {
  }

  /** Each row is a task, and no row comes twice. */
  ghost predicate DistinctRows(s: HubState, rows: seq<TaskId>) {
    && (forall k :: 0 <= k < |rows| ==> rows[k] in s.tasks)
    && (forall i, j :: 0 <= i < j < |rows| ==> rows[i] != rows[j])
  }

  /** Scanning rows in sequence applies the same transition to each of them, alone. */
  lemma {:induction false} ScanEachIs(cfg: Config, s: HubState, rows: seq<TaskId>, n: nat)
    requires DistinctRows(s, rows) && n <= |rows|
    ensures var s' := ScanEach(cfg, s, rows, n);
            && AppliedTo(Scanner(cfg, s.now), s.tasks, s'.tasks, Taken(rows, n))
            && s' == s.(tasks := s'.tasks, jobs := s.jobs + NewJobs(Requeued(cfg, s, rows, n)))
  {
    if n == 0 {
      assert s.jobs + NewJobs([]) == s.jobs;
    } else {
      ScanEachIs(cfg, s, rows, n - 1);
      TakeOneMore(rows, n - 1);
      ScanOneIs(cfg, s, ScanEach(cfg, s, rows, n - 1), rows, n - 1);
    }
  }

  lemma ScanOneIs(cfg: Config, s: HubState, before: HubState, rows: seq<TaskId>, i: nat)
    requires i < |rows| && rows[i] in s.tasks && rows[i] !in Taken(rows, i)
    requires AppliedTo(Scanner(cfg, s.now), s.tasks, before.tasks, Taken(rows, i))
    requires before == s.(tasks := before.tasks, jobs := s.jobs + NewJobs(Requeued(cfg, s, rows, i)))
    ensures var s' := ScanOne(cfg, before, rows[i]);
            && AppliedTo(Scanner(cfg, s.now), s.tasks, s'.tasks, Taken(rows, i) + {rows[i]})
            && s' == s.(tasks := s'.tasks, jobs := s.jobs + NewJobs(Requeued(cfg, s, rows, i + 1)))
  {
    ApplyOneMore(Scanner(cfg, s.now), s.tasks, before.tasks, Taken(rows, i), rows[i]);
    MoreJobs(s.jobs, Requeued(cfg, s, rows, i), rows[i]);
  }

  /** When its turn comes, a row is still as the query saw it. */
  lemma NextRow(cfg: Config, s: HubState, rows: seq<TaskId>, i: nat)
    requires StaleRows(cfg, s, rows) && i < |rows|
    ensures var before := ScanEach(cfg, s, rows, i);
            && rows[i] in s.tasks && rows[i] in before.tasks && before.tasks[rows[i]] == s.tasks[rows[i]]
            && before.now == s.now && StaleRow(s.tasks[rows[i]], cfg.watchdog, s.now)
  {
    assert rows[i] in rows;
    ScanEachIs(cfg, s, rows, i);
  }

  /** Rows the query did not return are rows the watchdog would not act on. */
  lemma NotTakenNotStale(cfg: Config, s: HubState, rows: seq<TaskId>, id: TaskId)
    requires StaleRows(cfg, s, rows) && id in s.tasks && id !in Taken(rows, |rows|)
    ensures !WatchdogActs(s.tasks[id], cfg.watchdog, s.now)
  {
    assert id !in rows;
  }

  lemma OneMoreActed(acted: set<TaskId>, taken: set<TaskId>, id: TaskId)
    requires id !in taken
    ensures |acted * (taken + {id})| == |acted * taken| + if id in acted then 1 else 0
  {
    assert acted * (taken + {id}) == if id in acted then acted * taken + {id} else acted * taken;
  }

  lemma {:induction false} CountIs(acted: set<TaskId>, rows: seq<TaskId>, n: nat)
    requires n <= |rows| && forall i, j :: 0 <= i < j < |rows| ==> rows[i] != rows[j]
    ensures CountRows(acted, rows, n) == |acted * Taken(rows, n)|
  {
    if n == 0 {
      assert acted * Taken(rows, 0) == {};
    } else {
      CountIs(acted, rows, n - 1);
      TakeOneMore(rows, n - 1);
      OneMoreActed(acted, Taken(rows, n - 1), rows[n - 1]);
    }
  }

  lemma AppliedEverywhere(f: Task -> Task, before: map<TaskId, Task>, after: map<TaskId, Task>, done: set<TaskId>)
    requires AppliedTo(f, before, after, done)
    requires forall id :: id in before && id !in done ==> f(before[id]) == before[id]
    ensures after == map id | id in before :: f(before[id])
  {
  }

  /** After the last row the whole table has made the scan's transition. */
  lemma ScanComplete(cfg: Config, s: HubState, rows: seq<TaskId>)
    requires StaleRows(cfg, s, rows)
    ensures ScanEach(cfg, s, rows, |rows|) == DoScan(cfg, s, rows)
  {
    var f := Scanner(cfg, s.now);
    ScanEachIs(cfg, s, rows, |rows|);
    forall id | id in s.tasks && id !in Taken(rows, |rows|) ensures f(s.tasks[id]) == s.tasks[id] {
      NotTakenNotStale(cfg, s, rows, id);
    }
    AppliedEverywhere(f, s.tasks, ScanEach(cfg, s, rows, |rows|).tasks, Taken(rows, |rows|));
    assert DoScan(cfg, s, rows).tasks == map id | id in s.tasks :: f(s.tasks[id]);
  }

  lemma CountComplete(cfg: Config, s: HubState, rows: seq<TaskId>)
    requires StaleRows(cfg, s, rows)
    ensures CountRows(Acted(cfg, s), rows, |rows|) == |Acted(cfg, s)|
  {
    var acted := Acted(cfg, s);
    CountIs(acted, rows, |rows|);
    forall id | id in acted ensures id in Taken(rows, |rows|) {
      if id !in Taken(rows, |rows|) { NotTakenNotStale(cfg, s, rows, id); }
    }
    assert acted * Taken(rows, |rows|) == acted;
  }
}
