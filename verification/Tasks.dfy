/** Task rows with their attempt history, and what each handler of
    `tasks.service.ts`, `tasks.processor.ts` and `approvals.service.ts` does to
    one task row.  Attempts are kept in creation order. */
module Tasks {
  import opened Common

  const CAPACITY_PREFIX := "CAPACITY_EXHAUSTED"

  datatype WorkerType = Codex | Claude | Gemini

  datatype AttemptStatus = Dispatching | Running | Succeeded | Failed | TimedOut

  datatype ApprovalStatus = Pending | Approved | Rejected

  datatype Attempt = Attempt(
    serverId: ServerId,
    status: AttemptStatus,
    failureReason: Option<string>,
    lastSeenAt: Time)

  /** A stretch of `task.logs`, tagged with its writer: a chunk that a server's
      daemon streamed, or a line the Hub wrote itself. */
  datatype LogSegment =
    | Chunk(server: ServerId, text: string)
    | DispatchExhausted(failures: seq<string>)
    | WatchdogFailed
    | WatchdogRequeued(server: ServerId)
    | CapacityFailover(failed: ServerId, next: ServerId)
    | CapacityGaveUp(failed: ServerId)

  /** `submitter` is a history variable: the user whose `submit` created the row. */
  datatype Task = Task(
    submitter: UserId,
    serverId: ServerId,
    workerType: WorkerType,
    status: TaskStatus,
    logs: seq<LogSegment>,
    result: Option<string>,
    updatedAt: Time,
    attempts: seq<Attempt>,
    approval: Option<ApprovalStatus>)

  predicate Live(a: Attempt) {
    a.status.Dispatching? || a.status.Running?
  }

  /** The row filter of `retryExcludedServerIds`. */
  predicate Excludes(a: Attempt) {
    || a.status.TimedOut?
    || (a.status.Failed? && a.failureReason.Some? && CAPACITY_PREFIX <= a.failureReason.value)
  }

  function ExcludedServers(attempts: seq<Attempt>): set<ServerId> {
    set i | 0 <= i < |attempts| && Excludes(attempts[i]) :: attempts[i].serverId
  }

  function TimedOutCount(attempts: seq<Attempt>): nat {
    if |attempts| == 0 then 0
    else TimedOutCount(attempts[..|attempts| - 1]) + (if attempts[|attempts| - 1].status.TimedOut? then 1 else 0)
  }

  ghost predicate HasLive(attempts: seq<Attempt>) {
    exists i :: 0 <= i < |attempts| && Live(attempts[i])
  }

  /** `findFirst` over the live attempts, newest first. */
  function LatestLive(attempts: seq<Attempt>): (k: Option<nat>)
    ensures k.Some? ==> k.value < |attempts| && Live(attempts[k.value])
    ensures k.Some? ==> forall i :: k.value < i < |attempts| ==> !Live(attempts[i])
    ensures k.None? ==> !HasLive(attempts)
  {
    if |attempts| == 0 then None
    else if Live(attempts[|attempts| - 1]) then Some(|attempts| - 1)
    else LatestLive(attempts[..|attempts| - 1])
  }

  // ----- the helpers of TasksService -----

  /** `touchRunningAttempt` */
  function Touch(attempts: seq<Attempt>, now: Time): seq<Attempt> {
    match LatestLive(attempts)
    case None => attempts
    case Some(k) => attempts[k := attempts[k].(status := AttemptStatus.Running, lastSeenAt := now)]
  }

  /** `finishRunningAttempt`; a missing reason leaves the column as it was. */
  function Finish(attempts: seq<Attempt>, succeeded: bool, reason: Option<string>, now: Time): seq<Attempt> {
    match LatestLive(attempts)
    case None => attempts
    case Some(k) =>
      attempts[k := attempts[k].(
        status := if succeeded then Succeeded else AttemptStatus.Failed,
        failureReason := if reason.Some? then reason else attempts[k].failureReason,
        lastSeenAt := now)]
  }

  predicate IsRetryableCapacityFailure(p: ResultPayload) {
    && !p.completed
    && p.failure.Some?
    && p.failure.value.category.CapacityExhausted?
    && p.failure.value.retryable != Some(false)
  }

  function FormatStructuredFailureReason(p: ResultPayload): string {
    var message := if p.failure.Some? && p.failure.value.message.Some? then p.failure.value.message.value
                   else "Retryable worker capacity failure.";
    var detail :=
      if p.failure.Some? && p.failure.value.detail.Some? && p.failure.value.detail.value != "" then
        var d := p.failure.value.detail.value;
        " detail=" + (if |d| <= 500 then d else d[..500])
      else "";
    CAPACITY_PREFIX + ": " + message + detail
  }

  const ORDINARY_FAILURE := "Daemon reported task failure."

  // ----- what each handler does to the row -----

  function OnStatus(t: Task, status: TaskStatus, now: Time): Task {
    t.(attempts := Touch(t.attempts, now), status := status, updatedAt := now)
  }

  function OnLog(t: Task, from: ServerId, chunk: string, now: Time): Task {
    t.(attempts := Touch(t.attempts, now), logs := t.logs + [Chunk(from, chunk)], updatedAt := now)
  }

  /** The branch of `handleDaemonTaskResult` for results that are not retryable. */
  function OnResult(t: Task, p: ResultPayload, now: Time): Task {
    t.(attempts := Finish(t.attempts, p.completed, if p.completed then None else Some(ORDINARY_FAILURE), now),
       status := if p.completed then TaskStatus.Completed else TaskStatus.Failed,
       result := Some(p.result),
       updatedAt := now)
  }

  /** First half of `handleRetryableCapacityFailure`: only attempt rows change. */
  function CloseForCapacity(t: Task, p: ResultPayload, now: Time): Task {
    t.(attempts := Finish(t.attempts, false, Some(FormatStructuredFailureReason(p)), now))
  }

  /** Second half, once the remaining candidates are known: requeue or give up. */
  function CapacityRequeue(t: Task, next: ServerId, now: Time): Task {
    t.(status := TaskStatus.Queued, logs := t.logs + [CapacityFailover(t.serverId, next)], updatedAt := now)
  }

  function CapacityGiveUp(t: Task, p: ResultPayload, now: Time): Task {
    t.(status := TaskStatus.Failed, result := Some(p.result),
       logs := t.logs + [CapacityGaveUp(t.serverId)], updatedAt := now)
  }

  /** `handleDaemonApprovalRequest`; `approvals.taskId` is unique, so a second
      request for the same task fails in the database and changes nothing. */
  function OnApprovalRequest(t: Task, now: Time): Task {
    if t.approval.Some? then t
    else t.(approval := Some(Pending), status := AwaitingApproval, updatedAt := now)
  }

  function OnDecision(t: Task, approve: bool, now: Time): Task {
    t.(approval := Some(if approve then Approved else Rejected),
       status := if approve then TaskStatus.Running else Cancelled,
       updatedAt := now)
  }

  function OnCancel(t: Task, now: Time): Task {
    t.(status := Cancelled, updatedAt := now)
  }

  // ----- the dispatch loop -----

  /** What the adapter answers for one candidate. */
  datatype Reply = Accepted | Refused(message: string)

  function ReplyAt(replies: seq<Reply>, i: nat): Reply {
    if i < |replies| then replies[i] else Refused("no answer")
  }

  /** The first index from `i` on, below `n`, whose candidate accepts; `n` if none does. */
  function FirstAccepting(replies: seq<Reply>, i: nat, n: nat): (k: nat)
    requires i <= n
    ensures i <= k <= n
    ensures k < n ==> ReplyAt(replies, k).Accepted?
    ensures forall j :: i <= j < k ==> ReplyAt(replies, j).Refused?
    decreases n - i
  {
    if i == n || ReplyAt(replies, i).Accepted? then i else FirstAccepting(replies, i + 1, n)
  }

  function RefusedAttempt(server: ServerId, r: Reply, now: Time): Attempt {
    Attempt(server, AttemptStatus.Failed, Some(if r.Refused? then r.message else ""), now)
  }

  /** One FAILED row for each of the first `k` servers. */
  function RefusedAttempts(servers: seq<ServerId>, replies: seq<Reply>, k: nat, now: Time): seq<Attempt>
    requires k <= |servers|
  {
    seq(k, i requires 0 <= i < k => RefusedAttempt(servers[i], ReplyAt(replies, i), now))
  }

  function RefusalMessages(replies: seq<Reply>, k: nat): seq<string> {
    seq(k, i requires 0 <= i < k => var r := ReplyAt(replies, i); if r.Refused? then r.message else "")
  }

  /** The task row after a dispatch job offered it to `servers` in order. */
  function AfterDispatch(t: Task, servers: seq<ServerId>, replies: seq<Reply>, now: Time): Task {
    var k := FirstAccepting(replies, 0, |servers|);
    if k < |servers| then
      t.(attempts := t.attempts + RefusedAttempts(servers, replies, k, now)
                     + [Attempt(servers[k], AttemptStatus.Running, None, now)],
         serverId := servers[k], status := TaskStatus.Running, updatedAt := now)
    else
      t.(attempts := t.attempts + RefusedAttempts(servers, replies, k, now),
         logs := t.logs + [DispatchExhausted(RefusalMessages(replies, k))], updatedAt := now)
  }

  // ----- the watchdog -----

  datatype WatchdogConfig = WatchdogConfig(timeout: nat, maxRequeues: nat)

  /** The `where` of the stale-task query. */
  predicate StaleRow(t: Task, w: WatchdogConfig, now: Time) {
    t.status.Running? && t.updatedAt < now - w.timeout
  }

  /** The query together with the two `continue` guards of the loop. */
  predicate WatchdogActs(t: Task, w: WatchdogConfig, now: Time) {
    && StaleRow(t, w, now)
    && |t.attempts| > 0
    && Live(t.attempts[|t.attempts| - 1])
    && t.attempts[|t.attempts| - 1].lastSeenAt < now - w.timeout
  }

  const WATCHDOG_REASON := "No daemon update within the watchdog timeout."

  function TimeOutLast(attempts: seq<Attempt>): seq<Attempt>
    requires |attempts| > 0
  {
    attempts[|attempts| - 1 :=
      attempts[|attempts| - 1].(status := TimedOut, failureReason := Some(WATCHDOG_REASON))]
  }

  predicate WatchdogRequeues(t: Task, w: WatchdogConfig) {
    TimedOutCount(t.attempts) < w.maxRequeues
  }

  function AfterWatchdog(t: Task, w: WatchdogConfig, now: Time): Task
    requires |t.attempts| > 0
  {
    if WatchdogRequeues(t, w) then
      t.(attempts := TimeOutLast(t.attempts), status := TaskStatus.Queued,
         logs := t.logs + [WatchdogRequeued(t.attempts[|t.attempts| - 1].serverId)], updatedAt := now)
    else
      t.(attempts := TimeOutLast(t.attempts), status := TaskStatus.Failed,
         logs := t.logs + [WatchdogFailed], updatedAt := now)
  }
}
