/** Laws of the Hub's steps that do not go through its own predicates: which step
    writes which status, what a result does, how often a job is tried. */
module HubLaws {
  import opened Common
  import opened Tasks
  import opened WorkerRegistry
  import opened Hub
  import opened HubInvariants

  // ----- results -----

  /** The payload fields that make the Hub try another server. */
  predicate AsksForFailover(p: ResultPayload) {
    && !p.completed && p.failure.Some? && p.failure.value.category == CapacityExhausted
    && (p.failure.value.retryable == None || p.failure.value.retryable == Some(true))
  }

  /** The server can take the task over: it belongs to the user whose server the
      task is on, is online, offers Codex, and has not failed this task. */
  ghost predicate CanTakeOver(s: HubState, t: Task, x: ServerId) {
    && t.serverId in s.servers && x in s.servers && s.servers[x].ownerId == s.servers[t.serverId].ownerId
    && s.servers[x].online
    && (exists p :: p in s.profiles && p.serverId == x && p.enabled && p.provider == CodexProvider)
    && x !in ExcludedServers(t.attempts)
    && !(HasLive(t.attempts) && x == t.serverId)
  }

  lemma ClosedExclusions(s: HubState, t: Task, p: ResultPayload)
    requires TaskInv(s.servers, s.now, t)
    ensures ExcludedServers(CloseForCapacity(t, p, s.now).attempts)
         == ExcludedServers(t.attempts) + (if HasLive(t.attempts) then {t.serverId} else {})
  {
    var closed := CloseForCapacity(t, p, s.now);
    ReasonHasPrefix(p);
    LatestLiveIsLast(t);
    if HasLive(t.attempts) { ReplaceLast(t.attempts, closed.attempts[|t.attempts| - 1]); }
  }

  lemma CandidateTakesOver(s: HubState, t: Task, excluded: set<ServerId>, c: Candidate)
    requires t.serverId in s.servers && c in EligibleRows(s.servers, s.profiles, CodexProvider, s.servers[t.serverId].ownerId, excluded)
    requires excluded == ExcludedServers(t.attempts) + (if HasLive(t.attempts) then {t.serverId} else {})
    ensures CanTakeOver(s, t, c.serverId)
  {
    var owner := s.servers[t.serverId].ownerId;
    var q :| q in s.profiles && EligibleProfile(s.servers, q, CodexProvider, owner, excluded) && c == ToCandidate(s.servers, q);
  }

  lemma TakerIsCandidate(s: HubState, t: Task, excluded: set<ServerId>, x: ServerId) returns (c: Candidate)
    requires CanTakeOver(s, t, x)
    requires excluded == ExcludedServers(t.attempts) + (if HasLive(t.attempts) then {t.serverId} else {})
    ensures c in EligibleRows(s.servers, s.profiles, CodexProvider, s.servers[t.serverId].ownerId, excluded)
  {
    var q :| q in s.profiles && q.serverId == x && q.enabled && q.provider == CodexProvider;
    assert EligibleProfile(s.servers, q, CodexProvider, s.servers[t.serverId].ownerId, excluded);
    c := ToCandidate(s.servers, q);
  }

  /** After the failed attempt is closed there are candidates exactly if some server
      can take the task over. */
  lemma CandidatesIff(cfg: Config, s: HubState, t: Task, p: ResultPayload)
    requires ConfigOk(cfg) && TaskInv(s.servers, s.now, t) && t.workerType == Codex
    ensures var cs := CandidatesFor(cfg, s, CloseForCapacity(t, p, s.now));
            cs.Some? && (|cs.value| > 0 <==> exists x :: CanTakeOver(s, t, x))
  {
    var closed := CloseForCapacity(t, p, s.now);
    var excluded := ExcludedServers(closed.attempts);
    var rows := Rows(cfg.col, s.servers, s.profiles, CodexProvider, s.servers[t.serverId].ownerId, excluded);
    var cs := CandidatesFor(cfg, s, closed).value;
    ClosedExclusions(s, t, p);
    SameMembers(cs, rows);
    if |cs| > 0 {
      assert cs[0] in rows;
      CandidateTakesOver(s, t, excluded, cs[0]);
    }
    if exists x :: CanTakeOver(s, t, x) {
      var x :| CanTakeOver(s, t, x);
      var c := TakerIsCandidate(s, t, excluded, x);
      assert c in cs;
    }
  }

  lemma FailoverFields(p: ResultPayload)
    ensures AsksForFailover(p) <==> IsRetryableCapacityFailure(p)
  {
    if p.failure.Some? {
      var r := p.failure.value.retryable;
      if r.Some? { if r.value { assert r == Some(true); } else { assert r == Some(false); } }
    }
  }

  /** What a result does to a known Codex task.  A capacity failure that does not
      say `retryable: false` queues the task once more, with one new job, if some
      server can take it over, and otherwise fails it.  Every other result sets the
      status it reports.  Unless the task is queued, the result is stored and no
      job is added. */
  lemma ResultLaw(cfg: Config, s: HubState, id: TaskId, p: ResultPayload)
    requires ConfigOk(cfg) && Inv(s) && id in s.tasks && s.tasks[id].workerType == Codex
    ensures var s' := Apply(cfg, s, ResultEvent(id, p));
            var t, u := s.tasks[id], s'.tasks[id];
            if AsksForFailover(p) && exists x :: CanTakeOver(s, t, x) then
              u.status == TaskStatus.Queued && s'.jobs == s.jobs + [Job(id, Waiting(0))] && u.result == t.result
            else
              && u.status == (if p.completed then TaskStatus.Completed else TaskStatus.Failed)
              && s'.jobs == s.jobs && u.result == Some(p.result)
  {
    FailoverFields(p);
    CandidatesIff(cfg, s, s.tasks[id], p);
    assert NewJobs([id]) == [Job(id, Waiting(0))];
  }

  /** So of the capacity failures with a server left, exactly those that do not say
      `retryable: false` are failed over. */
  lemma FailoverIff(cfg: Config, s: HubState, id: TaskId, p: ResultPayload, x: ServerId)
    requires ConfigOk(cfg) && Inv(s) && id in s.tasks && s.tasks[id].workerType == Codex && CanTakeOver(s, s.tasks[id], x)
    requires !p.completed && p.failure.Some? && p.failure.value.category == CapacityExhausted
    ensures Apply(cfg, s, ResultEvent(id, p)).tasks[id].status == TaskStatus.Queued
            <==> p.failure.value.retryable == None || p.failure.value.retryable == Some(true)
  {
    ResultLaw(cfg, s, id, p);
  }

  /** For a worker type without an adapter the handler throws before it writes. */
  lemma UnsupportedResultLaw(cfg: Config, s: HubState, id: TaskId, p: ResultPayload)
    requires id in s.tasks && s.tasks[id].workerType != Codex
    ensures var s' := Apply(cfg, s, ResultEvent(id, p));
            var t, u := s.tasks[id], s'.tasks[id];
            && s'.jobs == s.jobs
            && (if AsksForFailover(p) then u.status == t.status && u.result == t.result
                else u.status == (if p.completed then TaskStatus.Completed else TaskStatus.Failed) && u.result == Some(p.result))
  {
    FailoverFields(p);
  }

  // ----- the live attempt -----

  lemma FinishedAttempt(t: Task, succeeded: bool, reason: Option<string>, now: Time)
    requires LiveInv(t) && HasLive(t.attempts)
    ensures var n := |t.attempts| - 1;
            && n >= 0 && |Finish(t.attempts, succeeded, reason, now)| == n + 1
            && Finish(t.attempts, succeeded, reason, now)[..n] == t.attempts[..n]
            && Finish(t.attempts, succeeded, reason, now)[n].status == (if succeeded then Succeeded else AttemptStatus.Failed)
            && Finish(t.attempts, succeeded, reason, now)[n].serverId == t.serverId
  {
    LatestLiveIsLast(t);
  }

  /** A result settles the live attempt: SUCCEEDED exactly if it says completed,
      FAILED otherwise; older attempts and the attempt's server stay. */
  lemma ResultSettlesAttempt(cfg: Config, s: HubState, id: TaskId, p: ResultPayload)
    requires Inv(s) && id in s.tasks && HasLive(s.tasks[id].attempts)
    ensures var t, u := s.tasks[id], Apply(cfg, s, ResultEvent(id, p)).tasks[id];
            var n := |t.attempts| - 1;
            && n >= 0 && |u.attempts| == n + 1 && u.attempts[..n] == t.attempts[..n]
            && u.attempts[n].status == (if p.completed then Succeeded else AttemptStatus.Failed)
            && u.attempts[n].serverId == t.serverId
  {
    var t := s.tasks[id];
    FinishedAttempt(t, p.completed, if p.completed then None else Some(ORDINARY_FAILURE), s.now);
    FinishedAttempt(t, false, Some(FormatStructuredFailureReason(p)), s.now);
  }

  // ----- exclusions -----

  lemma OrdinaryReason(s: string)
    requires s == ORDINARY_FAILURE
    ensures !("CAPACITY_EXHAUSTED" <= s)
  {
    assert s[0] == 'D' && "CAPACITY_EXHAUSTED"[0] == 'C';
  }

  lemma FinishExcludes(t: Task, succeeded: bool, reason: Option<string>, now: Time)
    requires LiveInv(t)
    ensures ExcludedServers(Finish(t.attempts, succeeded, reason, now))
         == ExcludedServers(t.attempts)
            + (if HasLive(t.attempts) && Excludes(Finish(t.attempts, succeeded, reason, now)[|t.attempts| - 1]) then {t.serverId} else {})
  {
    LatestLiveIsLast(t);
    if HasLive(t.attempts) { ReplaceLast(t.attempts, Finish(t.attempts, succeeded, reason, now)[|t.attempts| - 1]); }
  }

  /** A result excludes a server exactly if it asks for failover and the task has a
      live attempt, and then the server of that attempt. */
  lemma ResultExcludes(cfg: Config, s: HubState, id: TaskId, p: ResultPayload)
    requires Inv(s) && id in s.tasks
    ensures var t, u := s.tasks[id], Apply(cfg, s, ResultEvent(id, p)).tasks[id];
            ExcludedServers(u.attempts)
            == ExcludedServers(t.attempts) + (if AsksForFailover(p) && HasLive(t.attempts) then {t.serverId} else {})
  {
    var t := s.tasks[id];
    FailoverFields(p);
    ClosedExclusions(s, t, p);
    OrdinaryReason(ORDINARY_FAILURE);
    FinishExcludes(t, p.completed, if p.completed then None else Some(ORDINARY_FAILURE), s.now);
    LatestLiveIsLast(t);
  }

  /** The reason a capacity failure leaves on the attempt: the prefix that later
      excludes the server, the daemon's message, and at most 500 characters of detail. */
  lemma ReasonCarriesMessage(p: ResultPayload, message: string)
    requires p.failure.Some? && p.failure.value.message == Some(message)
    ensures var reason := FormatStructuredFailureReason(p);
            && "CAPACITY_EXHAUSTED: " + message <= reason
            && |reason| <= 20 + |message| + 8 + 500
            && (p.failure.value.detail == None ==> reason == "CAPACITY_EXHAUSTED: " + message)
  {
    assert CAPACITY_PREFIX + ": " == "CAPACITY_EXHAUSTED: ";
  }
}
