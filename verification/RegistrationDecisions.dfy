/** What an owner's decision on a registration request brings about, over whole
    runs: which requests get a server, and which key is fetched. */
module RegistrationDecisions {
  import opened Common
  import opened Registration

  /** The request waits for a decision and may still be decided. */
  ghost predicate Open(s: RegState, id: RequestId) {
    id in s.requests && s.requests[id].status == Pending && s.now <= s.requests[id].expiresAt
  }

  /** The step is the owner's decision on a request that is open. */
  ghost predicate Decides(s: RegState, step: RStep, id: RequestId, approve: bool) {
    step.Decide? && step.id == id && step.approve == approve && Open(s, id) && step.owner == s.requests[id].ownerId
  }

  ghost predicate HasServer(s: RegState, id: RequestId, x: ServerId) {
    x in s.servers && s.servers[x].origin == Some(id)
  }

  // ----- a server exactly by approval -----

  /** Step `k` of the run is the owner's approval of the open request, with `x` as
      the server's id. */
  ghost predicate ApprovedAt(c: Crypto, s0: RegState, steps: seq<RStep>, k: int, id: RequestId, x: ServerId) {
    0 <= k < |steps| && Decides(RRun(c, s0, steps[..k]), steps[k], id, true) && steps[k].server == x
  }

  lemma ServerStep(c: Crypto, s: RegState, step: RStep, id: RequestId, x: ServerId)
    requires RStepOk(s, step)
    ensures HasServer(RApply(c, s, step), id, x) <==> HasServer(s, id, x) || (Decides(s, step, id, true) && step.server == x)
  {
  }

  lemma ApprovedAtSnoc(c: Crypto, s0: RegState, steps: seq<RStep>, id: RequestId, x: ServerId)
    requires |steps| > 0
    ensures var n := |steps| - 1;
            (exists k :: ApprovedAt(c, s0, steps, k, id, x)) <==>
              (exists k :: ApprovedAt(c, s0, steps[..n], k, id, x)) || ApprovedAt(c, s0, steps, n, id, x)
  {
    var n := |steps| - 1;
    if k :| ApprovedAt(c, s0, steps[..n], k, id, x) {
      assert steps[..n][..k] == steps[..k];
      assert ApprovedAt(c, s0, steps, k, id, x);
    }
    if k :| ApprovedAt(c, s0, steps, k, id, x) && k < n {
      assert steps[..n][..k] == steps[..k];
      assert ApprovedAt(c, s0, steps[..n], k, id, x);
    }
  }

  /** In every run a server was created for a request exactly if the request's owner
      approved it while it was pending and not past its expiry; the server is the
      one of that step. */
  lemma {:induction false} ServerIffApproved(c: Crypto, s0: RegState, steps: seq<RStep>, id: RequestId, x: ServerId)
    requires RInitial(s0) && RRunOk(c, s0, steps)
    ensures HasServer(RRun(c, s0, steps), id, x) <==> exists k :: ApprovedAt(c, s0, steps, k, id, x)
  {
    if |steps| > 0 {
      var n := |steps| - 1;
      ServerIffApproved(c, s0, steps[..n], id, x);
      ServerStep(c, RRun(c, s0, steps[..n]), steps[n], id, x);
      ApprovedAtSnoc(c, s0, steps, id, x);
    }
  }

  // ----- rejection -----

  /** The request is closed without a server. */
  ghost predicate Refused(s: RegState, id: RequestId) {
    && id in s.requests && (s.requests[id].status == Rejected || s.requests[id].status == Expired)
    && forall x :: !HasServer(s, id, x)
  }

  lemma RefusedStep(c: Crypto, s: RegState, step: RStep, id: RequestId)
    requires RStepOk(s, step) && Refused(s, id)
    ensures Refused(RApply(c, s, step), id)
  {
    forall x ensures !HasServer(RApply(c, s, step), id, x) { ServerStep(c, s, step, id, x); }
  }

  lemma {:induction false} RefusedRun(c: Crypto, s: RegState, steps: seq<RStep>, id: RequestId)
    requires RRunOk(c, s, steps) && Refused(s, id)
    ensures Refused(RRun(c, s, steps), id)
  {
    if |steps| > 0 {
      RefusedRun(c, s, steps[..|steps| - 1], id);
      RefusedStep(c, RRun(c, s, steps[..|steps| - 1]), steps[|steps| - 1], id);
    }
  }

  /** The owner's rejection of an open request leaves the servers as they are, and no
      continuation ever creates a server for it. */
  lemma RejectionIsFinal(c: Crypto, s: RegState, step: RStep, steps: seq<RStep>, id: RequestId)
    requires Lawful(c) && RInv(c, s) && RStepOk(s, step) && Decides(s, step, id, false) && RRunOk(c, RApply(c, s, step), steps)
    ensures RApply(c, s, step).servers == s.servers && RApply(c, s, step).requests[id].status == Rejected
    ensures Refused(RRun(c, RApply(c, s, step), steps), id)
  {
    assert RequestInv(c, s, id);
    forall x ensures !HasServer(s, id, x) { }
    RefusedRun(c, RApply(c, s, step), steps, id);
  }

  // ----- approval and its key -----

  /** The request was approved with this server and key: the key is there to be
      fetched, or has been fetched and was this one. */
  ghost predicate KeyIs(c: Crypto, s: RegState, id: RequestId, x: ServerId, apiKey: string) {
    && id in s.requests && s.requests[id].serverId == Some(x)
    && x in s.servers && s.servers[x].apiKeyHash == c.hash(apiKey)
    && (s.requests[id].status == Approved || s.requests[id].status == CredentialDelivered)
    && (s.requests[id].status == Approved ==>
          && s.requests[id].sealed.Some? && Readable(s.requests[id].sealed.value)
          && c.open(s.requests[id].sealed.value, s.requests[id].secretHash) == apiKey
          && s.requests[id].secretHash == c.hash(s.requests[id].issued))
    && (forall i :: 0 <= i < |s.deliveries| && s.deliveries[i].request == id ==> s.deliveries[i].apiKey == apiKey && s.deliveries[i].serverId == x)
  }

  lemma KeyStep(c: Crypto, s: RegState, step: RStep, id: RequestId, x: ServerId, apiKey: string)
    requires RStepOk(s, step) && KeyIs(c, s, id, x, apiKey)
    ensures KeyIs(c, RApply(c, s, step), id, x, apiKey)
    ensures RApply(c, s, step).requests[id].issued == s.requests[id].issued
  {
  }

  lemma {:induction false} KeyRun(c: Crypto, s: RegState, steps: seq<RStep>, id: RequestId, x: ServerId, apiKey: string)
    requires RRunOk(c, s, steps) && KeyIs(c, s, id, x, apiKey)
    ensures KeyIs(c, RRun(c, s, steps), id, x, apiKey)
    ensures RRun(c, s, steps).requests[id].issued == s.requests[id].issued
  {
    if |steps| > 0 {
      KeyRun(c, s, steps[..|steps| - 1], id, x, apiKey);
      KeyStep(c, RRun(c, s, steps[..|steps| - 1]), steps[|steps| - 1], id, x, apiKey);
    }
  }

  lemma ApprovalSetsKey(c: Crypto, s: RegState, step: RStep, id: RequestId)
    requires Lawful(c) && RInv(c, s) && RStepOk(s, step) && Decides(s, step, id, true)
    ensures KeyIs(c, RApply(c, s, step), id, step.server, step.apiKey)
    ensures RApply(c, s, step).requests[id].status == Approved
    ensures RApply(c, s, step).requests[id].issued == s.requests[id].issued
  {
    assert RequestInv(c, s, id);
    forall i | 0 <= i < |s.deliveries| ensures s.deliveries[i].request != id { assert DeliveryInv(c, s, s.deliveries[i]); }
  }

  /** However the run goes on after the owner's approval of an open request: while the
      key has not been fetched, the secret issued at creation fetches exactly the key
      of that approval, once; and every key ever returned for the request is that key. */
  lemma ApprovedKeyIsTheOne(c: Crypto, s: RegState, step: RStep, steps: seq<RStep>, id: RequestId)
    requires Lawful(c) && RInv(c, s) && RStepOk(s, step) && Decides(s, step, id, true)
    requires RRunOk(c, RApply(c, s, step), steps) && s.requests[id].issued != ""
    ensures var s2 := RRun(c, RApply(c, s, step), steps);
            var s3 := RApply(c, s2, GetResult(id, s.requests[id].issued));
            && KeyIs(c, s2, id, step.server, step.apiKey)
            && (if s2.requests[id].status == Approved
                then s3.deliveries == s2.deliveries + [Delivery(id, s.requests[id].issued, step.server, step.apiKey)]
                else s3.deliveries == s2.deliveries)
  {
    ApprovalSetsKey(c, s, step, id);
    KeyRun(c, RApply(c, s, step), steps, id, step.server, step.apiKey);
  }

  // ----- the time to decide -----

  /** The step leaves the request undecided. */
  predicate NotDeciding(step: RStep, id: RequestId) { step.Decide? ==> step.id != id }

  /** Ten minutes after its creation the request can no longer be approved. */
  ghost predicate Undecided(s: RegState, id: RequestId, owner: UserId, created: Time) {
    && id in s.requests && s.requests[id].ownerId == owner
    && s.requests[id].expiresAt == created + 600000
    && (s.requests[id].status == Pending || (s.requests[id].status == Expired && s.now > created + 600000))
  }

  lemma {:induction false} UndecidedRun(c: Crypto, s: RegState, steps: seq<RStep>, id: RequestId, owner: UserId, created: Time)
    requires RRunOk(c, s, steps) && Undecided(s, id, owner, created)
    requires forall k :: 0 <= k < |steps| ==> NotDeciding(steps[k], id)
    ensures Undecided(RRun(c, s, steps), id, owner, created)
  {
    if |steps| > 0 {
      var before := steps[..|steps| - 1];
      UndecidedRun(c, s, before, id, owner, created);
      UndecidedStep(c, RRun(c, s, before), steps[|steps| - 1], id, owner, created);
    }
  }

  lemma UndecidedStep(c: Crypto, s: RegState, step: RStep, id: RequestId, owner: UserId, created: Time)
    requires RStepOk(s, step) && Undecided(s, id, owner, created) && NotDeciding(step, id)
    ensures Undecided(RApply(c, s, step), id, owner, created)
  {
  }

  /** A request created for a known user and then left undecided can be approved by
      that user, and by nobody else, for ten minutes and no longer: an approval
      creates a server exactly then. */
  lemma ApprovalWindow(c: Crypto, s: RegState, id: RequestId, owner: UserId, secret: string, steps: seq<RStep>, approval: RStep)
    requires RStepOk(s, RStep.Create(id, Some(owner), secret))
    requires RRunOk(c, RApply(c, s, RStep.Create(id, Some(owner), secret)), steps)
    requires forall k :: 0 <= k < |steps| ==> NotDeciding(steps[k], id)
    requires approval.Decide? && approval.id == id && approval.approve
    requires var s1 := RApply(c, s, RStep.Create(id, Some(owner), secret)); RStepOk(RRun(c, s1, steps), approval)
    ensures var s2 := RRun(c, RApply(c, s, RStep.Create(id, Some(owner), secret)), steps);
            HasServer(RApply(c, s2, approval), id, approval.server)
            <==> approval.owner == owner && s2.now - s.now <= 600000
  {
    var s1 := RApply(c, s, RStep.Create(id, Some(owner), secret));
    var s2 := RRun(c, s1, steps);
    UndecidedRun(c, s1, steps, id, owner, s.now);
    ServerStep(c, s2, approval, id, approval.server);
  }
}
