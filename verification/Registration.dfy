/** Server registration with one-time credential delivery
    (`server-registrations/server-registrations.service.ts`). */
module Registration {
  import opened Common

  type RequestId = nat

  const REQUEST_TTL: Time := 10 * 60 * 1000

  datatype RequestStatus = Pending | Approved | Rejected | Expired | CredentialDelivered

  /** The three columns an encrypted API key occupies. */
  datatype Sealed = Sealed(ciphertext: string, iv: string, authTag: string)

  /** Hashing and authenticated encryption, with the initialisation vector as an input. */
  datatype Crypto = Crypto(
    hash: string -> string,
    seal: (string, string, string) -> Sealed,
    open: (Sealed, string) -> string)

  /** What is assumed of them: decryption undoes encryption, the columns of an
      encrypted non-empty key are non-empty, and hashes do not collide. */
  ghost predicate Lawful(c: Crypto) {
    && (forall plain, key, iv :: c.open(c.seal(plain, key, iv), key) == plain)
    && (forall plain, key, iv :: plain != "" ==> Readable(c.seal(plain, key, iv)))
    && (forall a, b :: c.hash(a) == c.hash(b) ==> a == b)
  }

  predicate Readable(s: Sealed) {
    s.ciphertext != "" && s.iv != "" && s.authTag != ""
  }

  /** `issued` is a history variable: the secret handed out at creation. */
  datatype Request = Request(
    ownerId: UserId,
    secretHash: string,
    status: RequestStatus,
    expiresAt: Time,
    serverId: Option<ServerId>,
    sealed: Option<Sealed>,
    issued: string)

  /** `origin` is a history variable: the request an approval created the row for. */
  datatype ServerRow = ServerRow(ownerId: UserId, apiKeyHash: string, createdAt: Time, origin: Option<RequestId>)

  datatype Delivery = Delivery(request: RequestId, secret: string, serverId: ServerId, apiKey: string)

  /** `deliveries` is a history of every API key ever returned by `getResult`. */
  datatype RegState = RegState(
    requests: map<RequestId, Request>,
    servers: map<ServerId, ServerRow>,
    deliveries: seq<Delivery>,
    now: Time)

  datatype RStep =
    | Create(id: RequestId, user: Option<UserId>, secret: string)
    | Decide(owner: UserId, id: RequestId, approve: bool, apiKey: string, iv: string, server: ServerId)
    | GetResult(id: RequestId, secret: string)
    | ListPending
    | AddServer(server: ServerId, owner: UserId, apiKey: string)
    | Tick(now: Time)

  // ----- expiry -----

  /** `expireIfNeeded` */
  function ExpireIfNeeded(r: Request, now: Time): Request {
    if !r.status.Pending? || r.expiresAt >= now then r else r.(status := Expired)
  }

  /** The `where` of `expirePendingRequests`. */
  predicate Overdue(r: Request, now: Time) {
    r.status.Pending? && r.expiresAt < now
  }

  /** `expirePendingRequests`: one bulk update. */
  function ExpireAll(requests: map<RequestId, Request>, now: Time): map<RequestId, Request> {
    map id | id in requests :: if Overdue(requests[id], now) then requests[id].(status := Expired) else requests[id]
  }

  // ----- steps -----

  function DoCreate(c: Crypto, s: RegState, id: RequestId, owner: Option<UserId>, secret: string): RegState {
    if owner.None? then s
    else s.(requests := s.requests[id := Request(owner.value, c.hash(secret), Pending, s.now + REQUEST_TTL, None, None, secret)])
  }

  function SetRequest(s: RegState, id: RequestId, r: Request): RegState {
    s.(requests := s.requests[id := r])
  }

  function DoDecide(c: Crypto, s: RegState, owner: UserId, id: RequestId, approve: bool, apiKey: string, iv: string,
                    server: ServerId): RegState
  {
    if id !in s.requests || s.requests[id].ownerId != owner then s
    else
      var current := ExpireIfNeeded(s.requests[id], s.now);
      var s1 := SetRequest(s, id, current);
      if !current.status.Pending? then s1
      else if !approve then SetRequest(s1, id, current.(status := Rejected))
      else
        SetRequest(s1, id, current.(
                     status := Approved, serverId := Some(server),
                     sealed := Some(c.seal(apiKey, current.secretHash, iv))))
        .(servers := s.servers[server := ServerRow(owner, c.hash(apiKey), s.now, Some(id))])
  }

  predicate Delivers(r: Request) {
    r.status.Approved? && r.serverId.Some? && r.sealed.Some? && Readable(r.sealed.value)
  }

  function DoGetResult(c: Crypto, s: RegState, id: RequestId, secret: string): RegState {
    if secret == "" || id !in s.requests || s.requests[id].secretHash != c.hash(secret) then s
    else
      var current := ExpireIfNeeded(s.requests[id], s.now);
      if !Delivers(current) then SetRequest(s, id, current)
      else
        SetRequest(s, id, current.(status := CredentialDelivered, sealed := None))
        .(deliveries := s.deliveries
           + [Delivery(id, secret, current.serverId.value, c.open(current.sealed.value, current.secretHash))])
  }

  function RApply(c: Crypto, s: RegState, step: RStep): RegState {
    match step
    case Create(id, owner, secret) => DoCreate(c, s, id, owner, secret)
    case Decide(owner, id, approve, apiKey, iv, server) => DoDecide(c, s, owner, id, approve, apiKey, iv, server)
    case GetResult(id, secret) => DoGetResult(c, s, id, secret)
    case ListPending => s.(requests := ExpireAll(s.requests, s.now))
    case AddServer(server, owner, apiKey) => s.(servers := s.servers[server := ServerRow(owner, c.hash(apiKey), s.now, None)])
    case Tick(now) => s.(now := now)
  }

  /** Generated ids are fresh, generated keys non-empty, and the clock does not run backwards. */
  ghost predicate RStepOk(s: RegState, step: RStep) {
    match step
    case Create(id, _, _) => id !in s.requests
    case Decide(_, _, _, apiKey, _, server) => server !in s.servers && apiKey != ""
    case AddServer(server, _, _) => server !in s.servers
    case Tick(now) => s.now <= now
    case _ => true
  }

  function RRun(c: Crypto, s: RegState, steps: seq<RStep>): RegState {
    if |steps| == 0 then s else RApply(c, RRun(c, s, steps[..|steps| - 1]), steps[|steps| - 1])
  }

  ghost predicate RRunOk(c: Crypto, s: RegState, steps: seq<RStep>) {
    |steps| == 0
    || (RRunOk(c, s, steps[..|steps| - 1]) && RStepOk(RRun(c, s, steps[..|steps| - 1]), steps[|steps| - 1]))
  }

  ghost predicate RInitial(s: RegState) {
    s.requests == map[] && s.servers == map[] && s.deliveries == []
  }

  // ----- invariant -----

  ghost predicate RequestInv(c: Crypto, s: RegState, id: RequestId)
    requires id in s.requests
  {
    var r := s.requests[id];
    && (r.sealed.Some? <==> r.status.Approved?)
    && (r.serverId.Some? <==> r.status.Approved? || r.status.CredentialDelivered?)
    && r.secretHash == c.hash(r.issued)
    && (r.serverId.Some? ==>
          && r.serverId.value in s.servers
          && s.servers[r.serverId.value].origin == Some(id)
          && s.servers[r.serverId.value].ownerId == r.ownerId
          && s.servers[r.serverId.value].createdAt <= r.expiresAt)
    && (r.sealed.Some? ==>
          && Readable(r.sealed.value)
          && c.hash(c.open(r.sealed.value, r.secretHash)) == s.servers[r.serverId.value].apiKeyHash)
  }

  ghost predicate DeliveryInv(c: Crypto, s: RegState, d: Delivery) {
    && d.request in s.requests
    && s.requests[d.request].status.CredentialDelivered?
    && s.requests[d.request].serverId == Some(d.serverId)
    && s.requests[d.request].issued == d.secret
    && d.serverId in s.servers && s.servers[d.serverId].apiKeyHash == c.hash(d.apiKey)
  }

  ghost predicate RInv(c: Crypto, s: RegState) {
    && (forall id :: id in s.requests ==> RequestInv(c, s, id))
    && (forall x :: x in s.servers && s.servers[x].origin.Some? ==>
          s.servers[x].origin.value in s.requests && s.requests[s.servers[x].origin.value].serverId == Some(x))
    && (forall i :: 0 <= i < |s.deliveries| ==> DeliveryInv(c, s, s.deliveries[i]))
    && (forall i, j :: 0 <= i < j < |s.deliveries| ==> s.deliveries[i].request != s.deliveries[j].request)
  }

  /** Rows that only expire keep everything. */
  lemma ExpiryKeeps(c: Crypto, s: RegState, s': RegState)
    requires RInv(c, s) && s' == s.(requests := s'.requests) && s'.requests.Keys == s.requests.Keys
    requires forall id :: id in s.requests ==> s'.requests[id] == s.requests[id] || s'.requests[id] == ExpireIfNeeded(s.requests[id], s.now)
    ensures RInv(c, s')
  {
    forall id | id in s'.requests ensures RequestInv(c, s', id) { assert RequestInv(c, s, id); }
    forall i | 0 <= i < |s'.deliveries| ensures DeliveryInv(c, s', s'.deliveries[i]) { assert DeliveryInv(c, s, s.deliveries[i]); }
  }

  lemma ApproveKeeps(c: Crypto, s: RegState, id: RequestId, apiKey: string, iv: string, server: ServerId)
    requires Lawful(c) && RInv(c, s) && id in s.requests && s.requests[id].status.Pending? && s.requests[id].expiresAt >= s.now
    requires server !in s.servers && apiKey != ""
    ensures RInv(c, DoDecide(c, s, s.requests[id].ownerId, id, true, apiKey, iv, server))
  {
    var s' := DoDecide(c, s, s.requests[id].ownerId, id, true, apiKey, iv, server);
    assert RequestInv(c, s, id);
    forall x | x in s'.requests ensures RequestInv(c, s', x) { assert RequestInv(c, s, x); }
    forall i | 0 <= i < |s'.deliveries| ensures DeliveryInv(c, s', s'.deliveries[i]) { assert DeliveryInv(c, s, s.deliveries[i]); }
  }

  lemma {:induction false} DecideKeeps(c: Crypto, s: RegState, owner: UserId, id: RequestId, approve: bool, apiKey: string, iv: string, server: ServerId)
    requires Lawful(c) && RInv(c, s) && server !in s.servers && apiKey != ""
    ensures RInv(c, DoDecide(c, s, owner, id, approve, apiKey, iv, server))
  {
    var s' := DoDecide(c, s, owner, id, approve, apiKey, iv, server);
    if id in s.requests && s.requests[id].ownerId == owner {
      assert RequestInv(c, s, id);
      var current := ExpireIfNeeded(s.requests[id], s.now);
      if !current.status.Pending? {
        ExpiryKeeps(c, s, s');
      } else if approve {
        ApproveKeeps(c, s, id, apiKey, iv, server);
      } else {
        forall x | x in s'.requests ensures RequestInv(c, s', x) { assert RequestInv(c, s, x); }
        forall i | 0 <= i < |s'.deliveries| ensures DeliveryInv(c, s', s'.deliveries[i]) { assert DeliveryInv(c, s, s.deliveries[i]); }
      }
    }
  }

  lemma DeliverKeeps(c: Crypto, s: RegState, id: RequestId, secret: string)
    requires Lawful(c) && RInv(c, s) && secret != "" && id in s.requests && s.requests[id].secretHash == c.hash(secret)
    requires Delivers(s.requests[id])
    ensures RInv(c, DoGetResult(c, s, id, secret))
  {
    var s' := DoGetResult(c, s, id, secret);
    assert RequestInv(c, s, id);
    forall x | x in s'.requests ensures RequestInv(c, s', x) { assert RequestInv(c, s, x); }
    forall i | 0 <= i < |s.deliveries| ensures DeliveryInv(c, s', s.deliveries[i]) && s.deliveries[i].request != id {
      assert DeliveryInv(c, s, s.deliveries[i]);
    }
    assert DeliveryInv(c, s', s'.deliveries[|s.deliveries|]);
  }

  lemma {:induction false} GetResultKeeps(c: Crypto, s: RegState, id: RequestId, secret: string)
    requires Lawful(c) && RInv(c, s)
    ensures RInv(c, DoGetResult(c, s, id, secret))
  {
    if secret != "" && id in s.requests && s.requests[id].secretHash == c.hash(secret) {
      if Delivers(s.requests[id]) { DeliverKeeps(c, s, id, secret); }
      else { ExpiryKeeps(c, s, DoGetResult(c, s, id, secret)); }
    }
  }

  /** Adding a pending request, an unrelated server, or time. */
  lemma AdditionKeeps(c: Crypto, s: RegState, s': RegState)
    requires RInv(c, s) && s'.deliveries == s.deliveries
    requires forall id :: id in s.requests ==> id in s'.requests && s'.requests[id] == s.requests[id]
    requires forall x :: x in s.servers ==> x in s'.servers && s'.servers[x] == s.servers[x]
    requires forall id :: id in s'.requests && id !in s.requests ==>
               s'.requests[id].status.Pending? && s'.requests[id].serverId.None? && s'.requests[id].sealed.None?
               && s'.requests[id].secretHash == c.hash(s'.requests[id].issued)
    requires forall x :: x in s'.servers && x !in s.servers ==> s'.servers[x].origin.None?
    ensures RInv(c, s')
  {
    forall x | x in s'.requests ensures RequestInv(c, s', x) { if x in s.requests { assert RequestInv(c, s, x); } }
    forall i | 0 <= i < |s'.deliveries| ensures DeliveryInv(c, s', s'.deliveries[i]) { assert DeliveryInv(c, s, s.deliveries[i]); }
  }

  lemma {:induction false} RStepKeeps(c: Crypto, s: RegState, step: RStep)
    requires Lawful(c) && RInv(c, s) && RStepOk(s, step)
    ensures RInv(c, RApply(c, s, step))
  {
    match step {
      case Decide(owner, id, approve, apiKey, iv, server) => DecideKeeps(c, s, owner, id, approve, apiKey, iv, server);
      case GetResult(id, secret) => GetResultKeeps(c, s, id, secret);
      case ListPending => ExpiryKeeps(c, s, RApply(c, s, step));
      case _ => AdditionKeeps(c, s, RApply(c, s, step));
    }
  }

  lemma {:induction false} RRunKeeps(c: Crypto, s: RegState, steps: seq<RStep>)
    requires Lawful(c) && RInv(c, s) && RRunOk(c, s, steps)
    ensures RInv(c, RRun(c, s, steps))
  {
    if |steps| > 0 {
      RRunKeeps(c, s, steps[..|steps| - 1]);
      RStepKeeps(c, RRun(c, s, steps[..|steps| - 1]), steps[|steps| - 1]);
    }
  }

  // ----- theorems over runs -----

  /** In every reachable state: a request has created at most one server, owned by
      the request's owner and created no later than the request's expiry. */
  lemma {:induction false} OneServerPerRequest(c: Crypto, s0: RegState, steps: seq<RStep>, id: RequestId, x: ServerId, y: ServerId)
    requires Lawful(c) && RInitial(s0) && RRunOk(c, s0, steps)
    requires var s := RRun(c, s0, steps);
             x in s.servers && y in s.servers && s.servers[x].origin == Some(id) && s.servers[y].origin == Some(id)
    ensures x == y
    ensures var s := RRun(c, s0, steps);
            && id in s.requests
            && s.servers[x].ownerId == s.requests[id].ownerId
            && s.servers[x].createdAt <= s.requests[id].expiresAt
  {
    RRunKeeps(c, s0, steps);
    assert RequestInv(c, RRun(c, s0, steps), id);
  }

  /** An encrypted key is stored exactly while the request is APPROVED. */
  lemma {:induction false} SealedExactlyWhileApproved(c: Crypto, s0: RegState, steps: seq<RStep>, id: RequestId)
    requires Lawful(c) && RInitial(s0) && RRunOk(c, s0, steps) && id in RRun(c, s0, steps).requests
    ensures var r := RRun(c, s0, steps).requests[id]; r.sealed.Some? <==> r.status.Approved?
  {
    RRunKeeps(c, s0, steps);
    assert RequestInv(c, RRun(c, s0, steps), id);
  }

  /** Over any run a request's key is returned at most once, only to whoever
      presents the secret issued for it, and it is the key of the one server
      created for that request. */
  lemma KeyDeliveredOnce(c: Crypto, s0: RegState, steps: seq<RStep>, i: nat)
    requires Lawful(c) && RInitial(s0) && RRunOk(c, s0, steps) && i < |RRun(c, s0, steps).deliveries|
    ensures var s := RRun(c, s0, steps);
            var d := s.deliveries[i];
            && (forall j :: 0 <= j < |s.deliveries| && j != i ==> s.deliveries[j].request != d.request)
            && d.request in s.requests && d.secret == s.requests[d.request].issued
            && d.serverId in s.servers
            && s.servers[d.serverId].origin == Some(d.request)
            && s.servers[d.serverId].apiKeyHash == c.hash(d.apiKey)
  {
    RRunKeeps(c, s0, steps);
    var s := RRun(c, s0, steps);
    assert DeliveryInv(c, s, s.deliveries[i]);
    assert RequestInv(c, s, s.deliveries[i].request);
  }

  /** The right secret does fetch the key of an approved request, whenever it is
      presented: approval outlives the request's expiry time. */
  lemma ApprovedKeyIsFetched(c: Crypto, s: RegState, id: RequestId)
    requires Lawful(c) && RInv(c, s) && id in s.requests && s.requests[id].status.Approved? && s.requests[id].issued != ""
    ensures var s' := RApply(c, s, GetResult(id, s.requests[id].issued));
            && |s'.deliveries| == |s.deliveries| + 1
            && s'.deliveries[|s.deliveries|].request == id
            && s'.requests[id].status.CredentialDelivered?
  {
    assert RequestInv(c, s, id);
  }

  // ----- bulk expiry against one-by-one expiry -----

  function ExpireEach(requests: map<RequestId, Request>, ids: seq<RequestId>, now: Time): map<RequestId, Request> {
    if |ids| == 0 then requests
    else
      var before := ExpireEach(requests, ids[..|ids| - 1], now);
      var id := ids[|ids| - 1];
      if id in before then before[id := ExpireIfNeeded(before[id], now)] else before
  }

  lemma {:induction false} ExpireEachIs(requests: map<RequestId, Request>, ids: seq<RequestId>, now: Time)
    ensures ExpireEach(requests, ids, now)
         == map id | id in requests :: if id in ids then ExpireIfNeeded(requests[id], now) else requests[id]
  {
    if |ids| > 0 {
      ExpireEachIs(requests, ids[..|ids| - 1], now);
      assert ids == ids[..|ids| - 1] + [ids[|ids| - 1]];
    }
  }

  /** The bulk update does what checking every request one by one does, in any
      order and however often each is checked. */
  lemma BulkExpiryAgrees(requests: map<RequestId, Request>, ids: seq<RequestId>, now: Time)
    requires forall id :: id in requests ==> id in ids
    ensures ExpireAll(requests, now) == ExpireEach(requests, ids, now)
  {
    ExpireEachIs(requests, ids, now);
  }
}
