/** The registration service in its own form: request and server rows updated in
    place, each method proved to make exactly its `RApply` step. */
module RegistrationService {
  import opened Common
  import opened Registration

  /** What `getResult` answers. */
  datatype Answer = Rejected | Status(status: RequestStatus, known: Option<ServerId>) | Key(serverId: ServerId, apiKey: string)

  class Service {
    const c: Crypto
    var requests: map<RequestId, Request>
    var servers: map<ServerId, ServerRow>
    var now: Time
    ghost var deliveries: seq<Delivery>

    constructor (c: Crypto, now: Time)
      ensures this.c == c && RInitial(State()) && State().now == now
    {
      this.c, this.now := c, now;
      requests, servers, deliveries := map[], map[], [];
    }

    ghost function State(): RegState
      reads this
    {
      RegState(requests, servers, deliveries, now)
    }

    method Create(id: RequestId, owner: Option<UserId>, secret: string) returns (created: bool)
      requires id !in requests
      modifies `requests
      ensures State() == RApply(c, old(State()), RStep.Create(id, owner, secret))
      ensures created <==> owner.Some?
    {
      if owner.None? {
        return false;
      }
      requests := requests[id := Request(owner.value, c.hash(secret), Pending, now + REQUEST_TTL, None, None, secret)];
      return true;
    }

    /** `expireIfNeeded`, writing the row only when it changes. */
    method Refresh(id: RequestId) returns (current: Request)
      requires id in requests
      modifies `requests
      ensures State() == SetRequest(old(State()), id, ExpireIfNeeded(old(requests)[id], now))
      ensures current == requests[id]
    {
      current := requests[id];
      if current.status.Pending? && current.expiresAt < now {
        current := current.(status := Expired);
        requests := requests[id := current];
      }
      assert requests == old(requests)[id := current];
    }

    /** `apiKey`, `iv` and `server` are the freshly generated values. */
    method Decide(owner: UserId, id: RequestId, approve: bool, apiKey: string, iv: string, server: ServerId) returns (allowed: bool)
      requires server !in servers
      modifies `requests, `servers
      ensures State() == RApply(c, old(State()), RStep.Decide(owner, id, approve, apiKey, iv, server))
      ensures allowed <==> id in old(requests) && old(requests)[id].ownerId == owner
    {
      if id !in requests || requests[id].ownerId != owner {
        return false;
      }
      var current := Refresh(id);
      if !current.status.Pending? {
        return true;
      }
      if !approve {
        requests := requests[id := current.(status := RequestStatus.Rejected)];
        return true;
      }
      var sealed := c.seal(apiKey, current.secretHash, iv);
      servers := servers[server := ServerRow(owner, c.hash(apiKey), now, Some(id))];
      requests := requests[id := current.(status := Approved, serverId := Some(server), sealed := Some(sealed))];
      return true;
    }

    method GetResult(id: RequestId, secret: string) returns (answer: Answer)
      modifies `requests, `deliveries
      ensures State() == RApply(c, old(State()), RStep.GetResult(id, secret))
      ensures answer.Key? <==> |deliveries| == |old(deliveries)| + 1
      ensures answer.Key? ==> deliveries[|old(deliveries)|] == Delivery(id, secret, answer.serverId, answer.apiKey)
      ensures answer.Status? ==> id in requests && answer == Status(requests[id].status, requests[id].serverId)
    {
      if secret == "" || id !in requests || requests[id].secretHash != c.hash(secret) {
        return Answer.Rejected;
      }
      var current := Refresh(id);
      if !current.status.Approved? {
        return Status(current.status, current.serverId);
      }
      if current.serverId.None? || current.sealed.None? || !Readable(current.sealed.value) {
        return Status(current.status, current.serverId);
      }
      var apiKey := c.open(current.sealed.value, current.secretHash);
      requests := requests[id := current.(status := CredentialDelivered, sealed := None)];
      deliveries := deliveries + [Delivery(id, secret, current.serverId.value, apiKey)];
      return Key(current.serverId.value, apiKey);
    }

    /** The list a user sees: overdue requests are expired first. */
    method FindPendingForOwner(owner: UserId) returns (ids: set<RequestId>)
      modifies `requests
      ensures State() == RApply(c, old(State()), ListPending)
      ensures forall id :: id in ids <==>
                id in old(requests) && old(requests)[id].ownerId == owner && old(requests)[id].status.Pending? && old(requests)[id].expiresAt >= now
    {
      requests := ExpireAll(requests, now);
      ids := set id | id in requests && requests[id].ownerId == owner && requests[id].status.Pending?;
    }
  }
}
