/**
 * The web API's sliding-window rate limiter. Every accepted request leaves an entry keyed
 * by the client id, an underscore and a fresh GUID, stamped with its arrival time; a request
 * is refused when the client already has 100 entries younger than a minute.
 */
module RateLimit {
  import opened Options
  import opened Text
  import opened Arrivals

  /** The window, in seconds. */
  const Window := 60

  /** The number of requests a client may make within the window. */
  const MaxRequests := 100

  /** `RemoteIpAddress?.ToString() ?? "unknown"`. */
  function ClientId(remoteIp: Option<string>): (id: string)
    ensures remoteIp.None? ==> id == "unknown"
    ensures remoteIp.Some? ==> id == remoteIp.value
  {
    remoteIp.GetOr("unknown")
  }

  /** The entries that survive expiry: those at most one window old. */
  function Unexpired(requests: map<string, Instant>, now: Instant): (r: map<string, Instant>)
    ensures forall k :: k in r ==> k in requests && r[k] == requests[k] && now - r[k] <= Window
    ensures forall k :: k in requests && now - requests[k] <= Window ==> k in r
  {
    map k | k in requests && now - requests[k] <= Window :: requests[k]
  }

  /** `_requests.Count(kvp => kvp.Key.StartsWith(clientId))`: the entries whose key extends the id. */
  function ClientCount(requests: map<string, Instant>, clientId: string): (n: nat)
    ensures n == 0 <==> forall k :: k in requests ==> !StartsWith(k, clientId)
  {
    var keys := set k | k in requests && StartsWith(k, clientId);
    if exists k :: k in requests && StartsWith(k, clientId) then
      var w :| w in requests && StartsWith(w, clientId);
      assert w in keys;
      |keys|
    else
      assert keys == {};
      |keys|
  }

  /** `TryAdd`: the entry is added unless the key is already present. */
  function Admit(requests: map<string, Instant>, key: string, now: Instant): (r: map<string, Instant>)
    ensures r.Keys == requests.Keys + {key}
    ensures forall k :: k in requests ==> r[k] == requests[k]
    ensures key !in requests ==> r[key] == now
  {
    if key in requests then requests else requests[key := now]
  }

  /** The key an accepted request adds. */
  function RequestKey(clientId: string, guid: string): string
  {
    clientId + "_" + guid
  }

  /** Admitting a key that extends the id adds at most one to the id's count. */
  lemma AdmitCount(requests: map<string, Instant>, clientId: string, key: string, now: Instant)
    ensures ClientCount(Admit(requests, key, now), clientId) <= ClientCount(requests, clientId) + 1
    ensures key !in requests && StartsWith(key, clientId) ==>
      ClientCount(Admit(requests, key, now), clientId) == ClientCount(requests, clientId) + 1
  {
    var before := set k | k in requests && StartsWith(k, clientId);
    var after := set k | k in Admit(requests, key, now) && StartsWith(k, clientId);
    if key in requests || !StartsWith(key, clientId) {
      assert after == before;
    } else {
      assert after == before + {key};
      assert key !in before;
    }
  }

  /** A request key starts with its client id. */
  lemma RequestKeyExtends(clientId: string, guid: string)
    ensures StartsWith(RequestKey(clientId, guid), clientId)
  {
    assert RequestKey(clientId, guid)[..|clientId|] == clientId;
  }

  /**
   * The count is by key prefix, so a request from another client whose id extends this one
   * (client "10.0.0.1" and client "10.0.0.12") counts against this client as well.
   */
  lemma ExtendingIdsShareCount(requests: map<string, Instant>, clientId: string, otherId: string, guid: string,
                               now: Instant)
    requires StartsWith(otherId, clientId) && RequestKey(otherId, guid) !in requests
    ensures ClientCount(Admit(requests, RequestKey(otherId, guid), now), clientId) == ClientCount(requests, clientId) + 1
  {
    assert RequestKey(otherId, guid)[..|clientId|] == otherId[..|clientId|];
    AdmitCount(requests, clientId, RequestKey(otherId, guid), now);
  }

  class RateLimiter {
    /** `_requests`: request keys and their arrival times. */
    var requests: map<string, Instant>

    constructor ()
      ensures requests == map[]
    {
      requests := map[];
    }

    /** The expiry loop: each entry older than the window is removed. */
    method ExpireOld(now: Instant)
      modifies this
      ensures requests == Unexpired(old(requests), now)
    {
      ghost var m0 := requests;
      var expired := set k | k in requests && now - requests[k] > Window;
      while expired != {}
        invariant forall k :: k in expired ==> k in m0 && now - m0[k] > Window
        invariant requests == map k | k in m0 && (now - m0[k] <= Window || k in expired) :: m0[k]
        decreases |expired|
      {
        var k :| k in expired;
        requests := requests - {k};
        expired := expired - {k};
      }
    }

    /**
     * `InvokeAsync`: expired entries are removed; the request is refused when the client's
     * count has reached the limit, and then adds nothing; otherwise its entry is added,
     * stamped now, and the request goes on. Entries at most a minute old, one exactly a
     * minute old included, are kept. Afterwards the client's count is at most the limit when
     * the request was accepted, and every entry stamped no later than now is at most a
     * minute old.
     */
    method Invoke(clientId: string, guid: string, now: Instant) returns (accepted: bool)
      modifies this
      ensures accepted <==> ClientCount(Unexpired(old(requests), now), clientId) < MaxRequests
      ensures !accepted ==> requests == Unexpired(old(requests), now)
      ensures accepted ==> requests == Admit(Unexpired(old(requests), now), RequestKey(clientId, guid), now)
      ensures accepted ==> ClientCount(requests, clientId) <= MaxRequests
      ensures accepted && RequestKey(clientId, guid) !in Unexpired(old(requests), now) ==>
        ClientCount(requests, clientId) == ClientCount(Unexpired(old(requests), now), clientId) + 1
      ensures forall k :: k in old(requests) && now - old(requests)[k] <= Window ==>
        k in requests && requests[k] == old(requests)[k]
      ensures forall k :: k in requests && requests[k] <= now ==> now - requests[k] <= Window
    {
      ExpireOld(now);
      var count := ClientCount(requests, clientId);
      if count >= MaxRequests {
        return false;
      }
      AdmitCount(requests, clientId, RequestKey(clientId, guid), now);
      RequestKeyExtends(clientId, guid);
      requests := Admit(requests, RequestKey(clientId, guid), now);
      accepted := true;
    }
  }
}
