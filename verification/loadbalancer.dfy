/** The load balancer of loadbalancer.cpp / loadbalancer.h: admission by a
    blocked-prefix address filter with admitted/rejected counters, a
    round-robin cursor over its private server vector, threshold scaling of
    that vector, and a logical clock. Logging is not modelled. */
module LoadBalancers {
  import opened Requests
  import opened RequestQueues
  import opened WebServers

  /** loadbalancer.h:149-150 */
  const MaxServers: nat := 50
  const MinServers: nat := 10

  /** The ranges `initializeBlockedIpRanges` installs. */
  const BlockedIpRanges: seq<string> := ["192.168.0.", "10.0.0."]

  /** Reference definition of the filter: the address starts with one of the
      two blocked ranges, so no address shorter than the shorter range
      ("10.0.0.", seven characters) is ever blocked. */
  predicate Blocked(ip: string)
    ensures Blocked(ip) ==> |ip| >= 7
  {
    "192.168.0." <= ip || "10.0.0." <= ip
  }

  /** `s.substr(0, len)`: the whole string when it is shorter than `len`. */
  function Prefix(s: string, len: nat): (p: string)
    ensures |p| <= len && p <= s
  {
    if len <= |s| then s[..len] else s
  }

  /** The loop's test `ip.substr(0, range.length()) == range` is exactly the
      prefix relation; an address shorter than the range never matches. */
  lemma PrefixMatch(ip: string, range: string)
    ensures Prefix(ip, |range|) == range <==> range <= ip
    ensures |ip| < |range| ==> Prefix(ip, |range|) != range
  {
  }

  /** Growth rule of `allocateServer`: queue longer than five per server
      and fewer than `MaxServers` servers. */
  predicate Grows(queueSize: nat, poolSize: nat)
    ensures Grows(queueSize, poolSize) ==> !Shrinks(queueSize, poolSize) && !Shrinks(queueSize, poolSize + 1)
  {
    queueSize > poolSize * 5 && poolSize < MaxServers
  }

  /** Shrink rule of `deallocateServer`: queue shorter than two per server
      and more than `MinServers` servers. */
  predicate Shrinks(queueSize: nat, poolSize: nat)
    ensures Shrinks(queueSize, poolSize) ==> MinServers <= poolSize - 1 && queueSize <= (poolSize - 1) * 5
  {
    queueSize < poolSize * 2 && poolSize > MinServers
  }

  /** Pool size after `allocateServer` then `deallocateServer` with the
      queue length fixed in between, as the tick loop calls them. */
  function Rescale(queueSize: nat, poolSize: nat): (n: nat)
    ensures n == poolSize + 1 <==> Grows(queueSize, poolSize)
    ensures n == poolSize - 1 <==> Shrinks(queueSize, poolSize)
    ensures n == poolSize <==> !Grows(queueSize, poolSize) && !Shrinks(queueSize, poolSize)
  {
    var grown := if Grows(queueSize, poolSize) then poolSize + 1 else poolSize;
    if Shrinks(queueSize, grown) then grown - 1 else grown
  }

  /** The two rules never fire in the same tick, so the pool moves by at
      most one per tick, never rises above `MaxServers` from within bounds,
      and never drops below `MinServers` once it has reached it. */
  lemma RescaleBounds(queueSize: nat, poolSize: nat)
    ensures Grows(queueSize, poolSize) ==> !Shrinks(queueSize, poolSize + 1)
    ensures poolSize - 1 <= Rescale(queueSize, poolSize) <= poolSize + 1
    ensures poolSize <= MaxServers ==> Rescale(queueSize, poolSize) <= MaxServers
    ensures poolSize >= MinServers ==> Rescale(queueSize, poolSize) >= MinServers
  {
  }

  /** The cursor after one `getNextServer` call: one step forward, back to
      0 after the last server. */
  lemma NextIndex(i: nat, n: nat)
    requires i < n
    ensures (i + 1) % n == if i + 1 < n then i + 1 else 0
  {
  }

  /** The cursor positions visited by `k` successive `getNextServer` calls
      over a pool of `n` servers, starting at cursor `i`. */
  function RoundRobin(i: nat, n: nat, k: nat): (visits: seq<nat>)
    requires n > 0
    ensures |visits| == k
    ensures i < n ==> forall j :: 0 <= j < k ==> visits[j] < n
    decreases k
  {
    if k == 0 then [] else [i] + RoundRobin((i + 1) % n, n, k - 1)
  }

  /** Without wrapping, the cursor simply counts up. */
  lemma {:induction false} RoundRobinCounts(i: nat, n: nat, k: nat)
    requires n > 0 && i + k <= n
    ensures forall j :: 0 <= j < k ==> RoundRobin(i, n, k)[j] == i + j
    decreases k
  {
    if k > 0 {
      NextIndex(i, n);
      var rest := RoundRobin(i + 1, n, k - 1);
      RoundRobinCounts(i + 1, n, k - 1);
      assert RoundRobin(i, n, k) == [i] + rest;
      forall j | 0 <= j < k
        ensures RoundRobin(i, n, k)[j] == i + j
      {
        if j > 0 {
          assert RoundRobin(i, n, k)[j] == rest[j - 1];
        }
      }
    }
  }

  /** Visiting `a + b` servers from `a` before the end of the pool wraps to 0
      after the first `a`. */
  lemma {:induction false} RoundRobinSplit(i: nat, n: nat, a: nat, b: nat)
    requires i < n && i + a == n
    ensures RoundRobin(i, n, a + b) == RoundRobin(i, n, a) + RoundRobin(0, n, b)
    decreases a
  {
    NextIndex(i, n);
    if a == 1 {
      assert RoundRobin(i, n, 1) == [i];
    } else {
      RoundRobinSplit(i + 1, n, a - 1, b);
      assert RoundRobin(i, n, a + b) == [i] + RoundRobin(i + 1, n, a - 1 + b);
      assert RoundRobin(i, n, a) == [i] + RoundRobin(i + 1, n, a - 1);
    }
  }

  /** One more call extends the visits by one position, the one after the
      last visited. */
  lemma {:induction false} RoundRobinSnoc(i: nat, n: nat, k: nat)
    requires i < n
    ensures RoundRobin(i, n, k + 1) == RoundRobin(i, n, k) + [RoundRobin(i, n, k + 1)[k]]
    ensures k > 0 ==> RoundRobin(i, n, k + 1)[k] == (RoundRobin(i, n, k)[k - 1] + 1) % n
    decreases k
  {
    if k > 0 {
      var i' := (i + 1) % n;
      RoundRobinSnoc(i', n, k - 1);
      assert RoundRobin(i, n, k + 1) == [i] + RoundRobin(i', n, k);
      assert RoundRobin(i, n, k) == [i] + RoundRobin(i', n, k - 1);
      if k > 1 {
        assert RoundRobin(i, n, k)[k - 1] == RoundRobin(i', n, k - 1)[k - 2];
      }
    }
  }

  /** Round robin: from any cursor inside the pool, `n` successive calls
      visit every one of the `n` servers. */
  lemma {:induction false} RoundRobinCoversPool(i: nat, n: nat)
    requires i < n
    ensures forall s :: 0 <= s < n ==> s in RoundRobin(i, n, n)
  {
    RoundRobinSplit(i, n, n - i, i);
    RoundRobinCounts(i, n, n - i);
    RoundRobinCounts(0, n, i);
    var visits := RoundRobin(i, n, n);
    forall s | 0 <= s < n
      ensures s in visits
    {
      if s >= i {
        assert visits[s - i] == s;
      } else {
        assert visits[n - i + s] == RoundRobin(0, n, i)[s];
      }
    }
  }

  class LoadBalancer {
    var currentTime: int
    const requestQueue: RequestQueue
    var currentServerIndex: nat
    var processedRequests: int
    var rejectedRequests: int
    var activeServers: int
    var totalServers: int
    const blockedIpRanges: seq<string> := BlockedIpRanges
    /** The balancer's private server vector, resized by the scaling rules. */
    var servers: seq<WebServer>

    /** The private pool never exceeds `MaxServers`, and the server at
        position i is named 'A' + i. */
    ghost predicate Valid()
      reads this`servers
    {
      && |servers| <= MaxServers
      && forall i :: 0 <= i < |servers| ==> servers[i].serverName == ServerName(i)
    }

    /** loadbalancer.h:141-154 initial values; the logger is not modelled. */
    constructor ()
      ensures Valid() && fresh(requestQueue) && requestQueue.items == []
      ensures currentTime == 0 && currentServerIndex == 0
      ensures processedRequests == 0 && rejectedRequests == 0
      ensures activeServers == 0 && totalServers == 0 && servers == []
    {
      currentTime := 0;
      requestQueue := new RequestQueue();
      currentServerIndex := 0;
      processedRequests := 0;
      rejectedRequests := 0;
      activeServers := 0;
      totalServers := 0;
      servers := [];
    }

    method GetTime() returns (t: int)
      ensures t == currentTime
    {
      t := currentTime;
    }

    method IncTime()
      modifies this`currentTime
      ensures currentTime == old(currentTime) + 1
    {
      currentTime := currentTime + 1;
    }

    method GetRequest() returns (r: Request)
      modifies requestQueue
      ensures old(requestQueue.items) == [] ==> r == DefaultRequest && requestQueue.items == []
      ensures old(requestQueue.items) != [] ==>
                r == old(requestQueue.items)[0] && requestQueue.items == old(requestQueue.items)[1..]
    {
      r := requestQueue.GetRequest();
    }

    method IsRequestQueueEmpty() returns (empty: bool)
      ensures empty <==> requestQueue.items == []
    {
      empty := requestQueue.IsEmpty();
    }

    method GetRequestQueueSize() returns (n: nat)
      ensures n == |requestQueue.items|
    {
      n := requestQueue.Size();
    }

    method GetProcessedRequests() returns (n: int)
      ensures n == processedRequests
    {
      n := processedRequests;
    }

    method IncrementProcessedRequests()
      modifies this`processedRequests
      ensures processedRequests == old(processedRequests) + 1
    {
      processedRequests := processedRequests + 1;
    }

    /** Returns the server under the cursor and advances the cursor modulo
        the pool size. Indexing requires the cursor inside the pool, which
        `DeallocateServer` does not re-establish. */
    method GetNextServer() returns (server: WebServer)
      requires currentServerIndex < |servers|
      modifies this`currentServerIndex
      ensures server == servers[old(currentServerIndex)]
      ensures currentServerIndex == (old(currentServerIndex) + 1) % |servers|
      ensures currentServerIndex < |servers|
    {
      server := servers[currentServerIndex];
      currentServerIndex := (currentServerIndex + 1) % |servers|;
    }

    /** The filter loop with its early return, compared with the reference
        definition `Blocked`. */
    method IsIpBlocked(ip: string) returns (blocked: bool)
      ensures blocked <==> exists k :: 0 <= k < |blockedIpRanges| && blockedIpRanges[k] <= ip
      ensures blocked <==> Blocked(ip)
    {
      var k := 0;
      while k < |blockedIpRanges|
        invariant 0 <= k <= |blockedIpRanges|
        invariant forall m :: 0 <= m < k ==> !(blockedIpRanges[m] <= ip)
      {
        var range := blockedIpRanges[k];
        PrefixMatch(ip, range);
        if Prefix(ip, |range|) == range {
          return true;
        }
        k := k + 1;
      }
      assert !(blockedIpRanges[0] <= ip) && !(blockedIpRanges[1] <= ip);
      return false;
    }

    method GetRejectedRequests() returns (n: int)
      ensures n == rejectedRequests
    {
      n := rejectedRequests;
    }

    method GetActiveServers() returns (n: int)
      ensures n == activeServers
    {
      n := activeServers;
    }

    method GetInactiveServers() returns (n: int)
      ensures n == totalServers - activeServers
    {
      n := totalServers - activeServers;
    }

    method SetTotalServers(total: int)
      modifies this`totalServers
      ensures totalServers == total
    {
      totalServers := total;
    }

    /** Admission: an unblocked request is queued at the back and counted in
        `processedRequests`; a blocked one only bumps `rejectedRequests`. */
    method AddRequest(r: Request)
      modifies this`processedRequests, this`rejectedRequests, requestQueue
      ensures !Blocked(r.ipIn) ==>
                && requestQueue.items == old(requestQueue.items) + [r]
                && processedRequests == old(processedRequests) + 1
                && rejectedRequests == old(rejectedRequests)
      ensures Blocked(r.ipIn) ==>
                && requestQueue.items == old(requestQueue.items)
                && processedRequests == old(processedRequests)
                && rejectedRequests == old(rejectedRequests) + 1
    {
      var blocked := IsIpBlocked(r.ipIn);
      if !blocked {
        requestQueue.AddRequest(r);
        IncrementProcessedRequests();
      } else {
        rejectedRequests := rejectedRequests + 1;
      }
    }

    /** Appends one new idle server named 'A' + size exactly when `Grows`
        holds of the queue length and pool size; the queue is not touched. */
    method AllocateServer()
      requires Valid()
      modifies this`servers
      ensures Valid()
      ensures Grows(|requestQueue.items|, |old(servers)|) ==>
                && |servers| == |old(servers)| + 1
                && servers[..|old(servers)|] == old(servers)
                && fresh(servers[|old(servers)|])
                && servers[|old(servers)|].View() == NewServer(ServerName(|old(servers)|))
      ensures !Grows(|requestQueue.items|, |old(servers)|) ==> servers == old(servers)
    {
      var queueSize := requestQueue.Size();
      if queueSize > |servers| * 5 && |servers| < MaxServers {
        var newServerId := ServerName(|servers|);
        var server := new WebServer(newServerId);
        servers := servers + [server];
      }
    }

    /** Pops the last server exactly when `Shrinks` holds, busy or not; the
        servers before it are kept. */
    method DeallocateServer()
      requires Valid()
      modifies this`servers
      ensures Valid()
      ensures Shrinks(|requestQueue.items|, |old(servers)|) ==>
                servers == old(servers)[..|old(servers)| - 1]
      ensures !Shrinks(|requestQueue.items|, |old(servers)|) ==> servers == old(servers)
    {
      var queueSize := requestQueue.Size();
      if queueSize < |servers| * 2 && |servers| > MinServers {
        servers := servers[..|servers| - 1];
      }
    }
  }

  /** `k` successive `getNextServer` calls: the servers they return are the
      ones under the cursor positions `RoundRobin` lists, and the cursor is
      left where the next call would read. */
  method NextServers(lb: LoadBalancer, k: nat) returns (picked: seq<WebServer>)
    requires lb.currentServerIndex < |lb.servers|
    modifies lb`currentServerIndex
    ensures |picked| == k
    ensures forall j :: 0 <= j < k
              ==> picked[j] == lb.servers[RoundRobin(old(lb.currentServerIndex), |lb.servers|, k)[j]]
    ensures lb.currentServerIndex == RoundRobin(old(lb.currentServerIndex), |lb.servers|, k + 1)[k]
  {
    ghost var i := lb.currentServerIndex;
    ghost var n := |lb.servers|;
    picked := [];
    while |picked| < k
      invariant |picked| <= k && lb.servers == old(lb.servers)
      invariant forall j :: 0 <= j < |picked| ==> picked[j] == lb.servers[RoundRobin(i, n, |picked|)[j]]
      invariant lb.currentServerIndex == RoundRobin(i, n, |picked| + 1)[|picked|]
    {
      var m := |picked|;
      RoundRobinSnoc(i, n, m);
      RoundRobinSnoc(i, n, m + 1);
      var server := lb.GetNextServer();
      picked := picked + [server];
    }
  }
}
