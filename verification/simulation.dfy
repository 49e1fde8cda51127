/** The driver of main.cpp: the dispatch pool set up at lines 58-60 and the
    tick loop at lines 89-131, without logging and without random request
    generation (the request submitted at each tick, if any, is supplied by
    the caller). The driver's pool is its own sequence of servers; the
    balancer's scaling rules resize only the balancer's private vector. */
module Simulation {
  import opened Wrappers
  import opened Requests
  import opened RequestQueues
  import opened WebServers
  import opened LoadBalancers

  predicate Distinct(servers: seq<WebServer>)
  {
    forall i, j :: 0 <= i < j < |servers| ==> servers[i] != servers[j]
  }

  function Views(servers: seq<WebServer>): (vs: seq<ServerView>)
    reads servers
    ensures |vs| == |servers|
  {
    if servers == [] then [] else [servers[0].View()] + Views(servers[1..])
  }

  /** `Views` lists the servers' states in pool order. */
  lemma {:induction false} ViewsAt(servers: seq<WebServer>)
    ensures forall i :: 0 <= i < |servers| ==> Views(servers)[i] == servers[i].View()
    decreases |servers|
  {
    if servers != [] {
      ViewsAt(servers[1..]);
      forall i | 0 <= i < |servers|
        ensures Views(servers)[i] == servers[i].View()
      {
        if i > 0 {
          assert Views(servers)[i] == Views(servers[1..])[i - 1];
        }
      }
    }
  }

  /** The sum of the servers' processed-request counters. */
  function TotalProcessed(vs: seq<ServerView>): int
  {
    if vs == [] then 0 else TotalProcessed(vs[..|vs| - 1]) + vs[|vs| - 1].processedRequestCount
  }

  /** What one pass of the inner loop body (main.cpp:91-107) does to one
      server, given the queue it finds and the current tick. */
  datatype Step = Step(server: ServerView, queue: seq<Request>, completed: bool, taken: seq<Request>)

  function StepServer(v: ServerView, q: seq<Request>, now: int): (s: Step)
    // the queue loses at most its front, which is what the server took
    ensures q == s.taken + s.queue && |s.taken| <= 1
    ensures s.server.serverName == v.serverName
  {
    if !v.hasActiveRequest then
      if q != [] then Step(Assign(v, q[0], now), q[1..], false, [q[0]])
      else Step(v, q, false, [])
    else
      var r := Poll(v, now);
      if r.done then
        var w := r.server.(processedRequestCount := r.server.processedRequestCount + 1);
        if q != [] then Step(Assign(w, q[0], now), q[1..], true, [q[0]])
        else Step(w, q, true, [])
      else Step(v, q, false, [])
  }

  /** The inner loop body as main.cpp writes it: a free server (idle, or
      busy and just done) takes the front request at the current tick; a
      completion is a busy server whose request is done; a busy server that
      is not done, and an idle one facing an empty queue, are left alone. */
  lemma StepServerCases(v: ServerView, q: seq<Request>, now: int)
    ensures var s := StepServer(v, q, now);
            && ((!v.hasActiveRequest || s.completed) && q != [] ==> s.taken == [q[0]])
            && (s.taken != [] ==>
                  && s.server.hasActiveRequest
                  && s.server.currentRequest == s.taken[0]
                  && s.server.requestStartTime == StoredStart(s.taken[0], now))
            && (s.completed <==> v.hasActiveRequest && Poll(v, now).done)
            && s.server.processedRequestCount
                 == v.processedRequestCount + (if s.completed then 1 else 0)
            && (v.hasActiveRequest && !s.completed ==> s == Step(v, q, false, []))
            && (!v.hasActiveRequest && q == [] ==> s == Step(v, q, false, []))
  {
  }

  /** The state after the inner loop has visited the first `i` servers. */
  datatype Sweep = Sweep(servers: seq<ServerView>, queue: seq<Request>, completions: nat, dispatched: seq<Request>)

  function SweepPrefix(vs: seq<ServerView>, q: seq<Request>, now: int, i: nat): (r: Sweep)
    requires i <= |vs|
    ensures |r.servers| == i
    ensures |r.dispatched| <= i && r.completions <= i
    decreases i
  {
    if i == 0 then Sweep([], q, 0, [])
    else
      var p := SweepPrefix(vs, q, now, i - 1);
      var s := StepServer(vs[i - 1], p.queue, now);
      Sweep(p.servers + [s.server], s.queue,
            p.completions + (if s.completed then 1 else 0), p.dispatched + s.taken)
  }

  /** Extending a sweep by one server is one more step of the fold. */
  lemma SweepPrefixNext(vs: seq<ServerView>, q: seq<Request>, now: int, i: nat, p: Sweep, s: Step)
    requires i < |vs| && p == SweepPrefix(vs, q, now, i)
    requires s == StepServer(vs[i], p.queue, now)
    ensures SweepPrefix(vs, q, now, i + 1)
            == Sweep(p.servers + [s.server], s.queue,
                     p.completions + (if s.completed then 1 else 0), p.dispatched + s.taken)
  {
  }

  /** One full sweep over the pool at tick `now`. */
  function SweepAll(vs: seq<ServerView>, q: seq<Request>, now: int): (r: Sweep)
    ensures |r.servers| == |vs|
    ensures |r.dispatched| <= |vs| && r.completions <= |vs|
  {
    SweepPrefix(vs, q, now, |vs|)
  }

  lemma TotalProcessedSnoc(vs: seq<ServerView>, v: ServerView)
    ensures TotalProcessed(vs + [v]) == TotalProcessed(vs) + v.processedRequestCount
  {
    assert (vs + [v])[..|vs|] == vs;
  }

  /** Sequence concatenation regroups; proved on its own so that the
      induction step below stays cheap. */
  lemma AppendAssoc<T>(a: seq<T>, b: seq<T>, c: seq<T>)
    ensures a + (b + c) == (a + b) + c
  {
  }

  /** A sweep dispatches a prefix of the queue in FIFO order, at most one
      request per server. */
  lemma {:induction false} SweepDispatchesPrefix(vs: seq<ServerView>, q: seq<Request>, now: int, i: nat)
    requires i <= |vs|
    ensures q == SweepPrefix(vs, q, now, i).dispatched + SweepPrefix(vs, q, now, i).queue
    ensures |SweepPrefix(vs, q, now, i).dispatched| <= i
    ensures SweepPrefix(vs, q, now, i).completions <= i
    decreases i
  {
    if i > 0 {
      SweepDispatchesPrefix(vs, q, now, i - 1);
      var p := SweepPrefix(vs, q, now, i - 1);
      var s := StepServer(vs[i - 1], p.queue, now);
      assert SweepPrefix(vs, q, now, i).dispatched == p.dispatched + s.taken;
      assert SweepPrefix(vs, q, now, i).queue == s.queue;
      assert SweepPrefix(vs, q, now, i).completions == p.completions + (if s.completed then 1 else 0);
      assert p.queue == s.taken + s.queue;
      AppendAssoc(p.dispatched, s.taken, s.queue);
    }
  }

  /** Every completion a sweep counts is exactly one more on the counter of
      the server that completed. */
  lemma {:induction false} SweepCountsCompletions(vs: seq<ServerView>, q: seq<Request>, now: int, i: nat)
    requires i <= |vs|
    ensures TotalProcessed(SweepPrefix(vs, q, now, i).servers)
            == TotalProcessed(vs[..i]) + SweepPrefix(vs, q, now, i).completions
    decreases i
  {
    if i > 0 {
      SweepCountsCompletions(vs, q, now, i - 1);
      var p := SweepPrefix(vs, q, now, i - 1);
      var s := StepServer(vs[i - 1], p.queue, now);
      var r := SweepPrefix(vs, q, now, i);
      assert r.servers == p.servers + [s.server];
      assert r.completions == p.completions + (if s.completed then 1 else 0);
      StepServerCases(vs[i - 1], p.queue, now);
      TotalProcessedSnoc(p.servers, s.server);
      assert vs[..i][..i - 1] == vs[..i - 1];
      assert TotalProcessed(vs[..i]) == TotalProcessed(vs[..i - 1]) + vs[i - 1].processedRequestCount;
    }
  }

  /** The j-th server's state is fixed once the sweep has passed it: it is
      one step from its old state against the queue its predecessors left. */
  lemma {:induction false} SweepServerAt(vs: seq<ServerView>, q: seq<Request>, now: int, i: nat, j: nat)
    requires j < i <= |vs|
    ensures SweepPrefix(vs, q, now, i).servers[j]
            == StepServer(vs[j], SweepPrefix(vs, q, now, j).queue, now).server
    decreases i
  {
    var p := SweepPrefix(vs, q, now, i - 1);
    var s := StepServer(vs[i - 1], p.queue, now);
    assert SweepPrefix(vs, q, now, i).servers == p.servers + [s.server];
    if j < i - 1 {
      SweepServerAt(vs, q, now, i - 1, j);
    }
  }

  /** Servers are visited in vector order. */
  lemma SweepVisitsInOrder(vs: seq<ServerView>, q: seq<Request>, now: int, i: nat)
    requires i <= |vs|
    ensures forall j :: 0 <= j < i ==>
              SweepPrefix(vs, q, now, i).servers[j]
              == StepServer(vs[j], SweepPrefix(vs, q, now, j).queue, now).server
  {
    forall j | 0 <= j < i
      ensures SweepPrefix(vs, q, now, i).servers[j]
              == StepServer(vs[j], SweepPrefix(vs, q, now, j).queue, now).server
    {
      SweepServerAt(vs, q, now, i, j);
    }
  }

  /** With every server idle and nothing queued a sweep changes nothing. */
  lemma {:induction false} QuietSweep(vs: seq<ServerView>, now: int, i: nat)
    requires i <= |vs|
    requires forall j :: 0 <= j < |vs| ==> !vs[j].hasActiveRequest
    ensures SweepPrefix(vs, [], now, i) == Sweep(vs[..i], [], 0, [])
    decreases i
  {
    if i > 0 {
      QuietSweep(vs, now, i - 1);
      assert vs[..i - 1] + [vs[i - 1]] == vs[..i];
    }
  }

  /** The requests admitted from the arrival at tick `t`, stamped with that
      tick as the driver does. */
  function Admitted(arrival: Option<Request>, t: int): (adm: seq<Request>)
    ensures |adm| <= 1
    ensures adm != [] <==> arrival.Some? && !Blocked(arrival.value.ipIn)
  {
    if arrival.Some? && !Blocked(arrival.value.ipIn) then [arrival.value.(arrivalTime := t)] else []
  }

  function Rejected(arrival: Option<Request>): nat
  {
    if arrival.Some? && Blocked(arrival.value.ipIn) then 1 else 0
  }

  function Arrived(arrival: Option<Request>): nat
  {
    if arrival.Some? then 1 else 0
  }

  /** Requests admitted at ticks t0 .. t-1, in tick order. */
  function AdmittedBetween(arrivals: int -> Option<Request>, t0: int, t: int): (adm: seq<Request>)
    ensures |adm| <= if t <= t0 then 0 else t - t0
    ensures forall k :: 0 <= k < |adm| ==> !Blocked(adm[k].ipIn) && t0 <= adm[k].arrivalTime < t
    decreases t - t0
  {
    if t <= t0 then [] else AdmittedBetween(arrivals, t0, t - 1) + Admitted(arrivals(t - 1), t - 1)
  }

  function RejectedBetween(arrivals: int -> Option<Request>, t0: int, t: int): (n: nat)
    ensures n <= if t <= t0 then 0 else t - t0
    decreases t - t0
  {
    if t <= t0 then 0 else RejectedBetween(arrivals, t0, t - 1) + Rejected(arrivals(t - 1))
  }

  function ArrivedBetween(arrivals: int -> Option<Request>, t0: int, t: int): nat
    decreases t - t0
  {
    if t <= t0 then 0 else ArrivedBetween(arrivals, t0, t - 1) + Arrived(arrivals(t - 1))
  }

  /** Every submitted request is either admitted or rejected, never both. */
  lemma {:induction false} AdmissionPartitionsArrivals(arrivals: int -> Option<Request>, t0: int, t: int)
    ensures |AdmittedBetween(arrivals, t0, t)| + RejectedBetween(arrivals, t0, t)
            == ArrivedBetween(arrivals, t0, t)
    decreases t - t0
  {
    if t > t0 {
      AdmissionPartitionsArrivals(arrivals, t0, t - 1);
    }
  }

  /** main.cpp:58-60: `numServers` idle servers named 'A' + i. */
  method SetupPool(numServers: int) returns (servers: seq<WebServer>)
    ensures |servers| == if numServers < 0 then 0 else numServers
    ensures Distinct(servers)
    ensures forall i :: 0 <= i < |servers| ==> fresh(servers[i])
    ensures forall i :: 0 <= i < |servers| ==> servers[i].View() == NewServer(ServerName(i))
  {
    servers := [];
    var i := 0;
    while i < numServers
      invariant 0 <= i <= if numServers < 0 then 0 else numServers
      invariant |servers| == i
      invariant Distinct(servers)
      invariant forall j :: 0 <= j < i ==> fresh(servers[j])
      invariant forall j :: 0 <= j < i ==> servers[j].View() == NewServer(ServerName(j))
    {
      var server := new WebServer(ServerName(i));
      servers := servers + [server];
      i := i + 1;
    }
  }

  /** main.cpp:91-107: the inner loop's body for one server of the
      driver's pool, against the balancer's queue at the current tick. */
  method VisitServer(lb: LoadBalancer, server: WebServer, ghost v: ServerView, ghost q: seq<Request>, ghost now: int)
    returns (ghost step: Step)
    requires server.View() == v && lb.requestQueue.items == q && lb.currentTime == now
    modifies lb`processedRequests, lb.requestQueue, server
    ensures step == StepServer(v, q, now)
    ensures server.View() == step.server
    ensures lb.requestQueue.items == step.queue
    ensures lb.processedRequests == old(lb.processedRequests) + (if step.completed then 1 else 0)
  {
    step := StepServer(v, q, now);
    StepServerCases(v, q, now);
    var idle := server.IsIdle();
    if idle {
      var empty := lb.IsRequestQueueEmpty();
      if !empty {
        var req := lb.GetRequest();
        var t := lb.GetTime();
        server.AddRequest(req, t);
      }
    } else {
      var t := lb.GetTime();
      var done := server.IsRequestDone(t);
      if done {
        lb.IncrementProcessedRequests();
        server.IncrementProcessedRequestCount();
        var empty := lb.IsRequestQueueEmpty();
        if !empty {
          var req := lb.GetRequest();
          var t' := lb.GetTime();
          server.AddRequest(req, t');
        }
      }
    }
  }

  /** The state of the inner loop after it has visited `servers[..i]`. */
  ghost predicate SweptUpTo(lb: LoadBalancer, servers: seq<WebServer>, v0: seq<ServerView>, q0: seq<Request>,
                            p0: int, now: int, i: nat, sweep: Sweep)
    reads lb, lb.requestQueue, servers
  {
    && i <= |servers| == |v0|
    && lb.currentTime == now
    && sweep == SweepPrefix(v0, q0, now, i)
    && (forall j :: 0 <= j < |servers| ==>
          servers[j].View() == if j < i then sweep.servers[j] else v0[j])
    && lb.requestQueue.items == sweep.queue
    && lb.processedRequests == p0 + sweep.completions
  }

  /** One iteration of the inner loop, on server `i`. */
  method VisitNext(lb: LoadBalancer, servers: seq<WebServer>, i: nat, ghost v0: seq<ServerView>,
                   ghost q0: seq<Request>, ghost p0: int, ghost now: int, ghost sweep: Sweep)
    returns (ghost sweep': Sweep)
    requires Distinct(servers) && i < |servers|
    requires SweptUpTo(lb, servers, v0, q0, p0, now, i, sweep)
    modifies lb`processedRequests, lb.requestQueue, servers[i]
    ensures SweptUpTo(lb, servers, v0, q0, p0, now, i + 1, sweep')
  {
    ghost var step := VisitServer(lb, servers[i], v0[i], sweep.queue, now);
    SweepPrefixNext(v0, q0, now, i, sweep, step);
    sweep' := Sweep(sweep.servers + [step.server], step.queue,
                    sweep.completions + (if step.completed then 1 else 0), sweep.dispatched + step.taken);
  }

  /** main.cpp:90-108: the inner loop over the driver's pool, in vector
      order, at the current tick. */
  method DispatchSweep(lb: LoadBalancer, servers: seq<WebServer>) returns (ghost sweep: Sweep)
    requires Distinct(servers)
    modifies lb`processedRequests, lb.requestQueue, servers
    ensures sweep == SweepAll(old(Views(servers)), old(lb.requestQueue.items), lb.currentTime)
    ensures Views(servers) == sweep.servers
    ensures lb.requestQueue.items == sweep.queue
    ensures lb.processedRequests == old(lb.processedRequests) + sweep.completions
  {
    ghost var v0 := Views(servers);
    ViewsAt(servers);
    ghost var q0 := lb.requestQueue.items;
    ghost var p0 := lb.processedRequests;
    ghost var now := lb.currentTime;
    var i := 0;
    sweep := SweepPrefix(v0, q0, now, 0);
    while i < |servers|
      invariant 0 <= i <= |servers|
      invariant SweptUpTo(lb, servers, v0, q0, p0, now, i, sweep)
    {
      sweep := VisitNext(lb, servers, i, v0, q0, p0, now, sweep);
      i := i + 1;
    }
    ViewsAt(servers);
    assert Views(servers) == sweep.servers;
  }

  /** What a whole sweep does to the queue and to the servers' counters. */
  lemma SweepAllFacts(vs: seq<ServerView>, q: seq<Request>, now: int)
    ensures var r := SweepAll(vs, q, now);
            && q == r.dispatched + r.queue
            && |r.dispatched| <= |vs|
            && TotalProcessed(r.servers) == TotalProcessed(vs) + r.completions
  {
    SweepDispatchesPrefix(vs, q, now, |vs|);
    SweepCountsCompletions(vs, q, now, |vs|);
    assert vs[..|vs|] == vs;
  }

  /** main.cpp:111-112: `allocateServer` then `deallocateServer`, against
      the queue as the sweep left it. */
  method ScalePool(lb: LoadBalancer)
    requires lb.Valid()
    modifies lb`servers
    ensures lb.Valid()
    ensures |lb.servers| == Rescale(|lb.requestQueue.items|, |old(lb.servers)|)
    ensures |lb.servers| <= |old(lb.servers)| ==> lb.servers == old(lb.servers)[..|lb.servers|]
    ensures |lb.servers| > |old(lb.servers)| ==>
              && lb.servers[..|old(lb.servers)|] == old(lb.servers)
              && fresh(lb.servers[|old(lb.servers)|])
              && lb.servers[|old(lb.servers)|].View() == NewServer(ServerName(|old(lb.servers)|))
  {
    RescaleBounds(|lb.requestQueue.items|, |lb.servers|);
    lb.AllocateServer();
    lb.DeallocateServer();
  }

  /** main.cpp:115-128: the tick's new request, if any, is stamped with the
      current tick and handed to `addRequest`. */
  method Admit(lb: LoadBalancer, arrival: Option<Request>)
    modifies lb`processedRequests, lb`rejectedRequests, lb.requestQueue
    ensures lb.requestQueue.items == old(lb.requestQueue.items) + Admitted(arrival, lb.currentTime)
    ensures lb.processedRequests == old(lb.processedRequests) + |Admitted(arrival, lb.currentTime)|
    ensures lb.rejectedRequests == old(lb.rejectedRequests) + Rejected(arrival)
  {
    if arrival.Some? {
      var t := lb.GetTime();
      lb.AddRequest(arrival.value.(arrivalTime := t));
    }
  }

  /** main.cpp:111-130: what the tick does after the sweep: scaling,
      admission, and the clock advance. */
  method FinishTick(lb: LoadBalancer, arrival: Option<Request>)
    requires lb.Valid()
    modifies lb`currentTime, lb`processedRequests, lb`rejectedRequests, lb`servers, lb.requestQueue
    ensures lb.Valid()
    ensures |lb.servers| == Rescale(|old(lb.requestQueue.items)|, |old(lb.servers)|)
    ensures |lb.servers| <= |old(lb.servers)| ==> lb.servers == old(lb.servers)[..|lb.servers|]
    ensures |lb.servers| > |old(lb.servers)| ==>
              && lb.servers[..|old(lb.servers)|] == old(lb.servers)
              && fresh(lb.servers[|old(lb.servers)|])
              && lb.servers[|old(lb.servers)|].View() == NewServer(ServerName(|old(lb.servers)|))
    ensures lb.requestQueue.items == old(lb.requestQueue.items) + Admitted(arrival, old(lb.currentTime))
    ensures lb.processedRequests == old(lb.processedRequests) + |Admitted(arrival, old(lb.currentTime))|
    ensures lb.rejectedRequests == old(lb.rejectedRequests) + Rejected(arrival)
    ensures lb.currentTime == old(lb.currentTime) + 1
  {
    ScalePool(lb);
    Admit(lb, arrival);
    lb.IncTime();
  }

  /** One iteration of the tick loop (main.cpp:90-130): the dispatch sweep,
      the balancer's scaling rules, admission of the caller's request (if
      any) stamped with the current tick, and the clock advance. */
  method Tick(lb: LoadBalancer, servers: seq<WebServer>, arrival: Option<Request>) returns (ghost sweep: Sweep)
    requires Distinct(servers) && lb.Valid()
    modifies lb`currentTime, lb`processedRequests, lb`rejectedRequests, lb`servers
    modifies lb.requestQueue, servers
    ensures lb.Valid()
    ensures sweep == SweepAll(old(Views(servers)), old(lb.requestQueue.items), old(lb.currentTime))
    ensures Views(servers) == sweep.servers
    ensures lb.requestQueue.items == sweep.queue + Admitted(arrival, old(lb.currentTime))
    ensures |lb.servers| == Rescale(|sweep.queue|, |old(lb.servers)|)
    ensures |lb.servers| <= |old(lb.servers)| ==> lb.servers == old(lb.servers)[..|lb.servers|]
    ensures |lb.servers| > |old(lb.servers)| ==>
              && lb.servers[..|old(lb.servers)|] == old(lb.servers)
              && fresh(lb.servers[|old(lb.servers)|])
              && lb.servers[|old(lb.servers)|].View() == NewServer(ServerName(|old(lb.servers)|))
    ensures old(lb.requestQueue.items) + Admitted(arrival, old(lb.currentTime))
            == sweep.dispatched + lb.requestQueue.items
    ensures |sweep.dispatched| <= |servers|
    ensures lb.processedRequests
            == old(lb.processedRequests) + sweep.completions + |Admitted(arrival, old(lb.currentTime))|
    ensures TotalProcessed(Views(servers)) == old(TotalProcessed(Views(servers))) + sweep.completions
    ensures lb.rejectedRequests == old(lb.rejectedRequests) + Rejected(arrival)
    ensures lb.currentTime == old(lb.currentTime) + 1
  {
    SweepAllFacts(Views(servers), lb.requestQueue.items, lb.currentTime);
    ghost var admitted := Admitted(arrival, lb.currentTime);
    sweep := DispatchSweep(lb, servers);
    ghost var after := Views(servers);
    FinishTick(lb, arrival);
    AppendAssoc(sweep.dispatched, sweep.queue, admitted);
    assert Views(servers) == after;
  }

  /** The balancer's queue and counters and the servers' counters when the
      tick loop starts. */
  datatype Start = Start(time: int, queue: seq<Request>, processed: int, completed: int, rejected: int)

  /** The state of the tick loop after the ticks `st.time .. lb.currentTime - 1`
      have run: the queue is what is left of the old queue and the admitted
      requests once `dispatched` went to the servers, and the counters grew
      by the admissions, completions and rejections. */
  ghost predicate RanSince(lb: LoadBalancer, servers: seq<WebServer>, arrivals: int -> Option<Request>,
                           st: Start, dispatched: seq<Request>, completions: nat)
    reads lb, lb.requestQueue, servers
  {
    && lb.Valid()
    && st.queue + AdmittedBetween(arrivals, st.time, lb.currentTime) == dispatched + lb.requestQueue.items
    && lb.processedRequests
       == st.processed + |AdmittedBetween(arrivals, st.time, lb.currentTime)| + completions
    && TotalProcessed(Views(servers)) == st.completed + completions
    && lb.rejectedRequests == st.rejected + RejectedBetween(arrivals, st.time, lb.currentTime)
  }

  /** One iteration of the tick loop, fed the caller's arrival for the
      current tick. */
  method RunTick(lb: LoadBalancer, servers: seq<WebServer>, arrivals: int -> Option<Request>, ghost st: Start,
                 ghost dispatched: seq<Request>, ghost completions: nat)
    returns (ghost dispatched': seq<Request>, ghost completions': nat)
    requires Distinct(servers) && st.time <= lb.currentTime
    requires RanSince(lb, servers, arrivals, st, dispatched, completions)
    modifies lb`currentTime, lb`processedRequests, lb`rejectedRequests, lb`servers
    modifies lb.requestQueue, servers
    ensures lb.currentTime == old(lb.currentTime) + 1
    ensures RanSince(lb, servers, arrivals, st, dispatched', completions')
  {
    var t := lb.GetTime();
    var arrival := arrivals(t);
    ghost var admitted := AdmittedBetween(arrivals, st.time, t);
    ghost var sweep := Tick(lb, servers, arrival);
    assert AdmittedBetween(arrivals, st.time, t + 1) == admitted + Admitted(arrival, t);
    AppendAssoc(st.queue, admitted, Admitted(arrival, t));
    AppendAssoc(dispatched, sweep.dispatched, lb.requestQueue.items);
    dispatched' := dispatched + sweep.dispatched;
    completions' := completions + sweep.completions;
  }

  /** The tick loop (main.cpp:89-131): runs while the clock is below
      `runTime`, one tick per iteration. `processedRequests` ends up counting
      every admission plus every completion observed, and the queue is
      drained strictly in admission order. */
  method Run(lb: LoadBalancer, servers: seq<WebServer>, runTime: int, arrivals: int -> Option<Request>)
    returns (ghost ticks: nat, ghost dispatched: seq<Request>, ghost completions: nat)
    requires Distinct(servers) && lb.Valid()
    modifies lb`currentTime, lb`processedRequests, lb`rejectedRequests, lb`servers
    modifies lb.requestQueue, servers
    ensures lb.Valid()
    ensures ticks == if old(lb.currentTime) < runTime then runTime - old(lb.currentTime) else 0
    ensures lb.currentTime == old(lb.currentTime) + ticks
    ensures old(lb.requestQueue.items) + AdmittedBetween(arrivals, old(lb.currentTime), lb.currentTime)
            == dispatched + lb.requestQueue.items
    ensures lb.processedRequests
            == old(lb.processedRequests) + |AdmittedBetween(arrivals, old(lb.currentTime), lb.currentTime)|
               + completions
    ensures TotalProcessed(Views(servers)) == old(TotalProcessed(Views(servers))) + completions
    ensures lb.rejectedRequests
            == old(lb.rejectedRequests) + RejectedBetween(arrivals, old(lb.currentTime), lb.currentTime)
  {
    ghost var st := Start(lb.currentTime, lb.requestQueue.items, lb.processedRequests,
                          TotalProcessed(Views(servers)), lb.rejectedRequests);
    ticks, dispatched, completions := 0, [], 0;
    while lb.currentTime < runTime
      invariant lb.currentTime == st.time + ticks
      invariant st.time < runTime ==> lb.currentTime <= runTime
      invariant st.time >= runTime ==> ticks == 0
      invariant RanSince(lb, servers, arrivals, st, dispatched, completions)
      decreases runTime - lb.currentTime
    {
      dispatched, completions := RunTick(lb, servers, arrivals, st, dispatched, completions);
      ticks := ticks + 1;
    }
  }
}
