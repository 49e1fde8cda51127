/** The balancer of the Project3 revision: a clock and an owned queue. Both
    `addRequest` and `getRequest` advance the clock by one tick; there is no
    admission filter and no server pool. */
module Project3LoadBalancers {
  import opened Project3Requests
  import opened Project3RequestQueues

  class LoadBalancer {
    var systemTime: int
    const requestQueue: RequestQueue

    /** `LoadBalancer()`: the clock starts at 0 and the queue is empty. */
    constructor ()
      ensures systemTime == 0
      ensures fresh(requestQueue) && requestQueue.items == []
    {
      systemTime := 0;
      requestQueue := new RequestQueue();
    }

    method GetTime() returns (t: int)
      ensures t == systemTime
    {
      t := systemTime;
    }

    method IncTime()
      modifies this`systemTime
      ensures systemTime == old(systemTime) + 1
    {
      systemTime := systemTime + 1;
    }

    /** `addRequest`: enqueue unconditionally, then one tick. */
    method AddRequest(r: Request)
      modifies this`systemTime, requestQueue
      ensures requestQueue.items == old(requestQueue.items) + [r]
      ensures systemTime == old(systemTime) + 1
    {
      requestQueue.AddRequest(r);
      IncTime();
    }

    /** `getRequest`: one tick, then dequeue; the tick happens even when the
        queue is empty and `EmptyRequest` comes back. */
    method GetRequest() returns (r: Request)
      modifies this`systemTime, requestQueue
      ensures systemTime == old(systemTime) + 1
      ensures old(requestQueue.items) == [] ==> r == EmptyRequest && requestQueue.items == []
      ensures old(requestQueue.items) != [] ==>
                r == old(requestQueue.items)[0] && requestQueue.items == old(requestQueue.items)[1..]
    {
      IncTime();
      r := requestQueue.GetRequest();
    }

    method IsRequestQueueEmpty() returns (empty: bool)
      ensures empty <==> requestQueue.items == []
    {
      empty := requestQueue.IsEmpty();
    }
  }

  /** Submitting `xs` to a new balancer and then asking for `|xs| + extra`
      requests returns `xs` in order followed by `extra` empty requests, and
      the clock has advanced once per call. */
  method SubmitThenServe(xs: seq<Request>, extra: nat) returns (out: seq<Request>, clock: int)
    ensures out == xs + seq(extra, _ => EmptyRequest)
    ensures clock == 2 * |xs| + extra
  {
    var lb := new LoadBalancer();
    var i := 0;
    while i < |xs|
      invariant 0 <= i <= |xs|
      invariant lb.requestQueue.items == xs[..i]
      invariant lb.systemTime == i
    {
      lb.AddRequest(xs[i]);
      i := i + 1;
    }
    out := [];
    var k := 0;
    while k < |xs| + extra
      invariant 0 <= k <= |xs| + extra
      invariant lb.systemTime == |xs| + k
      invariant k <= |xs| ==> |out| == k && out + lb.requestQueue.items == xs
      invariant k > |xs| ==> out == xs + seq(k - |xs|, _ => EmptyRequest) && lb.requestQueue.items == []
    {
      var r := lb.GetRequest();
      out := out + [r];
      k := k + 1;
    }
    clock := lb.GetTime();
  }
}
