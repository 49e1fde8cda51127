/** The FIFO of requestqueue.cpp: a `std::queue<Request>` updated in place,
    modelled as a sequence field whose front is element 0. */
module RequestQueues {
  import opened Requests

  class RequestQueue {
    /** The queued requests, front first. */
    var items: seq<Request>

    /** The implicit default constructor: an empty `std::queue`. */
    constructor ()
      ensures items == []
    {
      items := [];
    }

    /** `addRequest`: push at the back. */
    method AddRequest(r: Request)
      modifies this
      ensures items == old(items) + [r]
      ensures |items| == |old(items)| + 1
    {
      items := items + [r];
    }

    /** `getRequest`: pop the front, or hand back the default request when
        the queue is empty (the queue then stays empty). */
    method GetRequest() returns (r: Request)
      modifies this
      ensures old(items) == [] ==> r == DefaultRequest && items == []
      ensures old(items) != [] ==> r == old(items)[0] && items == old(items)[1..]
    {
      if items != [] {
        r := items[0];
        items := items[1..];
        return;
      }
      r := DefaultRequest;
    }

    /** `isEmpty`: read-only. */
    method IsEmpty() returns (empty: bool)
      ensures empty <==> items == []
    {
      empty := |items| == 0;
    }

    /** `size`: read-only. */
    method Size() returns (n: nat)
      ensures n == |items|
    {
      n := |items|;
    }
  }

  /** FIFO order: pushing `xs` one at a time into a new queue and then popping
      as many times returns `xs` in insertion order and empties the queue;
      one more pop yields the default request. */
  method EnqueueThenDrain(xs: seq<Request>) returns (out: seq<Request>, extra: Request)
    ensures out == xs
    ensures extra == DefaultRequest
  {
    var q := new RequestQueue();
    var i := 0;
    while i < |xs|
      invariant 0 <= i <= |xs|
      invariant q.items == xs[..i]
    {
      q.AddRequest(xs[i]);
      i := i + 1;
    }
    out := [];
    while |out| < |xs|
      invariant |out| <= |xs|
      invariant out + q.items == xs
    {
      var r := q.GetRequest();
      out := out + [r];
    }
    extra := q.GetRequest();
  }
}
