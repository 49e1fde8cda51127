/** The FIFO of the Project3 revision: a `std::queue<Request>` updated in
    place, modelled as a sequence field whose front is element 0. */
module Project3RequestQueues {
  import opened Project3Requests

  class RequestQueue {
    /** The queued requests, front first. */
    var items: seq<Request>

    /** `RequestQueue()`: an empty queue. */
    constructor ()
      ensures items == []
    {
      items := [];
    }

    /** `addRequest`: push at the back. */
    method AddRequest(r: Request)
      modifies this
      ensures items == old(items) + [r]
      ensures |items| == |old(items)| + 1
    {
      items := items + [r];
    }

    /** `getRequest`: pop the front, or hand back `EmptyRequest` when the
        queue is empty (the queue then stays empty). */
    method GetRequest() returns (r: Request)
      modifies this
      ensures old(items) == [] ==> r == EmptyRequest && items == []
      ensures old(items) != [] ==> r == old(items)[0] && items == old(items)[1..]
    {
      if items != [] {
        r := items[0];
        items := items[1..];
        return;
      }
      r := EmptyRequest;
    }

    /** `isEmpty`: read-only. */
    method IsEmpty() returns (empty: bool)
      ensures empty <==> items == []
    {
      empty := items == [];
    }

    /** `size`: read-only. */
    method Size() returns (n: nat)
      ensures n == |items|
    {
      n := |items|;
    }
  }

  /** FIFO order: pushing `xs` one at a time into a new queue and then popping
      as many times returns `xs` in insertion order and empties the queue;
      one more pop yields `EmptyRequest`. */
  method FifoOrder(xs: seq<Request>) returns (out: seq<Request>, extra: Request)
    ensures out == xs
    ensures extra == EmptyRequest
  {
    var q := new RequestQueue();
    var i := 0;
    while i < |xs|
      invariant 0 <= i <= |xs|
      invariant q.items == xs[..i]
    {
      q.AddRequest(xs[i]);
      i := i + 1;
    }
    out := [];
    while |out| < |xs|
      invariant |out| <= |xs|
      invariant out + q.items == xs
    {
      var r := q.GetRequest();
      out := out + [r];
    }
    extra := q.GetRequest();
  }
}
