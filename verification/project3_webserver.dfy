/** The server of the Project3 revision. It holds one request and an
    `activeRequests` counter that `addRequest` raises and every completed
    `isRequestDone` lowers, with no guard in either direction. The class keeps
    the source's fields; `ServerView` is their value, and the pure functions
    `Assign` and `Poll` are what `addRequest` and `isRequestDone` do to it. */
module Project3WebServers {
  import opened Project3Requests

  datatype ServerView = ServerView(
    r: Request,
    requestStartTime: int,
    serverName: char,
    activeRequests: int)

  datatype PollResult = PollResult(done: bool, server: ServerView)

  /** What both constructors build: the empty request, start 0, no active
      requests, and the given name. */
  function NewServer(name: char): (v: ServerView)
    ensures v.r.processTime == 0 && v.requestStartTime == 0
    ensures v.serverName == name && v.activeRequests == 0
  {
    ServerView(EmptyRequest, 0, name, 0)
  }

  /** `addRequest(req, currTime)`: stores the request and its start time and
      counts one more active request, whatever the server was doing. */
  function Assign(v: ServerView, req: Request, currTime: int): (w: ServerView)
    ensures w.r == req && w.requestStartTime == currTime
    ensures w.activeRequests == v.activeRequests + 1
    ensures w.serverName == v.serverName
  {
    v.(r := req, requestStartTime := currTime, activeRequests := v.activeRequests + 1)
  }

  /** `isRequestDone(currTime)`: done strictly after start plus process time;
      a done answer calls `finishRequest`, which lowers the counter. */
  function Poll(v: ServerView, currTime: int): (res: PollResult)
    ensures res.done <==> currTime > v.requestStartTime + v.r.processTime
    ensures res.done ==> res.server == v.(activeRequests := v.activeRequests - 1)
    ensures !res.done ==> res.server == v
  {
    if currTime > v.requestStartTime + v.r.processTime then
      PollResult(true, v.(activeRequests := v.activeRequests - 1))
    else
      PollResult(false, v)
  }

  /** A request assigned at `t` is reported done at `now` exactly when
      `now` is past `t + processTime`, and the report undoes the count the
      assignment added. */
  lemma CompletionAfterAssign(v: ServerView, req: Request, t: int, now: int)
    ensures Poll(Assign(v, req, t), now).done <==> now > t + req.processTime
    ensures Poll(Assign(v, req, t), now).done ==>
              Poll(Assign(v, req, t), now).server.activeRequests == v.activeRequests
  {
  }

  /** The server after `k` calls of `isRequestDone(currTime)`. */
  function PollTimes(v: ServerView, currTime: int, k: nat): (w: ServerView)
    decreases k
  {
    if k == 0 then v else PollTimes(Poll(v, currTime).server, currTime, k - 1)
  }

  /** Once the deadline has passed, every further call reports done again
      and lowers the counter again: after `k` calls it has dropped by `k`. */
  lemma {:induction false} RepeatedPollsKeepDecrementing(v: ServerView, currTime: int, k: nat)
    requires currTime > v.requestStartTime + v.r.processTime
    ensures PollTimes(v, currTime, k).activeRequests == v.activeRequests - k
    ensures PollTimes(v, currTime, k) == v.(activeRequests := v.activeRequests - k)
    decreases k
  {
    if k > 0 {
      var w := Poll(v, currTime).server;
      assert w == v.(activeRequests := v.activeRequests - 1);
      RepeatedPollsKeepDecrementing(w, currTime, k - 1);
    }
  }

  /** Before the deadline no number of calls changes anything. */
  lemma {:induction false} EarlyPollsChangeNothing(v: ServerView, currTime: int, k: nat)
    requires currTime <= v.requestStartTime + v.r.processTime
    ensures PollTimes(v, currTime, k) == v
    decreases k
  {
    if k > 0 {
      EarlyPollsChangeNothing(v, currTime, k - 1);
    }
  }

  /** The counter has no lower bound: one request, polled twice after its
      deadline, leaves a fresh server at -1 active requests. */
  lemma ActiveCanGoNegative(name: char, req: Request, t: int)
    ensures PollTimes(Assign(NewServer(name), req, t), t + req.processTime + 1, 2).activeRequests == -1
  {
    RepeatedPollsKeepDecrementing(Assign(NewServer(name), req, t), t + req.processTime + 1, 2);
  }

  class WebServer {
    var r: Request
    var requestStartTime: int
    const serverName: char
    var activeRequests: int

    function View(): ServerView
      reads this
    {
      ServerView(r, requestStartTime, serverName, activeRequests)
    }

    /** `WebServer()`: named ' '. */
    constructor Default()
      ensures View() == NewServer(' ')
    {
      r := EmptyRequest;
      requestStartTime := 0;
      serverName := ' ';
      activeRequests := 0;
    }

    /** `WebServer(c)`. */
    constructor (c: char)
      ensures View() == NewServer(c)
    {
      r := EmptyRequest;
      requestStartTime := 0;
      serverName := c;
      activeRequests := 0;
    }

    method AddRequest(req: Request, currTime: int)
      modifies this
      ensures View() == Assign(old(View()), req, currTime)
    {
      r := req;
      requestStartTime := currTime;
      activeRequests := activeRequests + 1;
    }

    /** `getRequest`: the last assigned request. */
    method GetRequest() returns (req: Request)
      ensures req == r
    {
      req := r;
    }

    method GetName() returns (c: char)
      ensures c == serverName
    {
      c := serverName;
    }

    method IsRequestDone(currTime: int) returns (done: bool)
      modifies this
      ensures PollResult(done, View()) == Poll(old(View()), currTime)
    {
      if currTime > requestStartTime + r.processTime {
        FinishRequest();
        return true;
      }
      return false;
    }

    method GetActiveRequests() returns (n: int)
      ensures n == activeRequests
    {
      n := activeRequests;
    }

    /** `finishRequest`: one fewer active request, with no lower bound. */
    method FinishRequest()
      modifies this`activeRequests
      ensures activeRequests == old(activeRequests) - 1
    {
      activeRequests := activeRequests - 1;
    }
  }
}
