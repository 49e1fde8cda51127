/** The one-slot worker of webserver.cpp: Idle (no active request) or Busy.
    The class keeps the source's fields; `ServerView` is their value, and the
    pure functions `Assign` and `Poll` are what `addRequest` and
    `isRequestDone` do to it. */
module WebServers {
  import opened Wrappers
  import opened Requests

  /** C++ `x / 2` on `int`, which truncates toward zero (Dafny's `/` is
      Euclidean and differs for odd negative `x`). */
  function Half(x: int): (h: int)
    ensures 0 <= x ==> 0 <= x - 2 * h <= 1
    ensures x < 0 ==> -1 <= x - 2 * h <= 0
  {
    if x >= 0 then x / 2 else -((-x) / 2)
  }

  /** `static_cast<char>('A' + i)`: the name of the i-th server, truncated to
      one byte. */
  function ServerName(i: nat): (c: char)
    ensures i < 256 - 'A' as int ==> c as int == 'A' as int + i
    ensures c as int < 256
  {
    (('A' as int + i) % 256) as char
  }

  datatype ServerView = ServerView(
    serverName: char,
    currentRequest: Request,
    requestStartTime: int,
    hasActiveRequest: bool,
    processedRequestCount: int)

  datatype PollResult = PollResult(done: bool, server: ServerView)

  /** A freshly constructed server (webserver.cpp:11-12); its request is the
      default-constructed one. */
  function NewServer(name: char): (v: ServerView)
    ensures v.serverName == name && !v.hasActiveRequest && v.processedRequestCount == 0
  {
    ServerView(name, DefaultRequest, 0, false, 0)
  }

  /** The start time `addRequest` stores: a streaming ('S') job is shifted
      by half its process time, every other job starts at `currTime`. */
  function StoredStart(req: Request, currTime: int): (start: int)
    ensures req.jobType != 'S' ==> start == currTime
    ensures req.processTime >= 0 ==> currTime <= start <= currTime + req.processTime
  {
    if req.jobType == 'S' then currTime + Half(req.processTime) else currTime
  }

  /** `addRequest(req, currTime)`: no idleness check, so a busy server's
      request is overwritten. */
  function Assign(v: ServerView, req: Request, currTime: int): (w: ServerView)
    ensures w.hasActiveRequest && w.currentRequest == req
    ensures w.serverName == v.serverName
    ensures w.processedRequestCount == v.processedRequestCount
  {
    v.(currentRequest := req, requestStartTime := StoredStart(req, currTime), hasActiveRequest := true)
  }

  /** The tick from which `isRequestDone` answers true for the stored state:
      start + processTime for 'P', start + processTime/2 for 'S', never for
      any other job type. */
  function Deadline(v: ServerView): (d: Option<int>)
    ensures d.Some? <==> v.currentRequest.jobType == 'P' || v.currentRequest.jobType == 'S'
    ensures d.Some? && v.currentRequest.processTime >= 0 ==>
              v.requestStartTime <= d.value <= v.requestStartTime + v.currentRequest.processTime
  {
    if v.currentRequest.jobType == 'P' then Some(v.requestStartTime + v.currentRequest.processTime)
    else if v.currentRequest.jobType == 'S' then Some(v.requestStartTime + Half(v.currentRequest.processTime))
    else None
  }

  /** `isRequestDone(currTime)`: true exactly when a request is active and
      its deadline has been reached; a true answer makes the server idle and
      changes nothing else, a false answer changes nothing. */
  function Poll(v: ServerView, currTime: int): (r: PollResult)
    ensures r.done <==> v.hasActiveRequest && Deadline(v).Some? && currTime >= Deadline(v).value
    ensures r.done ==> r.server == v.(hasActiveRequest := false)
    ensures !r.done ==> r.server == v
    ensures r.server.processedRequestCount == v.processedRequestCount
  {
    if v.hasActiveRequest then
      if v.currentRequest.jobType == 'P' then
        if currTime >= v.requestStartTime + v.currentRequest.processTime then
          PollResult(true, v.(hasActiveRequest := false))
        else PollResult(false, v)
      else if v.currentRequest.jobType == 'S' then
        if currTime >= v.requestStartTime + Half(v.currentRequest.processTime) then
          PollResult(true, v.(hasActiveRequest := false))
        else PollResult(false, v)
      else PollResult(false, v)
    else PollResult(false, v)
  }

  /** The effective duration of a job as measured from the tick it was
      assigned: processTime for 'P', twice the truncated half for 'S' (the
      half-shift is applied once at assignment and once more in the test). */
  function Duration(req: Request): (d: Option<int>)
    ensures d.Some? <==> req.jobType == 'P' || req.jobType == 'S'
    ensures d.Some? && req.processTime >= 0 ==> req.processTime - 1 <= d.value <= req.processTime
    ensures req.jobType == 'P' ==> d == Some(req.processTime)
  {
    if req.jobType == 'P' then Some(req.processTime)
    else if req.jobType == 'S' then Some(2 * Half(req.processTime))
    else None
  }

  /** After `addRequest(req, t)`, `isRequestDone(now)` answers true exactly
      when the job type is 'P' or 'S' and `now >= t + Duration(req)`. */
  lemma CompletionAfterAssign(v: ServerView, req: Request, t: int, now: int)
    ensures Poll(Assign(v, req, t), now).done
            <==> Duration(req).Some? && now >= t + Duration(req).value
  {
  }

  /** The 'S' double half-shift: an odd positive process time finishes one
      tick early, an even one exactly on time. */
  lemma StreamingDuration(req: Request)
    requires req.jobType == 'S' && req.processTime >= 0
    ensures req.processTime % 2 == 1 ==> Duration(req) == Some(req.processTime - 1)
    ensures req.processTime % 2 == 0 ==> Duration(req) == Some(req.processTime)
  {
  }

  /** The answers of `isRequestDone` called at each of `times` in turn. */
  function PollAll(v: ServerView, times: seq<int>): (answers: seq<bool>)
    ensures |answers| == |times|
    decreases |times|
  {
    if times == [] then []
    else
      var r := Poll(v, times[0]);
      [r.done] + PollAll(r.server, times[1..])
  }

  /** An idle server never completes, however often it is polled. */
  lemma {:induction false} IdleNeverCompletes(v: ServerView, times: seq<int>)
    requires !v.hasActiveRequest
    ensures forall i :: 0 <= i < |times| ==> !PollAll(v, times)[i]
    decreases |times|
  {
    if times != [] {
      IdleNeverCompletes(Poll(v, times[0]).server, times[1..]);
    }
  }

  /** A job whose type is neither 'P' nor 'S' never completes. */
  lemma {:induction false} OtherJobNeverCompletes(v: ServerView, times: seq<int>)
    requires v.currentRequest.jobType != 'P' && v.currentRequest.jobType != 'S'
    ensures forall i :: 0 <= i < |times| ==> !PollAll(v, times)[i]
    decreases |times|
  {
    if times != [] {
      OtherJobNeverCompletes(Poll(v, times[0]).server, times[1..]);
    }
  }

  /** `isRequestDone` reports each assignment's completion at most once. */
  lemma {:induction false} CompletesAtMostOnce(v: ServerView, times: seq<int>)
    ensures forall i, j :: 0 <= i < j < |times| && PollAll(v, times)[i] ==> !PollAll(v, times)[j]
    decreases |times|
  {
    if times != [] {
      var r := Poll(v, times[0]);
      CompletesAtMostOnce(r.server, times[1..]);
      if r.done {
        IdleNeverCompletes(r.server, times[1..]);
      }
    }
  }

  class WebServer {
    const serverName: char
    var currentRequest: Request
    var requestStartTime: int
    var hasActiveRequest: bool
    var processedRequestCount: int

    function View(): ServerView
      reads this
    {
      ServerView(serverName, currentRequest, requestStartTime, hasActiveRequest, processedRequestCount)
    }

    /** `WebServer(name)`: idle, nothing processed. */
    constructor (name: char)
      ensures View() == NewServer(name)
    {
      serverName := name;
      currentRequest := DefaultRequest;
      requestStartTime := 0;
      hasActiveRequest := false;
      processedRequestCount := 0;
    }

    method AddRequest(req: Request, currTime: int)
      modifies this
      ensures View() == Assign(old(View()), req, currTime)
    {
      currentRequest := req;
      requestStartTime := currTime;
      hasActiveRequest := true;
      if req.jobType == 'P' {
        // processing jobs keep the start time
      } else if req.jobType == 'S' {
        requestStartTime := requestStartTime + Half(req.processTime);
      }
    }

    method IsRequestDone(currTime: int) returns (done: bool)
      modifies this
      ensures PollResult(done, View()) == Poll(old(View()), currTime)
    {
      if hasActiveRequest {
        if currentRequest.jobType == 'P' {
          if currTime >= requestStartTime + currentRequest.processTime {
            hasActiveRequest := false;
            return true;
          }
        } else if currentRequest.jobType == 'S' {
          if currTime >= requestStartTime + Half(currentRequest.processTime) {
            hasActiveRequest := false;
            return true;
          }
        }
      }
      return false;
    }

    method IncrementProcessedRequestCount()
      modifies this
      ensures View() == old(View()).(processedRequestCount := old(processedRequestCount) + 1)
    {
      processedRequestCount := processedRequestCount + 1;
    }

    method GetProcessedRequestCount() returns (n: int)
      ensures n == processedRequestCount
    {
      n := processedRequestCount;
    }

    method IsIdle() returns (idle: bool)
      ensures idle <==> !hasActiveRequest
    {
      idle := !hasActiveRequest;
    }

    method GetName() returns (name: char)
      ensures name == serverName
    {
      name := serverName;
    }
  }
}
