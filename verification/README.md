# Load-balancer simulation: a verified Dafny model

This project models the discrete-time load-balancer engine of a small C++
simulation, in both revisions the repository contains.

The root revision has four parts:

- **Request queue.** A FIFO of request values. Popping an empty queue
  returns the default request.
- **Web server.** A one-slot worker that is either idle or busy. A
  processing job (`'P'`) finishes at start + process time. The start of a
  streaming job (`'S'`) is shifted by half its process time, and the job then
  waits another half.
- **Load balancer.** It has:
  - a blocked-prefix address filter with admitted and rejected counters;
  - a round-robin cursor;
  - threshold scaling of a private server vector;
  - a logical clock.
- **Driver tick loop.** Each tick it sweeps the driver's own pool of servers
  in vector order:
  - an idle server takes the front request;
  - a busy server that is done bumps the balancer's and its own counter,
    then takes the next request;
  - afterwards the balancer applies its scaling rules, admits the tick's
    request (if any) and advances the clock.

The Project3 revision is a separate set of modules (`Project3...`) with these
parts:

- a server with an unguarded `activeRequests` counter and a strict
  completion test;
- the same FIFO;
- a balancer whose `addRequest` and `getRequest` each advance the clock.

Form of the model:

- Requests are values (datatypes); their getters are the destructors, and
  nothing validates a request.
- Queues, servers and balancers are classes whose methods update their
  fields.
- Each server class has a pure `ServerView` value and pure functions
  (`Assign`, `Poll`). The methods are proved against those functions, and the
  lemmas about the functions state what the source promises across calls.
- The driver's loops are methods proved against a left fold over the pool
  (`SweepPrefix`/`SweepAll`). Properties of the fold are proved as lemmas.

Modules: `Wrappers` (Option), `Requests`, `RequestQueues`, `WebServers`,
`LoadBalancers`, `Simulation`, `Project3Requests`, `Project3RequestQueues`,
`Project3WebServers`, `Project3LoadBalancers`.

Behaviour of the code that a reader might not expect, all of it modelled as
written:

- **Streaming jobs.** `addRequest` shifts the start of an 'S' job by `C/2`
  (webserver.cpp:32-33), and `isRequestDone` then tests against another
  `C/2` (webserver.cpp:53-54). The job therefore finishes at `T + 2*(C/2)`
  after assignment at `T`: that is `C` for even non-negative `C`, and `C - 1`
  for odd non-negative `C` (`WebServers.StreamingDuration`). Nothing
  validates `C`; for odd negative `C`, C++ truncation gives `C + 1`.
- **Shrinking.** The doc comment of `deallocateServer` (loadbalancer.cpp:189)
  speaks of servers "no longer active". The code (loadbalancer.cpp:195-198)
  pops the last server whether or not it is busy.
- **Dispatch order.** The tick loop visits the driver's pool in vector order
  (main.cpp:90). `getNextServer` (loadbalancer.cpp:78-82) is round-robin, but
  the tick loop never calls it.
- **Scaling pool.** `allocateServer` and `deallocateServer` resize the
  balancer's private vector (loadbalancer.h:154). The tick loop dispatches to
  the driver's own vector (main.cpp:52), which scaling never changes.
- **Counters.** `processedRequests` counts admissions (loadbalancer.cpp:163)
  as well as completions (main.cpp:98).
- **Assigning to a busy server.** The doc comment of `addRequest`
  (webserver.h:32) speaks of the server's "queue". The code
  (webserver.cpp:25-28) holds one request and overwrites it without checking
  whether the server is idle.

## Model

| member | source | states |
|---|---|---|
| RequestQueues.RequestQueue.constructor | requestqueue.h:55 | a new queue is empty |
| RequestQueues.RequestQueue.AddRequest | requestqueue.cpp:10-12 | the request is appended at the back and the size grows by exactly one |
| RequestQueues.RequestQueue.GetRequest | requestqueue.cpp:22-29 | a non-empty queue returns its front and keeps the rest in order; an empty queue returns the default request ("", "", 0, ' ', 0) and stays empty |
| RequestQueues.RequestQueue.IsEmpty | requestqueue.cpp:38-40 | true iff the queue holds nothing, i.e. iff its size is 0; read-only |
| RequestQueues.RequestQueue.Size | requestqueue.cpp:49-51 | the number of queued requests, 0 exactly when empty; read-only |
| RequestQueues.EnqueueThenDrain | requestqueue.cpp:10-29 | FIFO: pushing a sequence into a new queue and popping as many times yields it in insertion order; one more pop yields the default request |
| WebServers.Half | webserver.cpp:33 | C++ truncating `x / 2`: the remainder `x - 2h` has the sign of `x` and magnitude at most 1 |
| WebServers.ServerName | main.cpp:59 | `static_cast<char>('A' + i)`: the one-byte name, equal to 'A' + i while that fits in a byte |
| WebServers.NewServer | webserver.cpp:11-12 | a new server has the given name, is idle and has processed nothing |
| WebServers.Assign | webserver.cpp:25-35 | after `addRequest` the server is busy with the given request, whatever it was doing before; name and count unchanged |
| WebServers.StoredStart | webserver.cpp:27-34 | the stored start is the call's tick for every job but 'S'; for a non-negative process time it lies between that tick and tick + process time |
| WebServers.Poll | webserver.cpp:46-61 | `isRequestDone` is true iff a request is active, its job type is 'P' or 'S' and the deadline is reached; true makes the server idle and changes nothing else; false changes nothing; the count never changes |
| WebServers.Deadline | webserver.cpp:48-57 | a deadline exists iff the job type is 'P' or 'S'; for a non-negative process time it lies between the stored start and start + process time |
| WebServers.Duration | webserver.cpp:25-57 | a completion delay exists iff the type is 'P' or 'S'; it is the process time for 'P' and, for a non-negative time, at most one tick shorter for 'S' |
| WebServers.CompletionAfterAssign | webserver.cpp:25-57 | after assignment at t, done at `now` iff the type is 'P' or 'S' and `now >= t + Duration` ('P': processTime, 'S': twice the truncated half) |
| WebServers.StreamingDuration | webserver.cpp:32-33 | the 'S' double half-shift: an odd non-negative process time finishes one tick early, an even one on time |
| WebServers.IdleNeverCompletes | webserver.cpp:46-60 | an idle server answers false to every poll in any sequence of polls |
| WebServers.OtherJobNeverCompletes | webserver.cpp:46-60 | a job whose type is neither 'P' nor 'S' is never reported done |
| WebServers.CompletesAtMostOnce | webserver.cpp:46-60 | in any sequence of polls, at most one answer is true per assignment |
| WebServers.WebServer.constructor | webserver.cpp:11-12 | the new object's state is `NewServer(name)` |
| WebServers.WebServer.AddRequest | webserver.cpp:25-35 | the new state is `Assign` of the old state |
| WebServers.WebServer.IsRequestDone | webserver.cpp:46-61 | the answer and the new state are `Poll` of the old state |
| WebServers.WebServer.IncrementProcessedRequestCount | webserver.cpp:68-70 | the count rises by exactly one and nothing else changes |
| WebServers.WebServer.GetProcessedRequestCount | webserver.cpp:77-79 | returns the count, read-only |
| WebServers.WebServer.IsIdle | webserver.cpp:86-88 | true iff no request is active |
| WebServers.WebServer.GetName | webserver.cpp:95-97 | returns the constructor's name |
| LoadBalancers.Prefix | loadbalancer.cpp:92 | `substr(0, len)`: at most `len` characters, and a prefix of the string |
| LoadBalancers.PrefixMatch | loadbalancer.cpp:92 | the loop's test is exactly "the range is a prefix of the address"; an address shorter than the range never matches |
| LoadBalancers.Blocked | loadbalancer.cpp:138-140 | the reference filter: the address starts with "192.168.0." or "10.0.0."; no address shorter than seven characters is blocked |
| LoadBalancers.Grows | loadbalancer.cpp:177-178 | when the growth test fires, the shrink test fires neither at the current size nor at the grown size |
| LoadBalancers.Shrinks | loadbalancer.cpp:195-196 | when the shrink test fires, the smaller pool stays at or above 10 and the same queue is not long enough to grow it back |
| LoadBalancers.Rescale | main.cpp:111-112 | one `allocateServer` + `deallocateServer` round adds a server iff `Grows`, removes one iff `Shrinks`, and otherwise keeps the size |
| LoadBalancers.RescaleBounds | loadbalancer.cpp:176-198 | grow and shrink never fire together; one allocate+deallocate round moves the pool by at most one, never above 50 from within bounds, never below 10 from at least 10 |
| LoadBalancers.NextIndex | loadbalancer.cpp:80 | the cursor after one call is the next index, wrapping to 0 after the last |
| LoadBalancers.RoundRobin | loadbalancer.cpp:78-82 | the cursor positions of `k` steps: exactly `k` of them, each inside the pool when the start is |
| LoadBalancers.RoundRobinSnoc | loadbalancer.cpp:78-82 | one more step appends one position, the one after the last visited modulo the pool size |
| LoadBalancers.RoundRobinCounts | loadbalancer.cpp:78-82 | without wrapping, successive cursor steps visit consecutive indices |
| LoadBalancers.RoundRobinSplit | loadbalancer.cpp:78-82 | the cursor wraps to 0 exactly after the last server |
| LoadBalancers.RoundRobinCoversPool | loadbalancer.cpp:78-82 | from any cursor inside the pool, `n` successive cursor steps visit all `n` indices |
| LoadBalancers.NextServers | loadbalancer.cpp:78-82 | `k` successive `getNextServer` calls return the servers at the cursor steps `RoundRobin` lists, and leave the cursor at the next step |
| LoadBalancers.LoadBalancer.constructor | loadbalancer.h:141-154 | clock, cursor, counters and server totals start at 0; empty queue and empty private pool |
| LoadBalancers.LoadBalancer.GetTime | loadbalancer.cpp:19-21 | returns the clock |
| LoadBalancers.LoadBalancer.IncTime | loadbalancer.cpp:26-28 | the clock rises by exactly one |
| LoadBalancers.LoadBalancer.GetRequest | loadbalancer.cpp:35-37 | delegates to the queue's pop (front, or the default request when empty) |
| LoadBalancers.LoadBalancer.IsRequestQueueEmpty | loadbalancer.cpp:44-46 | true iff the queue is empty |
| LoadBalancers.LoadBalancer.GetRequestQueueSize | loadbalancer.cpp:53-55 | the queue length |
| LoadBalancers.LoadBalancer.GetProcessedRequests | loadbalancer.cpp:62-64 | returns the processed counter |
| LoadBalancers.LoadBalancer.IncrementProcessedRequests | loadbalancer.cpp:69-71 | the processed counter rises by exactly one |
| LoadBalancers.LoadBalancer.GetNextServer | loadbalancer.cpp:78-82 | returns the server under the cursor and moves the cursor to `(i + 1) % size` |
| LoadBalancers.LoadBalancer.IsIpBlocked | loadbalancer.cpp:90-97 | true iff some range in the installed list is a prefix of the address, i.e. iff `Blocked` holds: the address starts with "192.168.0." or "10.0.0." (the ranges of loadbalancer.cpp:138-140) |
| LoadBalancers.LoadBalancer.GetRejectedRequests | loadbalancer.cpp:104-106 | returns the rejected counter |
| LoadBalancers.LoadBalancer.GetActiveServers | loadbalancer.cpp:113-115 | returns the active-server count |
| LoadBalancers.LoadBalancer.GetInactiveServers | loadbalancer.cpp:122-124 | total minus active |
| LoadBalancers.LoadBalancer.SetTotalServers | loadbalancer.cpp:131-133 | stores the total |
| LoadBalancers.LoadBalancer.AddRequest | loadbalancer.cpp:160-168 | an unblocked request is appended and counted in `processedRequests`, rejected counter unchanged; a blocked one leaves queue and processed counter unchanged and bumps the rejected counter |
| LoadBalancers.LoadBalancer.AllocateServer | loadbalancer.cpp:176-186 | iff queue > 5·pool and pool < 50, exactly one fresh idle server named 'A' + old size is appended, earlier servers kept; otherwise the pool is unchanged; the queue is never touched |
| LoadBalancers.LoadBalancer.DeallocateServer | loadbalancer.cpp:194-204 | iff queue < 2·pool and pool > 10, exactly the last server is removed, busy or not; otherwise the pool is unchanged |
| Simulation.StepServer | main.cpp:91-107 | one server's turn: the queue loses at most its front, and only to this server; the name never changes |
| Simulation.StepServerCases | main.cpp:91-107 | an idle server, or a busy one that just finished, takes the front when the queue is non-empty, at the current tick; a completion is a busy server whose poll says done and bumps its count by one; a busy server not done, or an idle server facing an empty queue, is unchanged |
| Simulation.SweepPrefix | main.cpp:90-108 | the inner `for` over the first i servers as a left fold: i new server states, at most i requests dispatched and at most i completions |
| Simulation.SweepAll | main.cpp:90-108 | the fold over the whole pool: one new state per server, at most one dispatch and one completion per server |
| Simulation.SweepDispatchesPrefix | main.cpp:90-108 | after visiting i servers, the old queue is exactly the dispatched requests followed by the remaining queue, with at most i requests dispatched and at most i completions |
| Simulation.SweepCountsCompletions | main.cpp:97-99 | the servers' processed counts rise in total by exactly the completions the sweep reports to the balancer |
| Simulation.SweepServerAt | main.cpp:90-108 | servers are visited in vector order: server j's new state is one step against the queue its predecessors left |
| Simulation.SweepVisitsInOrder | main.cpp:90-108 | the same, for all visited servers at once |
| Simulation.QuietSweep | main.cpp:90-108 | with every server idle and an empty queue, a sweep changes nothing |
| Simulation.SweepAllFacts | main.cpp:90-108 | for a whole sweep: queue conservation, at most one dispatch per server, and completions equal the rise in the servers' counts |
| Simulation.Admitted | main.cpp:124-125 | the tick's arrival is queued iff there is one and its address is not blocked |
| Simulation.AdmittedBetween | main.cpp:115-125 | the requests admitted over a span of ticks: at most one per tick, none from a blocked address, each stamped with a tick inside the span |
| Simulation.RejectedBetween | loadbalancer.cpp:160-168 | the rejections over a span of ticks: at most one per tick |
| Simulation.AdmissionPartitionsArrivals | loadbalancer.cpp:160-168 | over any span of ticks, every arrival is either admitted or rejected, never both |
| Simulation.SetupPool | main.cpp:58-60 | `max(numServers, 0)` fresh, distinct, idle servers named 'A' + i |
| Simulation.VisitServer | main.cpp:91-107 | the loop body's effect on the server, the queue and the balancer's counter is `StepServer` |
| Simulation.VisitNext | main.cpp:90-108 | one iteration of the inner loop extends the fold by one server and leaves the rest of the pool alone |
| Simulation.DispatchSweep | main.cpp:90-108 | the inner loop leaves the pool and queue as `SweepAll` of their old values and adds its completions to `processedRequests` |
| Simulation.ScalePool | main.cpp:111-112 | the private pool's new size is `Rescale` of the queue length and old size; kept servers are the old ones in order, a shrink pops exactly the last one, and a grown server is fresh, idle and named 'A' + old size |
| Simulation.Admit | main.cpp:124-125 | the arrival is stamped with the current tick; the queue grows by the admitted request and the counters by the admission or the rejection |
| Simulation.FinishTick | main.cpp:111-130 | scaling (the same size and contents as `ScalePool`), admission and a clock advance of exactly one |
| Simulation.Tick | main.cpp:90-130 | one tick: the sweep, then scaling against the post-sweep queue (size `Rescale`, old servers kept in order, a grown server fresh and idle), then admission and clock +1; the old queue plus the admitted request equals the dispatched requests plus the new queue; processed = old + completions + admissions; the servers' counts rise by the completions |
| Simulation.RunTick | main.cpp:89-131 | one loop iteration keeps the running totals exact and advances the clock by one |
| Simulation.Run | main.cpp:89-131 | the loop runs `max(runTime - start, 0)` ticks; every admitted request is dispatched in admission order or still queued; `processedRequests` = admissions + completions; the servers' counts rise by exactly the completions; rejections are counted |
| Project3RequestQueues.RequestQueue.constructor | Project3-Loadbalancer/src/requestqueue.cpp:6 | a new queue is empty |
| Project3RequestQueues.RequestQueue.AddRequest | Project3-Loadbalancer/src/requestqueue.cpp:13-15 | appends at the back, size +1 |
| Project3RequestQueues.RequestQueue.GetRequest | Project3-Loadbalancer/src/requestqueue.cpp:23-30 | front and rest in order, or `Request("", "", 0, ' ', 0)` and still empty |
| Project3RequestQueues.RequestQueue.IsEmpty | Project3-Loadbalancer/src/requestqueue.cpp:37-39 | true iff size is 0; read-only |
| Project3RequestQueues.RequestQueue.Size | Project3-Loadbalancer/src/requestqueue.cpp:46-48 | the number of queued requests; read-only |
| Project3RequestQueues.FifoOrder | Project3-Loadbalancer/src/requestqueue.cpp:13-30 | pushes then as many pops return the pushes in order; one more pop returns the empty request |
| Project3WebServers.NewServer | Project3-Loadbalancer/src/webserver.cpp:6-21 | both constructors: no active requests, start 0, a request of process time 0, the given name |
| Project3WebServers.Assign | Project3-Loadbalancer/src/webserver.cpp:29-33 | stores the request and start, and raises `activeRequests` by exactly one with no check |
| Project3WebServers.Poll | Project3-Loadbalancer/src/webserver.cpp:59-65 | done iff `now > start + processTime` (strict); done lowers the counter by one; not done changes nothing |
| Project3WebServers.CompletionAfterAssign | Project3-Loadbalancer/src/webserver.cpp:29-65 | assigned at t, done at `now` iff `now > t + processTime`, and that report returns the counter to its value before the assignment |
| Project3WebServers.RepeatedPollsKeepDecrementing | Project3-Loadbalancer/src/webserver.cpp:59-81 | after the deadline, k further calls lower the counter by exactly k and change nothing else |
| Project3WebServers.EarlyPollsChangeNothing | Project3-Loadbalancer/src/webserver.cpp:59-65 | before the deadline, any number of calls changes nothing |
| Project3WebServers.ActiveCanGoNegative | Project3-Loadbalancer/src/webserver.cpp:79-81 | a new server given one request and polled twice after its deadline has -1 active requests |
| Project3WebServers.WebServer.Default | Project3-Loadbalancer/src/webserver.cpp:6-10 | the state is `NewServer(' ')` |
| Project3WebServers.WebServer.constructor | Project3-Loadbalancer/src/webserver.cpp:17-21 | the state is `NewServer(c)` |
| Project3WebServers.WebServer.AddRequest | Project3-Loadbalancer/src/webserver.cpp:29-33 | the new state is `Assign` of the old |
| Project3WebServers.WebServer.GetRequest | Project3-Loadbalancer/src/webserver.cpp:40-42 | returns the last assigned request |
| Project3WebServers.WebServer.GetName | Project3-Loadbalancer/src/webserver.cpp:49-51 | returns the constructor's name |
| Project3WebServers.WebServer.IsRequestDone | Project3-Loadbalancer/src/webserver.cpp:59-65 | the answer and the new state are `Poll` of the old state |
| Project3WebServers.WebServer.GetActiveRequests | Project3-Loadbalancer/src/webserver.cpp:72-74 | returns the counter |
| Project3WebServers.WebServer.FinishRequest | Project3-Loadbalancer/src/webserver.cpp:79-81 | the counter drops by exactly one, with no lower bound |
| Project3LoadBalancers.LoadBalancer.constructor | Project3-Loadbalancer/src/loadbalancer.cpp:4 | the clock starts at 0 with an empty queue |
| Project3LoadBalancers.LoadBalancer.GetTime | Project3-Loadbalancer/src/loadbalancer.cpp:7-9 | returns the clock |
| Project3LoadBalancers.LoadBalancer.IncTime | Project3-Loadbalancer/src/loadbalancer.cpp:12-14 | the clock rises by exactly one |
| Project3LoadBalancers.LoadBalancer.AddRequest | Project3-Loadbalancer/src/loadbalancer.cpp:17-20 | always enqueues (no filter), and the clock rises by one |
| Project3LoadBalancers.LoadBalancer.GetRequest | Project3-Loadbalancer/src/loadbalancer.cpp:23-26 | the clock rises by one, then the front is popped, even when the queue is empty |
| Project3LoadBalancers.LoadBalancer.IsRequestQueueEmpty | Project3-Loadbalancer/src/loadbalancer.cpp:29-31 | true iff the queue is empty |
| Project3LoadBalancers.SubmitThenServe | Project3-Loadbalancer/src/loadbalancer.cpp:17-26 | submitting n requests and then asking for n + e returns them in order followed by e empty requests, and the clock reads 2n + e |

## Left out

- Logging: `LogManager`, every `logger.log` call, and `logRejectedRequest`
  (loadbalancer.cpp:147-149). They only write a file; the counter updates
  around them are modelled.
- Randomness and console input in main.cpp:
  - `generateRandomIP` and every `std::rand`;
  - `std::cin`;
  - the initial batch of random requests (main.cpp:67-80).

  The request submitted at each tick, if any, is a caller-supplied function
  from tick to optional request, stamped with the tick as the driver does. A
  run may start from any queue.
- Min/max process-time bookkeeping and the final report (main.cpp:138-161).
  They are output only.
- The Project3 driver (Project3-Loadbalancer/src/main.cpp) is not part of this
  model:
  - it calls a `getLeastLoadedServer` that its balancer does not declare;
  - it computes a floating-point average;
  - it does file and console I/O.
- Project3-Loadbalancer/src/visualize.py is not part of this model. It is
  plotting only.
- The Project3 balancer's fields `totalRequests` and `processedRequests`, and
  `allRequestsProcessed`, are declared but never initialised or defined.
- `WebServer::getId` (Project3-Loadbalancer/src/webserver.h:70) is not
  modelled. It is an inline cast of the name.
- C++ `int` overflow is not modelled. Counters, clock and process times are
  unbounded integers.
- `size_t` comparisons in the scaling rules are modelled as comparisons of
  natural numbers.
- LoadBalancers.LoadBalancer.GetNextServer requires the cursor to be inside
  the pool. That is what the source's indexing needs, but `deallocateServer`
  does not re-clamp the cursor, so the source itself can break it.
- Server names are modelled as the byte value of `'A' + i`, i.e. `(65 + i)`
  modulo 256. Whether `char` is signed does not change that byte.
- The `Request` getters (request.cpp:31-59) and both root `Request`
  constructors (request.cpp:9, 23-24) have no members of their own. They are
  the datatype's destructors and constructor, with `DefaultRequest` as the
  default value. Likewise the Project3 `Request` constructor and
  `EmptyRequest`.
- The driver's `std::vector<WebServer>` holds server values, iterated by
  reference. The model holds distinct server objects in a sequence, which
  has the same effect.
