/** The workers inside `uploadFile`: up to four loops that share one chunk counter and give up
    control only while a request is out. */
module WorkerPool {
  import opened Bytes

  const MAX_WORKERS := 4

  /** Where a worker stands between two turns of the event loop. */
  datatype Worker = Ready | Waiting(index: nat) | Done | Failed

  datatype Request = Request(index: nat, worker: nat)

  /** `sent` lists the requests in the order they went out, `acked` the indices answered with success. */
  datatype Pool = Pool(
    start: nat, total: nat, current: nat, hasError: bool, stopped: bool,
    workers: seq<Worker>, sent: seq<Request>, acked: set<nat>)

  function Open(start: nat, total: nat): Pool {
    Pool(start, total, start, false, false,
         if start < total then seq(Min(MAX_WORKERS, total - start), _ => Ready) else [], [], {})
  }

  datatype Event =
    | Turn(worker: nat)                   // the worker's loop runs until it awaits or ends
    | Respond(worker: nat, ok: bool)      // an answer, or a network error
    | Abort(worker: nat)
    | SetStopped(stopped: bool)           // the item is paused or cancelled, or no longer

  predicate Allowed(p: Pool, e: Event) {
    match e
    case Turn(w) => w < |p.workers| && p.workers[w].Ready?
    case Respond(w, _) => w < |p.workers| && p.workers[w].Waiting?
    case Abort(w) => w < |p.workers| && p.workers[w].Waiting?
    case SetStopped(_) => true
  }

  function Step(p: Pool, e: Event): Pool
    requires Allowed(p, e)
  {
    match e
    case Turn(w) =>
      if p.current >= p.total || p.hasError then p.(workers := p.workers[w := Done])
      else if p.stopped then p.(workers := p.workers[w := Failed])
      else p.(current := p.current + 1,
              workers := p.workers[w := Waiting(p.current)],
              sent := p.sent + [Request(p.current, w)])
    case Respond(w, ok) =>
      if ok then p.(workers := p.workers[w := Ready], acked := p.acked + {p.workers[w].index})
      else p.(workers := p.workers[w := Failed], hasError := true)
    case Abort(w) => p.(workers := p.workers[w := Failed])
    case SetStopped(stopped) => p.(stopped := stopped)
  }

  /** A request is answered, still out, or lost with the worker that sent it. */
  ghost predicate Accounted(p: Pool, k: nat)
    requires k < |p.sent|
  {
    var request := p.sent[k];
    && request.index == p.start + k && request.worker < |p.workers|
    && (|| request.index in p.acked
        || p.workers[request.worker] == Waiting(request.index)
        || p.workers[request.worker].Failed?)
  }

  ghost predicate Inv(p: Pool) {
    && |p.workers| <= MAX_WORKERS
    && p.current == p.start + |p.sent| && (p.current <= p.total || p.sent == [])
    && (forall k :: 0 <= k < |p.sent| ==> Accounted(p, k))
    && (forall w :: 0 <= w < |p.workers| && p.workers[w].Waiting? ==> Outstanding(p, w))
    && (forall i <- p.acked :: p.start <= i < p.current)
    && (p.hasError ==> exists w :: 0 <= w < |p.workers| && p.workers[w].Failed?)
    && (p.workers == [] ==> p.total <= p.start)
    && (forall w :: 0 <= w < |p.workers| && p.workers[w].Done? ==> p.hasError || p.total <= p.current)
  }

  /** What a waiting worker waits for is the request it sent last, and no one else's. */
  ghost predicate Outstanding(p: Pool, w: nat)
    requires w < |p.workers| && p.workers[w].Waiting?
  {
    var i := p.workers[w].index;
    p.start <= i < p.start + |p.sent| && p.sent[i - p.start].worker == w && i !in p.acked
  }

  lemma TurnKeepsInv(p: Pool, w: nat)
    requires Inv(p) && Allowed(p, Turn(w))
    ensures Inv(Step(p, Turn(w)))
  {
    var after := Step(p, Turn(w));
    forall k | 0 <= k < |after.sent|
      ensures Accounted(after, k)
    {
      assert k < |p.sent| ==> Accounted(p, k);
    }
    forall v | 0 <= v < |after.workers| && after.workers[v].Waiting?
      ensures Outstanding(after, v)
    {
      assert v != w ==> Outstanding(p, v);
    }
    if p.hasError {
      var v :| 0 <= v < |p.workers| && p.workers[v].Failed?;
      assert after.workers[v].Failed?;
    }
  }

  lemma AnswerKeepsInv(p: Pool, e: Event)
    requires Inv(p) && Allowed(p, e) && (e.Respond? || e.Abort?)
    ensures Inv(Step(p, e))
  {
    var w := e.worker;
    var after := Step(p, e);
    assert Outstanding(p, w);
    forall k | 0 <= k < |after.sent|
      ensures Accounted(after, k)
    {
      assert Accounted(p, k);
    }
    forall v | 0 <= v < |after.workers| && after.workers[v].Waiting?
      ensures Outstanding(after, v)
    {
      assert Outstanding(p, v);
    }
    if p.hasError {
      var v :| 0 <= v < |p.workers| && p.workers[v].Failed?;
      assert after.workers[v].Failed?;
    } else if after.hasError {
      assert after.workers[w].Failed?;
    }
  }

  lemma StepKeepsInv(p: Pool, e: Event)
    requires Inv(p) && Allowed(p, e)
    ensures Inv(Step(p, e))
  {
    match e
    case Turn(w) => TurnKeepsInv(p, w);
    case Respond(_, _) => AnswerKeepsInv(p, e);
    case Abort(_) => AnswerKeepsInv(p, e);
    case SetStopped(_) =>
      forall k | 0 <= k < |p.sent|
        ensures Accounted(Step(p, e), k)
      {
        assert Accounted(p, k);
      }
      assert forall w :: 0 <= w < |p.workers| && p.workers[w].Waiting? ==>
               Outstanding(p, w) && Outstanding(Step(p, e), w);
  }

  predicate AllAllowed(p: Pool, events: seq<Event>)
    decreases |events|
  {
    events == [] || (Allowed(p, events[0]) && AllAllowed(Step(p, events[0]), events[1..]))
  }

  function Run(p: Pool, events: seq<Event>): Pool
    requires AllAllowed(p, events)
    decreases |events|
  {
    if events == [] then p else Run(Step(p, events[0]), events[1..])
  }

  lemma {:induction false} RunKeepsInv(p: Pool, events: seq<Event>)
    requires Inv(p) && AllAllowed(p, events)
    ensures Inv(Run(p, events))
    ensures Run(p, events).start == p.start && Run(p, events).total == p.total
    decreases |events|
  {
    if events != [] {
      StepKeepsInv(p, events[0]);
      RunKeepsInv(Step(p, events[0]), events[1..]);
    }
  }

  function InFlight(workers: seq<Worker>): nat {
    if workers == [] then 0 else (if workers[0].Waiting? then 1 else 0) + InFlight(workers[1..])
  }

  lemma {:induction false} InFlightBound(workers: seq<Worker>)
    ensures InFlight(workers) <= |workers|
  {
    if workers != [] {
      InFlightBound(workers[1..]);
    }
  }

  /** In every interleaving the requests go out for start, start + 1, ... without gap or repeat, each by
      one worker, and at most four are out at a time. */
  lemma EachIndexTakenOnce(start: nat, total: nat, events: seq<Event>)
    requires AllAllowed(Open(start, total), events)
    ensures var p := Run(Open(start, total), events);
            && Inv(p) && InFlight(p.workers) <= MAX_WORKERS
            && (forall k :: 0 <= k < |p.sent| ==> p.sent[k].index == start + k)
            && (p.sent != [] ==> start + |p.sent| <= total)
  {
    RunKeepsInv(Open(start, total), events);
    var p := Run(Open(start, total), events);
    InFlightBound(p.workers);
    forall k | 0 <= k < |p.sent|
      ensures p.sent[k].index == start + k
    {
      assert Accounted(p, k);
    }
  }

  /** What makes `Promise.all` resolve, and the finish request go out. */
  predicate AllDone(p: Pool) {
    forall w :: 0 <= w < |p.workers| ==> p.workers[w].Done?
  }

  /** The finish request goes out only after every index from `start` on was sent once and answered. */
  lemma FinishMeansAllAcked(p: Pool)
    requires Inv(p) && AllDone(p)
    ensures |p.sent| == if p.start < p.total then p.total - p.start else 0
    ensures forall i :: p.start <= i < p.total ==> i in p.acked
  {
    forall i | p.start <= i < p.total
      ensures i in p.acked
    {
      if p.workers != [] {
        assert p.workers[0].Done?;
      }
      assert Accounted(p, i - p.start);
    }
    if p.start < p.total {
      assert p.workers[0].Done?;
    }
  }

  // ---- termination ----

  function Weight(w: Worker): nat {
    match w
    case Ready => 1
    case Waiting(_) => 2
    case Done => 0
    case Failed => 0
  }

  function Weights(workers: seq<Worker>): nat {
    if workers == [] then 0 else Weight(workers[0]) + Weights(workers[1..])
  }

  lemma {:induction false} WeightsUpdate(workers: seq<Worker>, w: nat, to: Worker)
    requires w < |workers|
    ensures Weights(workers[w := to]) == Weights(workers) - Weight(workers[w]) + Weight(to)
  {
    if w > 0 {
      WeightsUpdate(workers[1..], w - 1, to);
      assert workers[w := to][1..] == workers[1..][w - 1 := to];
    } else {
      assert workers[w := to][1..] == workers[1..];
    }
  }

  function Remaining(p: Pool): nat {
    3 * (if p.current < p.total then p.total - p.current else 0) + Weights(p.workers)
  }

  predicate Smooth(events: seq<Event>) {
    forall k :: 0 <= k < |events| ==> events[k].Turn? || (events[k].Respond? && events[k].ok)
  }

  lemma StepShrinks(p: Pool, e: Event)
    requires Allowed(p, e) && !e.SetStopped?
    ensures Remaining(Step(p, e)) < Remaining(p)
  {
    WeightsUpdate(p.workers, e.worker, Step(p, e).workers[e.worker]);
  }

  ghost predicate Unhurt(p: Pool) {
    !p.hasError && !p.stopped && forall w :: 0 <= w < |p.workers| ==> !p.workers[w].Failed?
  }

  /** Nothing is left to happen. */
  ghost predicate AtRest(p: Pool) {
    forall e :: Allowed(p, e) ==> e.SetStopped?
  }

  /** If nothing fails and nobody pauses, the pool comes to an end with all its workers done. */
  lemma {:induction false} SmoothRunCompletes(p: Pool, events: seq<Event>)
    requires Inv(p) && Unhurt(p) && AllAllowed(p, events) && Smooth(events)
    ensures |events| <= Remaining(p)
    ensures var end := Run(p, events);
            && Inv(end) && Unhurt(end)
            && (AtRest(end) ==> AllDone(end))
    decreases |events|
  {
    if events == [] {
      forall w | 0 <= w < |p.workers|
        ensures AtRest(p) ==> p.workers[w].Done?
      {
        assert p.workers[w].Ready? ==> Allowed(p, Turn(w));
        assert p.workers[w].Waiting? ==> Allowed(p, Respond(w, true));
      }
    } else {
      StepKeepsInv(p, events[0]);
      StepShrinks(p, events[0]);
      SmoothRunCompletes(Step(p, events[0]), events[1..]);
    }
  }

  lemma OpenIsSound(start: nat, total: nat)
    ensures Inv(Open(start, total)) && Unhurt(Open(start, total))
  {}

  /** Index `i` went out in exactly one request, and that was answered with success. */
  ghost predicate SentOnce(p: Pool, i: nat) {
    && i in p.acked
    && (exists k :: 0 <= k < |p.sent| && p.sent[k].index == i)
    && (forall j, k :: 0 <= j < k < |p.sent| ==> !(p.sent[j].index == i && p.sent[k].index == i))
  }

  /** From its start, a pool that nothing fails or pauses ends within a bound, whatever the order of
      its events, and by then has sent each of its indices exactly once and seen it answered. */
  lemma SmoothPoolSendsAll(start: nat, total: nat, events: seq<Event>)
    requires AllAllowed(Open(start, total), events) && Smooth(events)
    ensures |events| <= Remaining(Open(start, total))
    ensures var end := Run(Open(start, total), events);
            AtRest(end) ==>
              && AllDone(end)
              && |end.sent| == (if start < total then total - start else 0)
              && forall i :: start <= i < total ==> SentOnce(end, i)
  {
    OpenIsSound(start, total);
    SmoothRunCompletes(Open(start, total), events);
    RunKeepsInv(Open(start, total), events);
    EachIndexTakenOnce(start, total, events);
    var end := Run(Open(start, total), events);
    if AtRest(end) {
      FinishMeansAllAcked(end);
      forall i | start <= i < total
        ensures SentOnce(end, i)
      {
        assert end.sent[i - start].index == i;
      }
    }
  }

  lemma {:induction false} WorkersStay(p: Pool, events: seq<Event>)
    requires AllAllowed(p, events)
    ensures |Run(p, events).workers| == |p.workers|
    decreases |events|
  {
    if events != [] {
      WorkersStay(Step(p, events[0]), events[1..]);
    }
  }

  /** There are as many workers as chunks to send, but at most four; and as long as chunks are left, and
      nothing failed or is paused, each of them has a request out or is about to send the next one. */
  lemma PoolStaysBusy(start: nat, total: nat, events: seq<Event>)
    requires AllAllowed(Open(start, total), events)
    ensures var p := Run(Open(start, total), events);
            && |p.workers| == (if start < total then Min(4, total - start) else 0)
            && (Unhurt(p) && p.current < total ==>
                  forall w :: 0 <= w < |p.workers| ==> p.workers[w].Waiting? || Sends(p, w))
  {
    WorkersStay(Open(start, total), events);
    OpenIsSound(start, total);
    RunKeepsInv(Open(start, total), events);
  }

  /** The next turn of this worker sends the next chunk. */
  predicate Sends(p: Pool, w: nat)
    requires w < |p.workers|
  {
    Allowed(p, Turn(w)) && Step(p, Turn(w)).sent == p.sent + [Request(p.current, w)]
  }

  // ---- pausing and failing ----

  predicate Failure(e: Event) {
    e.Respond? && !e.ok
  }

  /** What the last pause or continuation of the item says. */
  function Paused(stopped: bool, events: seq<Event>): bool
    decreases |events|
  {
    if events == [] then stopped
    else Paused(if events[0].SetStopped? then events[0].stopped else stopped, events[1..])
  }

  /** The two flags are what the events say: an error is a failed answer, an abort alone is none. */
  lemma {:induction false} FlagsAreHistory(p: Pool, events: seq<Event>)
    requires AllAllowed(p, events)
    ensures Run(p, events).hasError <==> p.hasError || exists k :: 0 <= k < |events| && Failure(events[k])
    ensures Run(p, events).stopped == Paused(p.stopped, events)
    decreases |events|
  {
    if events != [] {
      FlagsAreHistory(Step(p, events[0]), events[1..]);
      assert forall k :: 1 <= k < |events| ==> events[k] == events[1..][k - 1];
    }
  }

  /** Once a request failed, or while the item stays paused, no further request goes out. */
  lemma {:induction false} HaltedSendsNothing(p: Pool, events: seq<Event>)
    requires AllAllowed(p, events)
    requires p.hasError || (p.stopped && forall k :: 0 <= k < |events| && events[k].SetStopped? ==> events[k].stopped)
    ensures Run(p, events).sent == p.sent
    decreases |events|
  {
    if events != [] {
      HaltedSendsNothing(Step(p, events[0]), events[1..]);
    }
  }

  /** A pool that lost a worker never asks to finish; a worker is lost to a failed answer, to an abort,
      or to a pause that it meets with chunks left to send. */
  lemma {:induction false} LostWorkerStaysLost(p: Pool, events: seq<Event>, w: nat)
    requires AllAllowed(p, events) && w < |p.workers| && p.workers[w].Failed?
    ensures !AllDone(Run(p, events))
    decreases |events|
  {
    if events == [] {
      assert !p.workers[w].Done?;
    } else {
      LostWorkerStaysLost(Step(p, events[0]), events[1..], w);
    }
  }

  lemma WorkerIsLost(p: Pool, e: Event)
    requires Allowed(p, e) && !e.SetStopped?
    ensures Step(p, e).workers[e.worker].Failed? <==>
            || Failure(e) || e.Abort?
            || (e.Turn? && p.stopped && !p.hasError && p.current < p.total)
  {}

  class UploadWorkers {
    const startChunk: nat
    const totalChunks: nat
    var currentChunkIndex: nat
    var hasError: bool
    var stopped: bool
    var workers: seq<Worker>
    ghost var sent: seq<Request>
    ghost var acked: set<nat>

    ghost function Snapshot(): Pool
      reads this
    {
      Pool(startChunk, totalChunks, currentChunkIndex, hasError, stopped, workers, sent, acked)
    }

    constructor (startChunk: nat, totalChunks: nat)
      ensures Snapshot() == Open(startChunk, totalChunks)
    {
      this.startChunk, this.totalChunks := startChunk, totalChunks;
      currentChunkIndex, hasError, stopped := startChunk, false, false;
      workers := if startChunk < totalChunks then seq(Min(MAX_WORKERS, totalChunks - startChunk), _ => Ready) else [];
      sent, acked := [], {};
    }

    method TakeTurn(w: nat) returns (request: seq<nat>)
      requires Allowed(Snapshot(), Turn(w))
      modifies this
      ensures Snapshot() == Step(old(Snapshot()), Turn(w))
      ensures request == if workers[w].Waiting? then [workers[w].index] else []
    {
      request := [];
      if currentChunkIndex < totalChunks && !hasError {
        if stopped {
          workers := workers[w := Failed];
          return;
        }
        var i := currentChunkIndex;
        currentChunkIndex := currentChunkIndex + 1;
        workers := workers[w := Waiting(i)];
        sent := sent + [Request(i, w)];
        request := [i];
      } else {
        workers := workers[w := Done];
      }
    }

    method OnResponse(w: nat, ok: bool)
      requires Allowed(Snapshot(), Respond(w, ok))
      modifies this
      ensures Snapshot() == Step(old(Snapshot()), Respond(w, ok))
    {
      if ok {
        acked := acked + {workers[w].index};
        workers := workers[w := Ready];
      } else {
        hasError := true;
        workers := workers[w := Failed];
      }
    }

    method OnAbort(w: nat)
      requires Allowed(Snapshot(), Abort(w))
      modifies this`workers
      ensures Snapshot() == Step(old(Snapshot()), Abort(w))
    {
      workers := workers[w := Failed];
    }
  }
}
