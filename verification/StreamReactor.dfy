/** `StreamingReadReactor`: reads, worker threads, one write in flight and shutdown behind one
    mutex. Each callback or worker ending is one step of a state machine; the class below runs the
    same code on its fields. */
module StreamReactor {
  import opened Types

  datatype Request = Request(resource: string, container: string, location: Name)

  datatype Outcome = BadRequest | NoStore | ReadError | NotFound | Found(hash: Hash, parent: Hash, buffer: Bytes)

  datatype Response = Response(request: Request, outcome: Outcome)

  /** The fields guarded by the mutex, the write in flight, and what the callbacks have asked of
      the RPC runtime so far: finishes with OK or an error, a notification not yet consumed. */
  datatype Core = Core(queue: seq<Response>, inFlight: Option<Response>, writing: bool, clientDone: bool,
                       shutdown: bool, pending: int, active: int,
                       finishOk: nat, finishErr: nat, notified: bool)

  const START := Core([], None, false, false, false, 0, 0, 0, 0, false)

  function TrySendNextResponse(c: Core): Core {
    if c.writing || c.queue == [] then c
    else c.(inFlight := Some(c.queue[0]), queue := c.queue[1..], writing := true, pending := c.pending + 1)
  }

  function Enqueue(c: Core, r: Response): Core {
    TrySendNextResponse(c.(queue := c.queue + [r]))
  }

  predicate Drained(c: Core) {
    c.clientDone && c.pending == 0 && c.active == 0 && c.queue == []
  }

  /** `OnReadDone(false)`. */
  function ReadsEnded(c: Core): Core {
    var d := c.(clientDone := true);
    if d.pending == 0 && d.active == 0 then d.(finishOk := d.finishOk + 1) else d
  }

  /** The locked parts of `ProcessRequest`. */
  function Process(c: Core, r: Request, storeFound: bool): Core {
    if r.resource == "" || r.container == "" || r.location == "" then Enqueue(c, Response(r, BadRequest))
    else if !storeFound then Enqueue(c, Response(r, NoStore))
    else c.(active := c.active + 1)
  }

  predicate Named(r: Request) {
    r.resource != "" && r.container != "" && r.location != ""
  }

  predicate Spawns(r: Request, storeFound: bool) {
    Named(r) && storeFound
  }

  /** The response to a request that starts no worker. */
  function Refusal(r: Request): Response {
    Response(r, if r.resource == "" || r.container == "" || r.location == "" then BadRequest else NoStore)
  }

  /** The end of a worker thread. */
  function WorkerEnded(c: Core, r: Response): Core {
    var d := if c.shutdown then c else Enqueue(c, r);
    var e := d.(active := d.active - 1);
    if c.shutdown then e.(notified := true)
    else if Drained(e) then e.(finishOk := e.finishOk + 1)
    else e
  }

  /** `OnWriteDone`. */
  function WriteEnded(c: Core, ok: bool): Core {
    var d := c.(pending := c.pending - 1, writing := false, inFlight := None);
    if !ok then d.(finishErr := d.finishErr + 1)
    else
      var e := TrySendNextResponse(d);
      if Drained(e) then e.(finishOk := e.finishOk + 1) else e
  }

  /* ------------------------------- the class ------------------------------------------------ */

  class StreamingReadReactor {
    var responseQueue: seq<Response>
    var currentResponse: Option<Response>
    var writeInProgress: bool
    var clientDone: bool
    var shutdown: bool
    var pendingWrites: int
    var activeThreads: int
    var finishOk: nat
    var finishErr: nat
    var notified: bool

    /** The current response is in flight while a write is in progress. */
    function View(): Core
      reads this
    {
      Core(responseQueue, if writeInProgress then currentResponse else None, writeInProgress, clientDone, shutdown,
           pendingWrites, activeThreads, finishOk, finishErr, notified)
    }

    constructor ()
      ensures View() == START
    {
      responseQueue, currentResponse, writeInProgress := [], None, false;
      clientDone, shutdown, pendingWrites, activeThreads := false, false, 0, 0;
      finishOk, finishErr, notified := 0, 0, false;
    }

    method Finish(ok: bool)
      modifies `finishOk, `finishErr
      ensures finishOk == old(finishOk) + (if ok then 1 else 0)
      ensures finishErr == old(finishErr) + (if ok then 0 else 1)
    {
      if ok { finishOk := finishOk + 1; } else { finishErr := finishErr + 1; }
    }

    method TrySendNext()
      modifies this
      ensures View() == TrySendNextResponse(old(View()))
    {
      if writeInProgress || responseQueue == [] {
        return;
      }
      currentResponse := Some(responseQueue[0]);
      responseQueue := responseQueue[1..];
      writeInProgress := true;
      pendingWrites := pendingWrites + 1;
    }

    method OnReadDoneFalse()
      modifies this
      ensures View() == ReadsEnded(old(View()))
    {
      clientDone := true;
      if pendingWrites == 0 && activeThreads == 0 {
        Finish(true);
      }
    }

    /** `spawned` tells whether a worker thread was started for the request. */
    method ProcessRequest(request: Request, storeFound: bool) returns (spawned: bool)
      modifies this
      ensures View() == Process(old(View()), request, storeFound)
      ensures spawned <==> Spawns(request, storeFound)
    {
      if request.resource == "" || request.container == "" || request.location == "" {
        responseQueue := responseQueue + [Response(request, BadRequest)];
        TrySendNext();
        return false;
      }
      if !storeFound {
        responseQueue := responseQueue + [Response(request, NoStore)];
        TrySendNext();
        return false;
      }
      activeThreads := activeThreads + 1;
      return true;
    }

    method WorkerDone(response: Response)
      modifies this
      ensures View() == WorkerEnded(old(View()), response)
    {
      var wasShutdown := shutdown;
      if !wasShutdown {
        responseQueue := responseQueue + [response];
        TrySendNext();
      }
      activeThreads := activeThreads - 1;
      if wasShutdown {
        notified := true;
      } else if clientDone && pendingWrites == 0 && activeThreads == 0 && responseQueue == [] {
        Finish(true);
      }
    }

    method OnWriteDone(ok: bool)
      modifies this
      ensures View() == WriteEnded(old(View()), ok)
    {
      pendingWrites := pendingWrites - 1;
      writeInProgress := false;
      if !ok {
        Finish(false);
        return;
      }
      TrySendNext();
      if clientDone && pendingWrites == 0 && activeThreads == 0 && responseQueue == [] {
        Finish(true);
      }
    }
  }

  /* ------------------------------- a whole stream ------------------------------------------- */

  /** Where the read side is: a read outstanding, a request being processed, about to start the
      next read, or ended. */
  datatype Phase = Reading | Handling(request: Request) | Rearming | Closed

  /** `OnDone`: not called yet, waiting on the condition variable, or through its wait. */
  datatype Ending = NotCalled | Waiting | Destroyed

  datatype Stream = Stream(core: Core, phase: Phase, unread: seq<Request>, workers: multiset<Request>,
                           ending: Ending, received: seq<Request>, written: seq<Response>,
                           lost: seq<Response>, dropped: seq<Response>)

  function Opened(requests: seq<Request>): Stream {
    Stream(START, Reading, requests, multiset{}, NotCalled, [], [], [], [])
  }

  datatype Step =
    | Deliver                              // OnReadDone(true)
    | HangUp                               // OnReadDone(false), after the last request or at any time
    | Handle(storeFound: bool)             // ProcessRequest
    | Rearm                                // StartRead
    | Complete(response: Response)         // a worker thread ends
    | WriteDone(ok: bool)                  // OnWriteDone
    | CallOnDone                           // once finished, with no read or write outstanding
    | Wake                                 // OnDone's wait consumes a notification

  predicate Enabled(s: Stream, st: Step) {
    match st
    case Deliver => s.phase.Reading? && s.unread != []
    case HangUp => s.phase.Reading?
    case Handle(_) => s.phase.Handling?
    case Rearm => s.phase.Rearming?
    case Complete(r) => r.request in s.workers && !r.outcome.BadRequest? && !r.outcome.NoStore?
    case WriteDone(_) => s.core.inFlight.Some?
    case CallOnDone =>
      s.ending.NotCalled? && s.core.finishOk + s.core.finishErr > 0 && s.phase.Closed? && s.core.inFlight.None?
    case Wake => s.ending.Waiting? && s.core.notified
  }

  function Apply(s: Stream, st: Step): Stream
    requires Enabled(s, st)
  {
    match st
    case Deliver =>
      s.(phase := Handling(s.unread[0]), unread := s.unread[1..], received := s.received + [s.unread[0]])
    case HangUp => s.(core := ReadsEnded(s.core), phase := Closed)
    case Handle(storeFound) =>
      var r := s.phase.request;
      s.(core := Process(s.core, r, storeFound), phase := Rearming,
         workers := if Spawns(r, storeFound) then s.workers + multiset{r} else s.workers)
    case Rearm => s.(phase := Reading)
    case Complete(r) =>
      s.(core := WorkerEnded(s.core, r), workers := s.workers - multiset{r.request},
         dropped := if s.core.shutdown then s.dropped + [r] else s.dropped)
    case WriteDone(ok) =>
      var r := s.core.inFlight.value;
      s.(core := WriteEnded(s.core, ok),
         written := if ok then s.written + [r] else s.written,
         lost := if ok then s.lost else s.lost + [r])
    case CallOnDone =>
      s.(core := s.core.(shutdown := true), ending := if s.core.active == 0 then Destroyed else Waiting)
    case Wake =>
      s.(core := s.core.(notified := false), ending := if s.core.active == 0 then Destroyed else Waiting)
  }

  ghost predicate Run(s: Stream, steps: seq<Step>, t: Stream)
    decreases |steps|
  {
    if steps == [] then s == t
    else Enabled(s, steps[0]) && Run(Apply(s, steps[0]), steps[1..], t)
  }

  /* ------------------------------- the invariant -------------------------------------------- */

  /** The requests a list of responses answers, with multiplicity. */
  ghost function Answered(rs: seq<Response>): multiset<Request> {
    if rs == [] then multiset{} else multiset{rs[0].request} + Answered(rs[1..])
  }

  lemma {:induction false} AnsweredAppend(rs: seq<Response>, r: Response, q: Request)
    ensures Answered(rs + [r])[q] == Answered(rs)[q] + (if r.request == q then 1 else 0)
  {
    if rs == [] {
      assert ([] + [r])[1..] == [];
    } else {
      AnsweredAppend(rs[1..], r, q);
      assert (rs + [r])[1..] == rs[1..] + [r];
    }
  }

  ghost function InFlight(c: Core, q: Request): nat {
    if c.inFlight.Some? && c.inFlight.value.request == q then 1 else 0
  }

  /** How often a request is being processed, read, queued or written. */
  ghost function Underway(s: Stream, q: Request): nat {
    s.workers[q] + (if s.phase == Handling(q) then 1 else 0) + (Answered(s.core.queue)[q] + InFlight(s.core, q))
  }

  ghost predicate Counters(s: Stream) {
    var c := s.core;
    && c.pending == (if c.writing then 1 else 0)
    && (c.writing <==> c.inFlight.Some?)
    && c.active == |s.workers|
    && c.finishErr == |s.lost|
    && (c.clientDone <==> s.phase.Closed?)
  }

  ghost predicate Ends(s: Stream) {
    var c := s.core;
    && c.finishOk <= 1
    && (c.finishOk == 1 ==> c.clientDone && c.active == 0 && !c.writing)
    && (c.clientDone && c.active == 0 && !c.writing ==> c.finishOk + c.finishErr > 0)
    && (s.lost == [] && c.queue != [] ==> c.writing)
    && (c.shutdown <==> !s.ending.NotCalled?)
    && (c.shutdown ==> c.clientDone && !c.writing && c.finishOk + c.finishErr > 0)
    && (s.ending.Waiting? && c.active == 0 ==> c.notified)
    && (s.ending.Destroyed? ==> c.active == 0)
    && (s.dropped != [] ==> s.lost != [])
    && (s.lost == [] && c.shutdown ==> c.finishOk == 1)
  }

  /** A request received is under way, or its response was written, lost or dropped. */
  ghost predicate Balanced(s: Stream, q: Request) {
    multiset(s.received)[q] == Underway(s, q) + Answered(s.written)[q] + Answered(s.lost)[q] + Answered(s.dropped)[q]
  }

  ghost predicate Conserved(s: Stream) {
    forall q :: Balanced(s, q)
  }

  ghost predicate Inv(s: Stream) {
    Counters(s) && Ends(s) && Conserved(s)
  }

  /** What queueing a response leaves of the counters: a write is in flight afterwards. */
  lemma EnqueueCounts(c: Core, r: Response)
    requires c.pending == (if c.writing then 1 else 0) && (c.writing <==> c.inFlight.Some?)
    ensures var d := Enqueue(c, r);
            && d == c.(queue := d.queue, inFlight := d.inFlight, writing := true, pending := 1)
            && d.inFlight.Some?
  {
  }

  lemma SendCounts(c: Core)
    requires c.pending == (if c.writing then 1 else 0) && (c.writing <==> c.inFlight.Some?)
    ensures var d := TrySendNextResponse(c);
            && d == c.(queue := d.queue, inFlight := d.inFlight, writing := d.writing,
              pending := if d.writing then 1 else 0)
            && (d.writing <==> d.inFlight.Some?)
            && (!d.writing ==> d == c && c.queue == [])
  {
  }

  lemma HandleCounts(s: Stream, storeFound: bool)
    requires Counters(s) && Ends(s) && s.phase.Handling?
    ensures Counters(Apply(s, Handle(storeFound))) && Ends(Apply(s, Handle(storeFound)))
  {
    hide Enqueue;
    EnqueueCounts(s.core, Refusal(s.phase.request));
  }

  lemma CompleteCounts(s: Stream, r: Response)
    requires Counters(s) && Ends(s) && Enabled(s, Complete(r))
    ensures Counters(Apply(s, Complete(r))) && Ends(Apply(s, Complete(r)))
    ensures !s.core.shutdown ==>
            Apply(s, Complete(r)).core.writing && Apply(s, Complete(r)).core.finishOk == s.core.finishOk
  {
    hide Enqueue;
    EnqueueCounts(s.core, r);
    assert |s.workers - multiset{r.request}| == |s.workers| - 1;
  }

  lemma WriteDoneCounts(s: Stream, ok: bool)
    requires Counters(s) && Ends(s) && s.core.inFlight.Some?
    ensures Counters(Apply(s, WriteDone(ok))) && Ends(Apply(s, WriteDone(ok)))
  {
    hide TrySendNextResponse;
    SendCounts(s.core.(pending := s.core.pending - 1, writing := false, inFlight := None));
  }

  lemma CountersKeep(s: Stream, st: Step)
    requires Counters(s) && Ends(s) && Enabled(s, st)
    ensures Counters(Apply(s, st)) && Ends(Apply(s, st))
  {
    match st
    case Handle(storeFound) => hide Ends, Counters; HandleCounts(s, storeFound);
    case Complete(r) => hide Ends, Counters; CompleteCounts(s, r);
    case WriteDone(ok) => hide Ends, Counters; WriteDoneCounts(s, ok);
    case Deliver => hide TrySendNextResponse;
    case HangUp => hide TrySendNextResponse;
    case Rearm => hide TrySendNextResponse;
    case CallOnDone => hide TrySendNextResponse;
    case Wake => hide TrySendNextResponse;
  }

  lemma SendConserves(c: Core, q: Request)
    requires c.writing <==> c.inFlight.Some?
    ensures var d := TrySendNextResponse(c);
            Answered(d.queue)[q] + InFlight(d, q) == Answered(c.queue)[q] + InFlight(c, q)
  {
    if c.queue != [] {
      assert Answered(c.queue) == multiset{c.queue[0].request} + Answered(c.queue[1..]);
    }
  }

  /** Queueing a response keeps its request among those under way. */
  lemma EnqueueConserves(c: Core, r: Response, q: Request)
    requires c.writing <==> c.inFlight.Some?
    ensures var d := Enqueue(c, r);
            Answered(d.queue)[q] + InFlight(d, q)
            == Answered(c.queue)[q] + InFlight(c, q) + (if r.request == q then 1 else 0)
  {
    hide TrySendNextResponse, Answered;
    SendConserves(c.(queue := c.queue + [r]), q);
    AnsweredAppend(c.queue, r, q);
  }

  lemma DeliverConserves(s: Stream, q: Request)
    requires Balanced(s, q) && Enabled(s, Deliver)
    ensures Balanced(Apply(s, Deliver), q)
  {
    hide Answered;
  }

  lemma SpawnConserves(s: Stream, q: Request)
    requires Balanced(s, q) && s.phase.Handling? && Spawns(s.phase.request, true)
    ensures Balanced(Apply(s, Handle(true)), q)
  {
    hide Answered, Enqueue, TrySendNextResponse;
    var t := Apply(s, Handle(true));
    assert t.workers[q] == s.workers[q] + (if s.phase.request == q then 1 else 0);
    assert t.core.queue == s.core.queue && t.core.inFlight == s.core.inFlight;
  }

  lemma RefusalConserves(s: Stream, storeFound: bool, q: Request)
    requires Counters(s) && Balanced(s, q) && s.phase.Handling? && !Spawns(s.phase.request, storeFound)
    ensures Balanced(Apply(s, Handle(storeFound)), q)
  {
    hide Enqueue, Answered;
    var r := Refusal(s.phase.request);
    var t := Apply(s, Handle(storeFound));
    assert t == s.(core := Enqueue(s.core, r), phase := Rearming);
    EnqueueConserves(s.core, r, q);
  }

  lemma HandleConserves(s: Stream, storeFound: bool, q: Request)
    requires Counters(s) && Balanced(s, q) && s.phase.Handling?
    ensures Balanced(Apply(s, Handle(storeFound)), q)
  {
    hide Counters, Balanced, Process;
    if Spawns(s.phase.request, storeFound) {
      SpawnConserves(s, q);
    } else {
      RefusalConserves(s, storeFound, q);
    }
  }

  lemma CompleteConserves(s: Stream, r: Response, q: Request)
    requires Counters(s) && Balanced(s, q) && Enabled(s, Complete(r))
    ensures Balanced(Apply(s, Complete(r)), q)
  {
    hide Enqueue, Answered;
    var t := Apply(s, Complete(r));
    assert t.workers[q] == s.workers[q] - (if r.request == q then 1 else 0);
    assert t.written == s.written && t.lost == s.lost && t.received == s.received && t.phase == s.phase;
    if s.core.shutdown {
      AnsweredAppend(s.dropped, r, q);
    } else {
      EnqueueConserves(s.core, r, q);
    }
  }

  lemma WriteDoneConserves(s: Stream, ok: bool, q: Request)
    requires Counters(s) && Balanced(s, q) && s.core.inFlight.Some?
    ensures Balanced(Apply(s, WriteDone(ok)), q)
  {
    hide TrySendNextResponse, Answered;
    SendConserves(s.core.(pending := s.core.pending - 1, writing := false, inFlight := None), q);
    AnsweredAppend(s.written, s.core.inFlight.value, q);
    AnsweredAppend(s.lost, s.core.inFlight.value, q);
  }

  lemma BalanceKeeps(s: Stream, st: Step, q: Request)
    requires Counters(s) && Balanced(s, q) && Enabled(s, st)
    ensures Balanced(Apply(s, st), q)
  {
    hide Answered, TrySendNextResponse;
    match st
    case Deliver => hide Counters, Balanced; DeliverConserves(s, q);
    case Handle(storeFound) => hide Counters, Balanced; HandleConserves(s, storeFound, q);
    case Complete(r) => hide Counters, Balanced; CompleteConserves(s, r, q);
    case WriteDone(ok) => hide Counters, Balanced; WriteDoneConserves(s, ok, q);
    case HangUp =>
    case Rearm =>
    case CallOnDone =>
    case Wake =>
  }

  lemma ConservedKeeps(s: Stream, st: Step)
    requires Counters(s) && Conserved(s) && Enabled(s, st)
    ensures Conserved(Apply(s, st))
  {
    hide Counters, Balanced, Enabled, Apply;
    forall q ensures Balanced(Apply(s, st), q) {
      BalanceKeeps(s, st, q);
    }
  }

  lemma {:induction false} RunKeeps(s: Stream, steps: seq<Step>, t: Stream)
    requires Inv(s) && Run(s, steps, t)
    ensures Inv(t)
    decreases |steps|
  {
    hide Enabled, Apply, Counters, Ends, Conserved;
    if steps != [] {
      CountersKeep(s, steps[0]);
      ConservedKeeps(s, steps[0]);
      RunKeeps(Apply(s, steps[0]), steps[1..], t);
    }
  }

  /* ------------------------------- the theorems --------------------------------------------- */

  /** In a stream whose writes all succeed, `Finish` is called at most once, and only when the
      client is done, nothing is queued, running or being written, and every request received has
      had exactly one response written. */
  lemma FinishedMeansAnswered(requests: seq<Request>, steps: seq<Step>, s: Stream)
    requires Run(Opened(requests), steps, s) && WriteDone(false) !in steps
    ensures s.core.finishErr == 0 && s.core.finishOk <= 1
    ensures s.core.finishOk == 1 ==>
              && s.core.clientDone && s.core.queue == [] && s.core.active == 0 && s.core.inFlight.None?
              && multiset(s.received) == Answered(s.written)
  {
    RunKeeps(Opened(requests), steps, s);
    NoLoss(Opened(requests), steps, s);
    hide Run;
    AllWritten(s);
  }

  /** With nothing under way, lost or dropped, the written responses answer what was received. */
  lemma AllWritten(s: Stream)
    requires Inv(s) && s.lost == []
    ensures s.core.finishOk == 1 ==>
            s.core.queue == [] && s.core.inFlight.None? && multiset(s.received) == Answered(s.written)
  {
    if s.core.finishOk == 1 {
      forall q ensures multiset(s.received)[q] == Answered(s.written)[q] {
        assert Balanced(s, q);
      }
    }
  }

  lemma {:induction false} NoLoss(s: Stream, steps: seq<Step>, t: Stream)
    requires Run(s, steps, t) && WriteDone(false) !in steps
    ensures t.lost == s.lost
    decreases |steps|
  {
    if steps != [] {
      assert steps[0] != WriteDone(false);
      assert forall st :: st in steps[1..] ==> st in steps;
      NoLoss(Apply(s, steps[0]), steps[1..], t);
    }
  }

  /** The finish a worker could call itself is never reached: its response is being written. */
  lemma WorkerNeverFinishes(requests: seq<Request>, steps: seq<Step>, s: Stream, r: Response)
    requires Run(Opened(requests), steps, s) && Enabled(s, Complete(r))
    ensures Apply(s, Complete(r)).core.finishOk == s.core.finishOk
    ensures !s.core.shutdown ==> Apply(s, Complete(r)).core.writing
  {
    RunKeeps(Opened(requests), steps, s);
    hide Run, Conserved;
    CompleteCounts(s, r);
  }

  /** The last step at which the stream can be finished: the end of the reads or of a write. */
  function LastEnd(steps: seq<Step>): Option<Step> {
    if steps == [] then None
    else
      var st := steps[|steps| - 1];
      if st.HangUp? || st.WriteDone? then Some(st) else LastEnd(steps[..|steps| - 1])
  }

  function Later(end: Option<Step>, st: Step): Option<Step> {
    if st.HangUp? || st.WriteDone? then Some(st) else end
  }

  lemma LastEndAppend(steps: seq<Step>, st: Step)
    ensures LastEnd(steps + [st]) == Later(LastEnd(steps), st)
  {
    assert (steps + [st])[..|steps|] == steps;
  }

  /** The regular finish has been called exactly when the last end was no failed write, left
      nothing running or being written, and no response was dropped. */
  ghost predicate FinishedBy(s: Stream, end: Option<Step>) {
    && (s.dropped != [] ==> s.core.shutdown)
    && (s.core.finishOk == 1 ==> s.dropped == [] && end != Some(WriteDone(false)))
    && (s.dropped == [] && end != Some(WriteDone(false)) ==>
          s.core.clientDone && s.core.active == 0 && !s.core.writing ==> s.core.finishOk == 1)
  }

  lemma WriteDoneFinishedBy(s: Stream, ok: bool, end: Option<Step>)
    requires Counters(s) && Ends(s) && FinishedBy(s, end) && s.core.inFlight.Some?
    ensures FinishedBy(Apply(s, WriteDone(ok)), Some(WriteDone(ok)))
  {
    hide TrySendNextResponse;
    SendCounts(s.core.(pending := s.core.pending - 1, writing := false, inFlight := None));
  }

  lemma CompleteFinishedBy(s: Stream, r: Response, end: Option<Step>)
    requires Counters(s) && Ends(s) && FinishedBy(s, end) && Enabled(s, Complete(r))
    ensures FinishedBy(Apply(s, Complete(r)), end)
  {
    CompleteCounts(s, r);
    hide Enqueue;
    EnqueueCounts(s.core, r);
  }

  lemma HandleFinishedBy(s: Stream, storeFound: bool, end: Option<Step>)
    requires Counters(s) && Ends(s) && FinishedBy(s, end) && s.phase.Handling?
    ensures FinishedBy(Apply(s, Handle(storeFound)), end)
  {
    hide Enqueue;
    EnqueueCounts(s.core, Refusal(s.phase.request));
  }

  lemma FinishedByKeeps(s: Stream, st: Step, end: Option<Step>)
    requires Counters(s) && Ends(s) && FinishedBy(s, end) && Enabled(s, st)
    ensures FinishedBy(Apply(s, st), Later(end, st))
  {
    match st
    case Handle(storeFound) => hide Ends, Counters, FinishedBy; HandleFinishedBy(s, storeFound, end);
    case Complete(r) => hide Ends, Counters, FinishedBy; CompleteFinishedBy(s, r, end);
    case WriteDone(ok) => hide Ends, Counters, FinishedBy; WriteDoneFinishedBy(s, ok, end);
    case Deliver => hide TrySendNextResponse;
    case HangUp => hide TrySendNextResponse;
    case Rearm => hide TrySendNextResponse;
    case CallOnDone => hide TrySendNextResponse;
    case Wake => hide TrySendNextResponse;
  }

  lemma {:induction false} FinishedByRun(s: Stream, before: seq<Step>, steps: seq<Step>, t: Stream)
    requires Counters(s) && Ends(s) && FinishedBy(s, LastEnd(before)) && Run(s, steps, t)
    ensures FinishedBy(t, LastEnd(before + steps))
    decreases |steps|
  {
    hide Enabled, Apply, Counters, Ends, FinishedBy, LastEnd;
    if steps == [] {
      assert before + steps == before;
    } else {
      CountersKeep(s, steps[0]);
      FinishedByKeeps(s, steps[0], LastEnd(before));
      LastEndAppend(before, steps[0]);
      FinishedByRun(Apply(s, steps[0]), before + [steps[0]], steps[1..], t);
      assert before + [steps[0]] + steps[1..] == before + steps;
    }
  }

  ghost predicate AtRest(s: Stream) {
    forall st :: !Enabled(s, st)
  }

  lemma OpenedIsSound(requests: seq<Request>)
    ensures Inv(Opened(requests)) && Counters(Opened(requests)) && Ends(Opened(requests))
    ensures FinishedBy(Opened(requests), LastEnd([]))
  {
  }

  lemma RestCount(s: Stream, end: Option<Step>)
    requires Inv(s) && AtRest(s) && FinishedBy(s, end)
    ensures s.core.finishErr == |s.lost|
    ensures s.core.finishOk == if s.dropped == [] && end != Some(WriteDone(false)) then 1 else 0
    ensures s.lost == [] ==> s.core.finishOk == 1
  {
    Stuck(s);
    hide Conserved;
    assert !Enabled(s, HangUp) && !Enabled(s, Handle(false)) && !Enabled(s, Rearm) && !Enabled(s, WriteDone(true));
  }

  /** How often a stream that has come to rest was finished. Each failed write adds an error finish;
      the regular finish is missing exactly when the last end was a failed write or a worker's
      response was dropped by the shutdown. So `Finish` was called once if and only if no write
      failed, or one did and the regular finish is missing. */
  lemma FinishCount(requests: seq<Request>, steps: seq<Step>, s: Stream)
    requires Run(Opened(requests), steps, s) && AtRest(s)
    ensures s.core.finishErr == |s.lost|
    ensures s.core.finishOk == if s.dropped == [] && LastEnd(steps) != Some(WriteDone(false)) then 1 else 0
    ensures s.core.finishOk + s.core.finishErr == 1 <==>
              s.lost == [] || (|s.lost| == 1 && (s.dropped != [] || LastEnd(steps) == Some(WriteDone(false))))
  {
    hide Run, LastEnd, FinishedBy, Inv, Opened, AtRest;
    OpenedIsSound(requests);
    RunKeeps(Opened(requests), steps, s);
    FinishedByRun(Opened(requests), [], steps, s);
    assert [] + steps == steps;
    RestCount(s, LastEnd(steps));
  }

  /** While it runs: one error finish per failed write, and at most one regular finish. */
  lemma FinishesSoFar(requests: seq<Request>, steps: seq<Step>, s: Stream)
    requires Run(Opened(requests), steps, s)
    ensures s.core.finishErr == |s.lost| && s.core.finishOk <= 1
  {
    RunKeeps(Opened(requests), steps, s);
  }

  /** One response fails to be written, then the client hangs up: two finishes. */
  lemma FinishedTwice(a: Request)
    requires a.location == ""
    ensures exists steps, s ::
              Run(Opened([a]), steps, s) && s.core.finishErr == 1 && s.core.finishOk == 1 && s.written == []
  {
    var r := Response(a, BadRequest);
    var s3 := Stream(START.(inFlight := Some(r), writing := true, pending := 1), Reading, [], multiset{}, NotCalled,
                     [a], [], [], []);
    FailsThenHangsUp(s3, r);
    var s1 := Stream(START, Handling(a), [], multiset{}, NotCalled, [a], [], [], []);
    var s2 := s3.(phase := Rearming);
    assert Apply(Opened([a]), Deliver) == s1;
    assert Apply(s1, Handle(false)) == s2;
    assert Apply(s2, Rearm) == s3;
    hide Apply;
    var end := s3.(core := START.(finishErr := 1, finishOk := 1, clientDone := true), phase := Closed, lost := [r]);
    RunCons(s2, Rearm, [WriteDone(false), HangUp], end);
    RunCons(s1, Handle(false), [Rearm, WriteDone(false), HangUp], end);
    RunCons(Opened([a]), Deliver, [Handle(false), Rearm, WriteDone(false), HangUp], end);
  }

  lemma FailsThenHangsUp(s: Stream, r: Response)
    requires s.core == START.(inFlight := Some(r), writing := true, pending := 1) && s.phase == Reading && s.lost == []
    ensures Run(s, [WriteDone(false), HangUp],
                s.(core := START.(finishErr := 1, finishOk := 1, clientDone := true), phase := Closed, lost := [r]))
  {
    var t := s.(core := START.(finishErr := 1), lost := [r]);
    var u := t.(core := START.(finishErr := 1, finishOk := 1, clientDone := true), phase := Closed);
    assert Apply(s, WriteDone(false)) == t;
    assert Apply(t, HangUp) == u;
    hide Apply;
    assert Run(u, [], u);
    RunCons(t, HangUp, [], u);
    RunCons(s, WriteDone(false), [HangUp], u);
  }

  lemma RunCons(s: Stream, st: Step, steps: seq<Step>, t: Stream)
    requires Enabled(s, st) && Run(Apply(s, st), steps, t)
    ensures Run(s, [st] + steps, t)
  {
    hide Enabled, Apply;
    assert ([st] + steps)[1..] == steps;
  }

  /* ------------------------------- progress ------------------------------------------------- */

  /** Work left in a stream. */
  ghost function Rank(s: Stream): int {
    6 * |s.unread|
    + (match s.phase case Reading => 1 case Handling(_) => 6 case Rearming => 2 case Closed => 0)
    + 3 * |s.workers| + 2 * |s.core.queue| + (if s.core.inFlight.Some? then 1 else 0)
    + (if s.core.notified then 1 else 0)
    + (match s.ending case NotCalled => 2 case Waiting => 1 case Destroyed => 0)
  }

  lemma SendRank(c: Core)
    requires c.writing <==> c.inFlight.Some?
    ensures var d := TrySendNextResponse(c);
            2 * |d.queue| + (if d.inFlight.Some? then 1 else 0) <= 2 * |c.queue| + (if c.inFlight.Some? then 1 else 0)
    ensures TrySendNextResponse(c).notified == c.notified
  {
  }

  lemma EnqueueRank(c: Core, r: Response)
    requires c.writing <==> c.inFlight.Some?
    ensures var d := Enqueue(c, r);
            2 * |d.queue| + (if d.inFlight.Some? then 1 else 0)
            <= 2 * |c.queue| + (if c.inFlight.Some? then 1 else 0) + 2
    ensures Enqueue(c, r).notified == c.notified
  {
    SendRank(c.(queue := c.queue + [r]));
  }

  lemma HandleProgresses(s: Stream, storeFound: bool)
    requires Counters(s) && s.phase.Handling?
    ensures Rank(Apply(s, Handle(storeFound))) < Rank(s)
  {
    hide Enqueue;
    var t := Apply(s, Handle(storeFound));
    if Spawns(s.phase.request, storeFound) {
      assert |t.workers| == |s.workers| + 1;
    } else {
      EnqueueRank(s.core, Refusal(s.phase.request));
      assert t.core == Enqueue(s.core, Refusal(s.phase.request));
    }
  }

  lemma CompleteProgresses(s: Stream, r: Response)
    requires Counters(s) && Enabled(s, Complete(r))
    ensures Rank(Apply(s, Complete(r))) < Rank(s)
  {
    hide Enqueue;
    EnqueueRank(s.core, r);
    assert |s.workers - multiset{r.request}| == |s.workers| - 1;
  }

  lemma WriteDoneProgresses(s: Stream, ok: bool)
    requires Counters(s) && s.core.inFlight.Some?
    ensures Rank(Apply(s, WriteDone(ok))) < Rank(s)
  {
    hide TrySendNextResponse;
    SendRank(s.core.(pending := s.core.pending - 1, writing := false, inFlight := None));
  }

  lemma StepProgresses(s: Stream, st: Step)
    requires Counters(s) && Enabled(s, st)
    ensures Rank(Apply(s, st)) < Rank(s)
  {
    match st
    case Handle(storeFound) => hide Counters, Rank; HandleProgresses(s, storeFound);
    case Complete(r) => hide Counters, Rank; CompleteProgresses(s, r);
    case WriteDone(ok) => hide Counters, Rank; WriteDoneProgresses(s, ok);
    case Deliver =>
    case HangUp =>
    case Rearm =>
    case CallOnDone =>
    case Wake =>
  }

  /** Every step uses up work, so a stream of n requests ends within 6n + 3 steps. */
  lemma {:induction false} StreamsEnd(s: Stream, steps: seq<Step>, t: Stream)
    requires Inv(s) && Run(s, steps, t)
    ensures |steps| + Rank(t) <= Rank(s)
    decreases |steps|
  {
    hide Enabled, Apply, Ends, Conserved, Rank;
    if steps != [] {
      StepProgresses(s, steps[0]);
      CountersKeep(s, steps[0]);
      ConservedKeeps(s, steps[0]);
      StreamsEnd(Apply(s, steps[0]), steps[1..], t);
    }
  }

  lemma BoundedStream(requests: seq<Request>, steps: seq<Step>, s: Stream)
    requires Run(Opened(requests), steps, s)
    ensures |steps| <= 6 * |requests| + 3
  {
    StreamsEnd(Opened(requests), steps, s);
  }

  /** A stream in which nothing more can happen has been finished and torn down: no response or
      notification was missed. With successful writes it was finished once, fully answered. */
  lemma NothingIsLeftHanging(requests: seq<Request>, steps: seq<Step>, s: Stream)
    requires Run(Opened(requests), steps, s)
    requires AtRest(s)
    ensures s.ending.Destroyed? && s.core.active == 0 && s.core.finishOk + s.core.finishErr > 0
    ensures WriteDone(false) !in steps ==> s.core.finishOk == 1 && multiset(s.received) == Answered(s.written)
  {
    RunKeeps(Opened(requests), steps, s);
    if WriteDone(false) !in steps {
      NoLoss(Opened(requests), steps, s);
    }
    hide Run;
    Stuck(s);
  }

  lemma Stuck(s: Stream)
    requires Inv(s) && AtRest(s)
    ensures s.ending.Destroyed? && s.core.active == 0 && s.core.finishOk + s.core.finishErr > 0
    ensures s.lost == [] ==> s.core.finishOk == 1 && multiset(s.received) == Answered(s.written)
  {
    assert !Enabled(s, HangUp) && !Enabled(s, Handle(false)) && !Enabled(s, Rearm) && !Enabled(s, WriteDone(true));
    assert !Enabled(s, CallOnDone) && !Enabled(s, Wake);
    NoWorkers(s);
    if s.lost == [] {
      AllWritten(s);
    }
  }

  lemma NoWorkers(s: Stream)
    requires AtRest(s)
    ensures s.workers == multiset{}
  {
    assert forall r :: r in s.workers ==> Enabled(s, Complete(Response(r, NotFound)));
  }

  /* ------------------------------- order and outcomes --------------------------------------- */

  /** The response a step queues. */
  function QueuedBy(s: Stream, st: Step): seq<Response> {
    match st
    case Handle(storeFound) =>
      if s.phase.Handling? && !Spawns(s.phase.request, storeFound) then [Refusal(s.phase.request)] else []
    case Complete(r) => if s.core.shutdown then [] else [r]
    case _ => []
  }

  function QueuedIn(s: Stream, steps: seq<Step>): seq<Response>
    decreases |steps|
  {
    if steps == [] || !Enabled(s, steps[0]) then []
    else QueuedBy(s, steps[0]) + QueuedIn(Apply(s, steps[0]), steps[1..])
  }

  /** Written, being written and waiting, in this order. */
  function Line(s: Stream): seq<Response> {
    s.written + (if s.core.inFlight.Some? then [s.core.inFlight.value] else []) + s.core.queue
  }

  lemma SendLine(written: seq<Response>, c: Core)
    requires c.writing <==> c.inFlight.Some?
    ensures var d := TrySendNextResponse(c);
            written + (if d.inFlight.Some? then [d.inFlight.value] else []) + d.queue
            == written + (if c.inFlight.Some? then [c.inFlight.value] else []) + c.queue
  {
    if !c.writing && c.queue != [] {
      assert c.queue == [c.queue[0]] + c.queue[1..];
      assert written + [c.queue[0]] + c.queue[1..] == written + [] + c.queue;
    }
  }

  lemma EnqueueLine(written: seq<Response>, c: Core, r: Response)
    requires c.writing <==> c.inFlight.Some?
    ensures var d := Enqueue(c, r);
            written + (if d.inFlight.Some? then [d.inFlight.value] else []) + d.queue
            == written + (if c.inFlight.Some? then [c.inFlight.value] else []) + c.queue + [r]
  {
    hide TrySendNextResponse;
    SendLine(written, c.(queue := c.queue + [r]));
    var front := written + (if c.inFlight.Some? then [c.inFlight.value] else []);
    assert front + (c.queue + [r]) == front + c.queue + [r];
  }

  lemma WriteDoneLine(s: Stream)
    requires Counters(s) && s.core.inFlight.Some?
    ensures Line(Apply(s, WriteDone(true))) == Line(s)
  {
    hide TrySendNextResponse;
    var r := s.core.inFlight.value;
    SendLine(s.written + [r], s.core.(pending := s.core.pending - 1, writing := false, inFlight := None));
    assert s.written + [r] + [] + s.core.queue == s.written + [r] + s.core.queue;
  }

  lemma CompleteLine(s: Stream, r: Response)
    requires Counters(s) && Enabled(s, Complete(r))
    ensures Line(Apply(s, Complete(r))) == Line(s) + QueuedBy(s, Complete(r))
  {
    hide Enqueue;
    var t := Apply(s, Complete(r));
    assert t.written == s.written;
    if s.core.shutdown {
      assert Line(s) + [] == Line(s);
    } else {
      EnqueueLine(s.written, s.core, r);
    }
  }

  lemma HandleLine(s: Stream, storeFound: bool)
    requires Counters(s) && s.phase.Handling?
    ensures Line(Apply(s, Handle(storeFound))) == Line(s) + QueuedBy(s, Handle(storeFound))
  {
    hide Enqueue;
    var t := Apply(s, Handle(storeFound));
    assert t.written == s.written;
    if Spawns(s.phase.request, storeFound) {
      assert Line(s) + [] == Line(s);
    } else {
      EnqueueLine(s.written, s.core, Refusal(s.phase.request));
    }
  }

  lemma LineStep(s: Stream, st: Step)
    requires Counters(s) && Enabled(s, st) && st != WriteDone(false)
    ensures Line(Apply(s, st)) == Line(s) + QueuedBy(s, st)
  {
    assert Line(s) + [] == Line(s);
    match st
    case WriteDone(_) => hide Line; WriteDoneLine(s);
    case Complete(r) => hide Line; CompleteLine(s, r);
    case Handle(storeFound) => hide Line; HandleLine(s, storeFound);
    case HangUp => hide TrySendNextResponse, Enqueue;
    case Deliver =>
    case Rearm =>
    case CallOnDone =>
    case Wake =>
  }

  lemma {:induction false} LineRun(s: Stream, steps: seq<Step>, t: Stream)
    requires Counters(s) && Ends(s) && Run(s, steps, t) && WriteDone(false) !in steps
    ensures Line(t) == Line(s) + QueuedIn(s, steps)
    decreases |steps|
  {
    hide Counters, Ends, Enabled, Apply, Line, QueuedBy;
    if steps == [] {
      assert Line(s) + [] == Line(s);
    } else {
      assert steps[0] in steps && forall st :: st in steps[1..] ==> st in steps;
      LineStep(s, steps[0]);
      CountersKeep(s, steps[0]);
      LineRun(Apply(s, steps[0]), steps[1..], t);
      assert Line(s) + QueuedBy(s, steps[0]) + QueuedIn(Apply(s, steps[0]), steps[1..])
             == Line(s) + (QueuedBy(s, steps[0]) + QueuedIn(Apply(s, steps[0]), steps[1..]));
    }
  }

  /** Responses are written in the order in which they were queued. */
  lemma WrittenInOrder(requests: seq<Request>, steps: seq<Step>, s: Stream)
    requires Run(Opened(requests), steps, s) && WriteDone(false) !in steps
    ensures s.written <= QueuedIn(Opened(requests), steps)
  {
    var first := Opened(requests);
    assert Line(first) == [];
    hide Run, Opened;
    LineRun(first, steps, s);
    assert [] + QueuedIn(first, steps) == QueuedIn(first, steps);
  }

  /** A response says that the request was bad exactly when a required field is empty. */
  predicate Deserved(r: Response) {
    r.outcome.BadRequest? <==> r.request.resource == "" || r.request.container == "" || r.request.location == ""
  }

  predicate CoreDeserved(c: Core) {
    (forall r :: r in c.queue ==> Deserved(r)) && (c.inFlight.Some? ==> Deserved(c.inFlight.value))
  }

  predicate AllDeserved(s: Stream) {
    CoreDeserved(s.core) && (forall r :: r in s.written ==> Deserved(r)) && (forall q :: q in s.workers ==> Named(q))
  }

  lemma SendDeserved(c: Core)
    requires CoreDeserved(c)
    ensures CoreDeserved(TrySendNextResponse(c))
  {
    hide Deserved;
    if c.queue != [] {
      assert c.queue[0] in c.queue;
    }
  }

  lemma EnqueueDeserved(c: Core, r: Response)
    requires CoreDeserved(c) && Deserved(r)
    ensures CoreDeserved(Enqueue(c, r))
  {
    hide Deserved, TrySendNextResponse;
    SendDeserved(c.(queue := c.queue + [r]));
  }

  lemma HandleDeserved(s: Stream, storeFound: bool)
    requires AllDeserved(s) && s.phase.Handling?
    ensures AllDeserved(Apply(s, Handle(storeFound)))
  {
    hide Enqueue;
    var r := s.phase.request;
    if Spawns(r, storeFound) {
      assert forall q :: q in s.workers + multiset{r} ==> q in s.workers || q == r;
    } else {
      assert Deserved(Refusal(r));
      hide CoreDeserved;
      EnqueueDeserved(s.core, Refusal(r));
    }
  }

  lemma CompleteDeserved(s: Stream, r: Response)
    requires AllDeserved(s) && Enabled(s, Complete(r))
    ensures AllDeserved(Apply(s, Complete(r)))
  {
    hide Enqueue;
    assert Named(r.request) && Deserved(r);
    if !s.core.shutdown {
      EnqueueDeserved(s.core, r);
    }
    assert forall q :: q in s.workers - multiset{r.request} ==> q in s.workers;
  }

  lemma WriteDoneDeserved(s: Stream, ok: bool)
    requires AllDeserved(s) && s.core.inFlight.Some?
    ensures AllDeserved(Apply(s, WriteDone(ok)))
  {
    hide TrySendNextResponse, Deserved;
    SendDeserved(s.core.(pending := s.core.pending - 1, writing := false, inFlight := None));
  }

  lemma {:induction false} DeservedRun(s: Stream, steps: seq<Step>, t: Stream)
    requires Run(s, steps, t) && AllDeserved(s)
    ensures AllDeserved(t)
    decreases |steps|
  {
    if steps != [] {
      DeservedStep(s, steps[0]);
      hide Enabled, Apply, AllDeserved;
      DeservedRun(Apply(s, steps[0]), steps[1..], t);
    }
  }

  lemma DeservedStep(s: Stream, st: Step)
    requires Enabled(s, st) && AllDeserved(s)
    ensures AllDeserved(Apply(s, st))
  {
    match st
    case Handle(storeFound) => hide AllDeserved; HandleDeserved(s, storeFound);
    case Complete(r) => hide AllDeserved; CompleteDeserved(s, r);
    case WriteDone(ok) => hide AllDeserved; WriteDoneDeserved(s, ok);
    case Deliver =>
    case HangUp =>
    case Rearm =>
    case CallOnDone =>
    case Wake =>
  }

  /** Every response written says so exactly when the request lacks a field. */
  lemma OutcomesAreDeserved(requests: seq<Request>, steps: seq<Step>, s: Stream, r: Response)
    requires Run(Opened(requests), steps, s) && r in s.written
    ensures r.outcome.BadRequest? <==> r.request.resource == "" || r.request.container == "" || r.request.location == ""
  {
    DeservedRun(Opened(requests), steps, s);
  }
}
