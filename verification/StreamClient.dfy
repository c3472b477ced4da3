/** The client side of a bulk read: send everything, read everything, pad. Composed with the
    reactor it returns one result per location. */
module StreamClient {
  import opened Types
  import opened StreamReactor

  /** One entry of the result list, without its timings. */
  datatype ReadResult = ReadResult(found: bool, hash: Hash, parent: Hash, buffer: Bytes)

  const MISSING := ReadResult(false, 0, 0, [])

  function ResultOf(r: Response): ReadResult {
    match r.outcome
    case Found(hash, parent, buffer) => ReadResult(true, hash, parent, buffer)
    case _ => MISSING
  }

  /** The result entry shows what the response says. */
  predicate Shows(x: ReadResult, o: Outcome) {
    match o
    case Found(hash, parent, buffer) => x.found && x.hash == hash && x.parent == parent && x.buffer == buffer
    case _ => !x.found && x.hash == 0 && x.parent == 0 && x.buffer == []
  }

  lemma {:induction false} ResultsShow(rs: seq<Response>, i: nat)
    requires i < |rs|
    ensures Shows(Results(rs)[i], rs[i].outcome)
  {
    if i < |rs| - 1 {
      ResultsShow(rs[..|rs| - 1], i);
    }
  }

  function Results(rs: seq<Response>): (r: seq<ReadResult>)
    ensures |r| == |rs|
  {
    if rs == [] then [] else Results(rs[..|rs| - 1]) + [ResultOf(rs[|rs| - 1])]
  }

  function Padding(n: nat): (r: seq<ReadResult>)
    ensures |r| == n && forall i :: 0 <= i < n ==> r[i] == MISSING
  {
    if n == 0 then [] else Padding(n - 1) + [MISSING]
  }

  function RequestFor(resource: string, container: string, location: Name): Request {
    Request(resource, container, location)
  }

  function Requests(resource: string, container: string, locations: seq<Name>): (r: seq<Request>)
    ensures |r| == |locations|
    ensures forall i :: 0 <= i < |r| ==> r[i] == RequestFor(resource, container, locations[i])
  {
    seq(|locations|, i requires 0 <= i < |locations| => RequestFor(resource, container, locations[i]))
  }

  /** What the channel does: whether the client is ready and the stream opens, how many writes it
      accepts, and the responses it delivers. */
  datatype Channel = Channel(ready: bool, accepts: nat, responses: seq<Response>)

  /** The send loop: stops at the first write that the channel refuses. */
  method SendAll(resource: string, container: string, locations: seq<Name>, accepts: nat) returns (sent: seq<Request>)
    ensures sent == Requests(resource, container, locations[..if accepts < |locations| then accepts else |locations|])
    ensures forall i :: 0 <= i < |sent| ==>
              sent[i].resource == resource && sent[i].container == container && sent[i].location == locations[i]
  {
    sent := [];
    for i := 0 to |locations|
      invariant i <= accepts
      invariant sent == Requests(resource, container, locations[..i])
    {
      if i >= accepts {
        break;
      }
      sent := sent + [RequestFor(resource, container, locations[i])];
    }
  }

  /** `sent` is what reached the stream before the client signalled that it was done. */
  method StreamingReadAsync(resource: string, container: string, locations: seq<Name>, channel: Channel)
    returns (results: seq<ReadResult>, sent: seq<Request>)
    ensures sent == if channel.ready
                    then Requests(resource, container,
                      locations[..if channel.accepts < |locations| then channel.accepts else |locations|])
                    else []
    ensures |channel.responses| <= |locations| ==> |results| == |locations|
    ensures forall i :: 0 <= i < |sent| ==>
              sent[i].resource == resource && sent[i].container == container && sent[i].location == locations[i]
    ensures channel.ready ==>
              |channel.responses| <= |results|
              && forall i :: 0 <= i < |channel.responses| ==> Shows(results[i], channel.responses[i].outcome)
    ensures forall i :: (if channel.ready then |channel.responses| else 0) <= i < |results| ==>
              results[i] == ReadResult(false, 0, 0, [])
    ensures !channel.ready ==> results == Padding(|locations|)
    ensures channel.ready ==>
              results == Results(channel.responses)
                         + Padding(if |channel.responses| < |locations| then |locations| - |channel.responses| else 0)
  {
    results, sent := [], [];
    if !channel.ready {
      for i := 0 to |locations|
        invariant results == Padding(i)
      {
        results := results + [MISSING];
      }
      return;
    }
    sent := SendAll(resource, container, locations, channel.accepts);
    for i := 0 to |channel.responses|
      invariant results == Results(channel.responses[..i])
    {
      assert channel.responses[..i + 1][..i] == channel.responses[..i];
      results := results + [ResultOf(channel.responses[i])];
    }
    assert channel.responses[..|channel.responses|] == channel.responses;
    ghost var read := results;
    assert read + Padding(0) == read;
    forall i | 0 <= i < |channel.responses| ensures Shows(read[i], channel.responses[i].outcome) {
      ResultsShow(channel.responses, i);
    }
    while |results| < |locations|
      invariant |results| >= |read| && results == read + Padding(|results| - |read|)
      invariant |results| == |read| || |results| <= |locations|
      decreases |locations| - |results|
    {
      results := results + [MISSING];
    }
  }

  /* ------------------------------- with the reactor ----------------------------------------- */

  lemma {:induction false} ReceivedPrefix(s: Stream, steps: seq<Step>, t: Stream, requests: seq<Request>)
    requires Run(s, steps, t) && s.received + s.unread == requests
    ensures t.received + t.unread == requests
    decreases |steps|
  {
    if steps != [] {
      var u := Apply(s, steps[0]);
      if steps[0].Deliver? {
        assert u.received + u.unread == s.received + s.unread;
      }
      ReceivedPrefix(u, steps[1..], t, requests);
    }
  }

  lemma {:induction false} AnsweredSize(rs: seq<Response>)
    ensures |Answered(rs)| == |rs|
  {
    if rs != [] {
      AnsweredSize(rs[1..]);
    }
  }

  /** The server never writes more responses than it received requests. */
  lemma NoSurplus(requests: seq<Request>, steps: seq<Step>, s: Stream)
    requires Run(Opened(requests), steps, s)
    ensures |s.written| <= |s.received| <= |requests|
    ensures s.received <= requests
  {
    RunKeeps(Opened(requests), steps, s);
    assert Opened(requests).received + Opened(requests).unread == requests;
    ReceivedPrefix(Opened(requests), steps, s, requests);
    hide Run;
    SubsetSize(s);
    assert s.received <= s.received + s.unread;
  }

  lemma SubsetSize(s: Stream)
    requires Conserved(s)
    ensures |s.written| <= |s.received|
  {
    forall q ensures Answered(s.written)[q] <= multiset(s.received)[q] {
      assert Balanced(s, q);
    }
    hide Answered;
    assert multiset(s.received) == Answered(s.written) + (multiset(s.received) - Answered(s.written));
    AnsweredSize(s.written);
  }

  lemma Cancel<T>(a: multiset<T>, b: multiset<T>, x: T)
    requires a + multiset{x} == b + multiset{x}
    ensures a == b
  {
    forall q ensures a[q] == b[q] {
      assert (a + multiset{x})[q] == (b + multiset{x})[q];
    }
  }

  /** A sequence without its k-th element. */
  function Removed<T>(s: seq<T>, k: nat): (r: seq<T>)
    requires k < |s|
    ensures |r| == |s| - 1
  {
    s[..k] + s[k + 1..]
  }

  lemma Around<T>(s: seq<T>, k: nat)
    requires k < |s|
    ensures s == s[..k] + [s[k]] + s[k + 1..]
  {
  }

  lemma InsertedCounts<T>(a: seq<T>, x: T, b: seq<T>)
    ensures multiset(a + [x] + b) == multiset(a + b) + multiset{x}
  {
  }

  lemma RemovedCounts<T>(s: seq<T>, k: nat)
    requires k < |s|
    ensures multiset(s) == multiset(Removed(s, k)) + multiset{s[k]}
  {
    Around(s, k);
    InsertedCounts(s[..k], s[k], s[k + 1..]);
  }

  /** Responses in the order of their requests. */
  lemma {:induction false} Arrange(requests: seq<Request>, rs: seq<Response>) returns (answers: seq<Response>)
    requires multiset(requests) == Answered(rs)
    ensures |answers| == |requests| && multiset(answers) == multiset(rs)
    ensures forall i :: 0 <= i < |requests| ==> answers[i].request == requests[i]
  {
    hide Answered, Removed;
    if requests == [] {
      AnsweredSize(rs);
      assert |multiset(requests)| == 0;
      return [];
    }
    assert requests[0] in multiset(requests);
    var k := FindAnswer(rs, requests[0]);
    Without(rs, k);
    FirstCounts(requests);
    Cancel(multiset(requests[1..]), Answered(Removed(rs, k)), requests[0]);
    var tail := Arrange(requests[1..], Removed(rs, k));
    answers := [rs[k]] + tail;
    RemovedCounts(rs, k);
    FirstCounts(answers);
    assert answers[1..] == tail;
  }

  lemma FirstCounts<T>(s: seq<T>)
    requires s != []
    ensures multiset(s) == multiset(s[1..]) + multiset{s[0]}
  {
    assert s == [s[0]] + s[1..];
  }

  lemma {:induction false} FindAnswer(rs: seq<Response>, q: Request) returns (k: nat)
    requires q in Answered(rs)
    ensures k < |rs| && rs[k].request == q
  {
    if rs[0].request == q {
      return 0;
    }
    k := FindAnswer(rs[1..], q);
    k := k + 1;
  }

  lemma {:induction false} AnsweredConcat(a: seq<Response>, b: seq<Response>)
    ensures Answered(a + b) == Answered(a) + Answered(b)
    decreases |a|
  {
    if a == [] {
      assert a + b == b;
    } else {
      assert (a + b)[1..] == a[1..] + b;
      AnsweredConcat(a[1..], b);
    }
  }

  lemma InsertedAnswered(a: seq<Response>, r: Response, b: seq<Response>)
    ensures Answered(a + [r] + b) == Answered(a + b) + multiset{r.request}
  {
    AnsweredConcat(a + [r], b);
    AnsweredConcat(a, [r]);
    AnsweredConcat(a, b);
    FirstAnswered(r, []);
    assert [r] + [] == [r];
    hide Answered;
    assert Answered([]) == multiset{} by { NothingAnswered(); }
  }

  lemma NothingAnswered()
    ensures Answered([]) == multiset{}
  {
  }

  lemma Without(rs: seq<Response>, k: nat)
    requires k < |rs|
    ensures Answered(rs) == Answered(Removed(rs, k)) + multiset{rs[k].request}
  {
    hide Answered;
    Around(rs, k);
    InsertedAnswered(rs[..k], rs[k], rs[k + 1..]);
  }

  lemma FirstAnswered(r: Response, b: seq<Response>)
    ensures Answered([r] + b) == multiset{r.request} + Answered(b)
  {
    assert ([r] + b)[1..] == b;
  }

  lemma {:induction false} ResultsCount(rs: seq<Response>, r: Response)
    ensures multiset(Results(rs + [r])) == multiset(Results(rs)) + multiset{ResultOf(r)}
  {
    assert (rs + [r])[..|rs|] == rs;
  }

  lemma {:induction false} ResultsInsert(x: seq<Response>, r: Response, y: seq<Response>)
    ensures multiset(Results(x + [r] + y)) == multiset(Results(x + y)) + multiset{ResultOf(r)}
    decreases |y|
  {
    hide ResultOf, Results;
    if y == [] {
      assert x + [r] + y == x + [r] && x + y == x;
      ResultsCount(x, r);
    } else {
      var z, front := y[|y| - 1], y[..|y| - 1];
      assert x + [r] + y == (x + [r] + front) + [z] && x + y == (x + front) + [z];
      ResultsInsert(x, r, front);
      ResultsCount(x + [r] + front, z);
      ResultsCount(x + front, z);
    }
  }

  lemma {:induction false} ResultsMultiset(a: seq<Response>, b: seq<Response>)
    requires multiset(a) == multiset(b)
    ensures multiset(Results(a)) == multiset(Results(b))
    decreases |a|
  {
    hide Results, ResultOf;
    if a == [] {
      assert |multiset(b)| == |b| && |multiset(a)| == |a|;
      assert b == [];
    } else {
      var r, front := a[|a| - 1], a[..|a| - 1];
      assert a == front + [r];
      assert r in multiset(b);
      var k :| 0 <= k < |b| && b[k] == r;
      RemovedCounts(b, k);
      Cancel(multiset(front), multiset(Removed(b, k)), r);
      ResultsMultiset(front, Removed(b, k));
      ResultsCount(front, r);
      ResultsRemoved(b, k);
    }
  }

  lemma ResultsRemoved(b: seq<Response>, k: nat)
    requires k < |b|
    ensures multiset(Results(b)) == multiset(Results(Removed(b, k))) + multiset{ResultOf(b[k])}
  {
    hide Results, ResultOf;
    Around(b, k);
    ResultsInsert(b[..k], b[k], b[k + 1..]);
  }

  /** However early the sending stops and whatever the server does, the client gets exactly one
      entry per location. */
  lemma OneResultPerLocation(resource: string, container: string, locations: seq<Name>, n: nat,
                             steps: seq<Step>, s: Stream, read: nat)
    requires n <= |locations| && read <= |s.written|
    requires Run(Opened(Requests(resource, container, locations[..n])), steps, s)
    ensures |s.written[..read]| <= |locations|
    ensures |Results(s.written[..read]) + Padding(|locations| - |s.written[..read]|)| == |locations|
  {
    NoSurplus(Requests(resource, container, locations[..n]), steps, s);
  }

  /* ------------------------------- every step succeeds -------------------------------------- */

  /** What reading each location gives. */
  type Reader = Request -> Outcome

  predicate IsRead(read: Reader, r: Response) {
    r.outcome == read(r.request)
  }

  /** Stores are found, workers answer with what they read, and writes succeed. */
  predicate Succeeds(read: Reader, st: Step) {
    match st
    case Handle(storeFound) => storeFound
    case Complete(r) => IsRead(read, r)
    case WriteDone(ok) => ok
    case _ => true
  }

  predicate CoreReads(read: Reader, c: Core) {
    (forall r :: r in c.queue ==> IsRead(read, r)) && (c.inFlight.Some? ==> IsRead(read, c.inFlight.value))
  }

  /** Every response made so far is the read of its request. */
  predicate AllReads(read: Reader, s: Stream) {
    && CoreReads(read, s.core)
    && (forall r :: r in s.written ==> IsRead(read, r))
    && (forall q :: q in s.unread ==> Named(q))
    && (s.phase.Handling? ==> Named(s.phase.request))
  }

  lemma SendReads(read: Reader, c: Core)
    requires CoreReads(read, c)
    ensures CoreReads(read, TrySendNextResponse(c))
  {
    hide IsRead;
    if c.queue != [] {
      assert c.queue[0] in c.queue;
    }
  }

  lemma CompleteReads(read: Reader, c: Core, r: Response)
    requires CoreReads(read, c) && IsRead(read, r)
    ensures CoreReads(read, WorkerEnded(c, r))
  {
    hide IsRead, TrySendNextResponse;
    SendReads(read, c.(queue := c.queue + [r]));
  }

  lemma WriteDoneReads(read: Reader, c: Core)
    requires CoreReads(read, c)
    ensures CoreReads(read, WriteEnded(c, true))
  {
    hide IsRead, TrySendNextResponse;
    SendReads(read, c.(pending := c.pending - 1, writing := false, inFlight := None));
  }

  lemma SuccessKeeps(read: Reader, s: Stream, st: Step)
    requires AllReads(read, s) && Enabled(s, st) && Succeeds(read, st)
    ensures AllReads(read, Apply(s, st))
  {
    hide IsRead, TrySendNextResponse, WorkerEnded, WriteEnded;
    match st
    case Complete(r) => hide CoreReads; CompleteReads(read, s.core, r);
    case WriteDone(ok) => WriteDoneReads(read, s.core);
    case Deliver => hide CoreReads; assert s.unread[0] in s.unread;
    case Handle(_) =>
    case HangUp =>
    case Rearm =>
    case CallOnDone =>
    case Wake =>
  }

  lemma {:induction false} SuccessfulRun(read: Reader, s: Stream, steps: seq<Step>, t: Stream)
    requires AllReads(read, s) && Run(s, steps, t) && forall st :: st in steps ==> Succeeds(read, st)
    ensures AllReads(read, t)
    decreases |steps|
  {
    hide Enabled, Apply, AllReads, Succeeds;
    if steps != [] {
      assert steps[0] in steps;
      assert forall st :: st in steps[1..] ==> st in steps;
      SuccessKeeps(read, s, steps[0]);
      SuccessfulRun(read, Apply(s, steps[0]), steps[1..], t);
    }
  }

  function Reads(read: Reader, requests: seq<Request>): (rs: seq<Response>)
    ensures |rs| == |requests|
    ensures forall i :: 0 <= i < |rs| ==> rs[i] == Response(requests[i], read(requests[i]))
  {
    seq(|requests|, i requires 0 <= i < |requests| => Response(requests[i], read(requests[i])))
  }

  lemma AllReceived(requests: seq<Request>, steps: seq<Step>, s: Stream)
    requires Run(Opened(requests), steps, s) && s.unread == []
    ensures s.received == requests
  {
    hide Run;
    assert Opened(requests).received + Opened(requests).unread == requests;
    ReceivedPrefix(Opened(requests), steps, s, requests);
    assert s.received == s.received + s.unread;
  }

  lemma WrittenIsRead(read: Reader, s: Stream)
    requires AllReads(read, s)
    ensures forall r :: r in s.written ==> IsRead(read, r)
  {
  }

  /** Reads arranged by request are the reads of the requests. */
  lemma AnswersAreReads(read: Reader, requests: seq<Request>, written: seq<Response>, answers: seq<Response>)
    requires multiset(answers) == multiset(written) && forall r :: r in written ==> IsRead(read, r)
    requires |answers| == |requests| && forall i :: 0 <= i < |requests| ==> answers[i].request == requests[i]
    ensures answers == Reads(read, requests)
  {
    forall i | 0 <= i < |answers| ensures answers[i] == Reads(read, requests)[i] {
      assert answers[i] in multiset(answers);
      assert answers[i] in written;
    }
  }

  /** When every step succeeds, a finished stream has written exactly the read of every location,
      in some order; so the client's results are a permutation of the per-location reads. */
  lemma ResultsArePermutedReads(read: Reader, resource: string, container: string, locations: seq<Name>,
                                steps: seq<Step>, s: Stream)
    requires resource != "" && container != "" && "" !in locations
    requires Run(Opened(Requests(resource, container, locations)), steps, s)
    requires forall st :: st in steps ==> Succeeds(read, st)
    requires s.core.finishOk == 1 && s.unread == []
    ensures |s.written| == |locations|
    ensures multiset(s.written) == multiset(Reads(read, Requests(resource, container, locations)))
    ensures multiset(Results(s.written)) == multiset(Results(Reads(read, Requests(resource, container, locations))))
    ensures exists xs: seq<ReadResult> ::
              && multiset(xs) == multiset(Results(s.written)) && |xs| == |locations|
              && forall i :: 0 <= i < |xs| ==> Shows(xs[i], read(Request(resource, container, locations[i])))
  {
    var requests := Requests(resource, container, locations);
    assert AllReads(read, Opened(requests));
    hide Answered, Results, Run, AllReads, Requests;
    assert !Succeeds(read, WriteDone(false));
    FinishedMeansAnswered(requests, steps, s);
    AllReceived(requests, steps, s);
    SuccessfulRun(read, Opened(requests), steps, s);
    WrittenIsRead(read, s);
    var answers := Arrange(requests, s.written);
    AnswersAreReads(read, requests, s.written, answers);
    assert |multiset(s.written)| == |multiset(answers)|;
    ResultsMultiset(s.written, answers);
    forall i | 0 <= i < |answers| ensures Shows(Results(answers)[i], read(Request(resource, container, locations[i]))) {
      ResultsShow(answers, i);
      RequestAt(resource, container, locations, i);
    }
  }

  lemma RequestAt(resource: string, container: string, locations: seq<Name>, i: nat)
    requires i < |locations|
    ensures Requests(resource, container, locations)[i] == Request(resource, container, locations[i])
  {
  }
}
