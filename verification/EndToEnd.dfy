/** Writers, `Lookup` and `ReadAsync` together: what was written in chain order is found again,
    and what a lookup reports is what a read returns. */
module EndToEnd {
  import opened Types
  import opened WriteProtocol
  import opened WriteInvariant
  import opened WriteTheorems
  import opened Lookup
  import VersionCodec

  /** What the properties request of a blob returns; the list travels as text. */
  function SnapshotOf(b: Blob<seq<Version>>): Snapshot {
    Snapshot(b.meta.hash, b.meta.parent,
             if b.meta.versions.Some? then VersionCodec.Print(b.meta.versions.value) else "")
  }

  /** The part of a read's result that comes from the store. */
  datatype ReadChunk = ReadChunk(hash: Hash, parent: Hash, buffer: Bytes)

  /** `ReadAsync` at one moment: `None` when the blob is not there. */
  function Read(s: State, location: Name): Option<ReadChunk> {
    if location in s.blobs then
      Some(ReadChunk(s.blobs[location].meta.hash, s.blobs[location].meta.parent, s.blobs[location].buffer))
    else None
  }

  /* ------------------------------- two more facts of every run ------------------------------ */

  ghost predicate PlainNames(s: State) {
    forall g :: g in s.owner ==> Plain(g)
  }

  lemma {:induction false} PlainKeeps(s: State, steps: seq<Step>, t: State)
    requires PlainNames(s) && Run(s, steps, t)
    ensures PlainNames(t)
    decreases |steps|
  {
    if steps != [] {
      PlainStep(s, steps[0]);
      hide Enabled, Apply;
      PlainKeeps(Apply(s, steps[0]), steps[1..], t);
    }
  }

  lemma PlainStep(s: State, st: Step)
    requires PlainNames(s) && Enabled(s, st)
    ensures PlainNames(Apply(s, st))
  {
    hide FirstSame, Plain;
    assert forall g :: g in Apply(s, st).owner ==> g in s.owner || (st.Act? && g == st.guid && Plain(g));
  }

  /** The default version of a blob is what one of its writes created. */
  ghost predicate CreatedBy(s: State, d: Name, w: nat) {
    && w in s.calls && d in s.blobs
    && s.calls[w].chunk.name == d
    && s.blobs[d].meta.hash == s.calls[w].chunk.hash
    && s.blobs[d].meta.parent == s.calls[w].chunk.parent
    && s.blobs[d].buffer == s.calls[w].chunk.buffer
  }

  ghost predicate DefaultWritten(s: State, d: Name) {
    exists w :: CreatedBy(s, d, w)
  }

  lemma CreatedStep(s: State, st: Step, d: Name)
    requires Inv(s) && Enabled(s, st)
    requires d in s.log ==> DefaultWritten(s, d)
    ensures d in Apply(s, st).log ==> DefaultWritten(Apply(s, st), d)
  {
    var t := Apply(s, st);
    StepKeeps(s, st);
    if d in s.log {
      var w :| CreatedBy(s, d, w);
      assert CreatedBy(t, d, w) by {
        hide Inv;
        assert SameDefault(s, t, d) && SameCall(s.calls[w], t.calls[w]);
      }
    } else if d in t.log {
      NewLogIsCreated(s, st, d);
    }
  }

  lemma SwapKeepsLogs(s: State, w: nat, d: Name)
    requires Inv(s) && w in s.calls && s.calls[w].pc.Swapping? && d in DoSwap(s, w, s.calls[w]).log
    ensures d in s.log
  {
    hide GuidOk, EntryOk, SnapshotOk, Settled, DefaultOk, Latest;
    assert CallOk(s, w);
  }

  lemma ReadKeepsLogs(s: State, w: nat, d: Name)
    requires w in s.calls && s.calls[w].pc.Reading? && d in DoRead(s, w, s.calls[w]).log
    ensures d in s.log
  {
    hide FirstSame;
  }

  lemma NewLogIsCreated(s: State, st: Step, d: Name)
    requires Inv(s) && Enabled(s, st) && d !in s.log && d in Apply(s, st).log
    ensures DefaultWritten(Apply(s, st), d)
  {
    hide Inv, DoSwap, DoRead;
    assert st.Act?;
    var c := s.calls[st.w];
    if c.pc.Swapping? {
      SwapKeepsLogs(s, st.w, d);
    } else if c.pc.Reading? {
      ReadKeepsLogs(s, st.w, d);
    } else {
      assert CreatedBy(Apply(s, st), d, st.w);
    }
  }

  lemma {:induction false} CreatedKeeps(s: State, steps: seq<Step>, t: State, d: Name)
    requires Inv(s) && Run(s, steps, t)
    requires d in s.log ==> DefaultWritten(s, d)
    ensures d in t.log ==> DefaultWritten(t, d)
    decreases |steps|
  {
    hide Inv, Enabled, Apply, DefaultWritten;
    if steps != [] {
      CreatedStep(s, steps[0], d);
      StepKeeps(s, steps[0]);
      CreatedKeeps(Apply(s, steps[0]), steps[1..], t, d);
    }
  }

  lemma ReachableFacts(s: State, d: Name)
    requires Reachable(s)
    ensures Inv(s) && PlainNames(s)
    ensures d in s.log ==> DefaultWritten(s, d)
  {
    hide DefaultWritten;
    var steps :| Run(EMPTY, steps, s);
    RunKeeps(EMPTY, steps, s);
    PlainKeeps(EMPTY, steps, s);
    CreatedKeeps(EMPTY, steps, s, d);
  }

  /* ------------------------------- lookup, then read ---------------------------------------- */

  ghost predicate WrittenAs(s: State, d: Name, r: ReadChunk, w: nat) {
    && w in s.calls
    && s.calls[w].chunk.name == d
    && r == ReadChunk(s.calls[w].chunk.hash, s.calls[w].chunk.parent, s.calls[w].chunk.buffer)
  }

  lemma ListedIsOwned(s: State, d: Name, v: Version)
    requires Inv(s) && d in s.log && d in s.blobs && v in ListOf(s.blobs[d])
    ensures v.location in s.owner && s.owner[v.location] in s.calls
    ensures var c := s.calls[s.owner[v.location]]; c.chunk.name == d && SamePair(v, c.chunk)
  {
    hide CallOk, GuidOk;
    assert DefaultOk(s, d);
    var log := s.log[d];
    var k :| 0 <= k < |Latest(log)| && Latest(log)[k] == v;
    assert EntryOk(s, d, |log| - |Latest(log)| + k);
  }

  /** A version offered at one moment, if its blob is still there at a later one, reads back with
      the offered hash and parent and the data of a write of that very blob name. */
  lemma LookupThenRead(s: State, steps: seq<Step>, t: State, d: Name, v: Version)
    requires Reachable(s) && Run(s, steps, t)
    requires d in s.blobs && IsTokenName(d)
    requires v == Version(s.blobs[d].meta.hash, s.blobs[d].meta.parent, d) || v in ListOf(s.blobs[d])
    requires Read(t, v.location).Some?
    ensures var r := Read(t, v.location).value;
            && r.hash == v.hash && r.parent == v.parent
            && exists w :: WrittenAs(t, d, r, w)
  {
    ReachableFacts(s, d);
    StillReachable(s, steps, t);
    ReachableFacts(t, d);
    RunKeeps(s, steps, t);
    LogsHaveBlobs(s);
    var r := Read(t, v.location).value;
    hide Inv, Reachable, Run;
    if v.location == d {
      DefaultReads(s, t, d, v);
    } else {
      ListedReads(s, t, d, v);
    }
  }

  lemma DefaultReads(s: State, t: State, d: Name, v: Version)
    requires Inv(s) && Inv(t) && Extends(s, t) && d in s.log && d in s.blobs && d in t.blobs && DefaultWritten(t, d)
    requires v == Version(s.blobs[d].meta.hash, s.blobs[d].meta.parent, d) || v in ListOf(s.blobs[d])
    requires v.location == d
    ensures Read(t, d).Some?
    ensures var r := Read(t, d).value; r.hash == v.hash && r.parent == v.parent && exists w :: WrittenAs(t, d, r, w)
  {
    if v in ListOf(s.blobs[d]) {
      ListedIsOwned(s, d, v);
      LogsHaveBlobs(s);
    }
    hide Inv;
    assert SameDefault(s, t, d);
    var w :| CreatedBy(t, d, w);
    assert WrittenAs(t, d, Read(t, d).value, w);
  }

  lemma ListedReads(s: State, t: State, d: Name, v: Version)
    requires Inv(s) && Inv(t) && Extends(s, t) && d in s.log && d in s.blobs && v in ListOf(s.blobs[d])
    requires v.location in t.blobs
    ensures Read(t, v.location).Some?
    ensures var r := Read(t, v.location).value;
            r.hash == v.hash && r.parent == v.parent && exists w :: WrittenAs(t, d, r, w)
  {
    hide CallOk, EntryOk, DefaultOk;
    ListedIsOwned(s, d, v);
    var w := s.owner[v.location];
    assert SameCall(s.calls[w], t.calls[w]);
    assert GuidOk(t, v.location);
    assert WrittenAs(t, d, Read(t, v.location).value, w);
  }

  /* ------------------------------- write, then lookup --------------------------------------- */

  /** Fewer than 60 commits have reached the blob since the one that recorded this write. */
  predicate StillListed(s: State, c: Call)
    requires c.pc.Done?
  {
    match c.pc.how
    case Created => true
    case SameAsDefault => true
    case SameAsListed(slot) => CommitCount(s, c.chunk.name) <= slot + 60
    case Appended(slot) => CommitCount(s, c.chunk.name) <= slot + 60
  }

  /** A completed write of this pair is an offer of the blob's snapshot. */
  ghost predicate Offered(s: State, c: Call)
    requires c.chunk.name in s.blobs
  {
    exists v :: v in Offers(SnapshotOf(s.blobs[c.chunk.name]), c.chunk.name) && SamePair(v, c.chunk)
  }

  lemma SnapshotReadable(s: State, d: Name)
    requires Inv(s) && PlainNames(s) && d in s.log && d in s.blobs
    ensures Readable(Some(SnapshotOf(s.blobs[d])))
    ensures Offers(SnapshotOf(s.blobs[d]), d)
            == [Version(s.blobs[d].meta.hash, s.blobs[d].meta.parent, d)] + ListOf(s.blobs[d])
  {
    var list := ListOf(s.blobs[d]);
    forall v | v in list ensures Plain(v.location) {
      ListedIsOwned(s, d, v);
    }
    hide Inv, Plain;
    VersionCodec.RoundTrip(list);
    PrintNotEmpty(list);
    hide VersionCodec.Print, VersionCodec.Parse;
  }

  lemma PrintNotEmpty(vs: seq<Version>)
    ensures VersionCodec.Print(vs) != ""
  {
    hide VersionCodec.ItemsFrom;
  }

  lemma RecentIsListed(log: seq<Version>, j: nat)
    requires j < |log| <= j + 60
    ensures log[j] in Latest(log)
  {
    assert Latest(log)[j - (|log| - |Latest(log)|)] == log[j];
  }

  lemma CompletedIsOffered(s: State, w: nat)
    requires Inv(s) && PlainNames(s) && w in s.calls && s.calls[w].pc.Done? && StillListed(s, s.calls[w])
    ensures s.calls[w].chunk.name in s.blobs && s.calls[w].chunk.name in s.log && Offered(s, s.calls[w])
  {
    hide GuidOk, EntryOk, SnapshotOk, Latest;
    var c := s.calls[w];
    var d := c.chunk.name;
    assert CallOk(s, w) && DefaultOk(s, d);
    SnapshotReadable(s, d);
    hide Offers, SnapshotOf, Inv, CallOk;
    var offers := Offers(SnapshotOf(s.blobs[d]), d);
    match c.pc.how {
      case Created => assert SamePair(offers[0], c.chunk);
      case SameAsDefault => assert SamePair(offers[0], c.chunk);
      case SameAsListed(j) => RecentIsListed(s.log[d], j);
      case Appended(j) => RecentIsListed(s.log[d], j);
    }
  }

  /** Every version a snapshot offers is some write of that name. */
  lemma OffersAreWrites(s: State, d: Name, v: Version)
    requires Inv(s) && PlainNames(s) && d in s.log && d in s.blobs && DefaultWritten(s, d)
    requires v in Offers(SnapshotOf(s.blobs[d]), d)
    ensures exists w :: w in s.calls && s.calls[w].chunk.name == d && s.calls[w].chunk.hash == v.hash
  {
    SnapshotReadable(s, d);
    if v in ListOf(s.blobs[d]) {
      ListedIsOwned(s, d, v);
    } else {
      hide Inv, Offers;
      assert v == Version(s.blobs[d].meta.hash, s.blobs[d].meta.parent, d);
      var w :| CreatedBy(s, d, w);
    }
  }

  /** A block of a written conversation: the write, and the moment a lookup reads its blob. */
  datatype Written = Written(w: nat, steps: seq<Step>, at: State)

  /** In state `s` the write of block `i` is complete, chained to its predecessor; the lookup sees
      its blob at a later moment, before 60 more commits, and all writes of that name so far agree
      on the hash. */
  ghost predicate BlockWritten(s: State, chunks: seq<Chunk>, i: nat, b: Written)
    requires i < |chunks|
  {
    && b.w in s.calls && s.calls[b.w].chunk == chunks[i] && s.calls[b.w].pc.Done?
    && (i > 0 ==> chunks[i].parent == chunks[i - 1].hash)
    && Run(s, b.steps, b.at)
    && StillListed(b.at, s.calls[b.w])
    && (forall u :: u in b.at.calls && b.at.calls[u].chunk.name == chunks[i].name ==>
      b.at.calls[u].chunk.hash == chunks[i].hash)
  }

  /** A properties result of a container that only `WriteAsync` touches. */
  ghost predicate Genuine(p: Option<Snapshot>, name: Name) {
    p.Some? ==> exists t :: Reachable(t) && name in t.blobs && IsTokenName(name) && p.value == SnapshotOf(t.blobs[name])
  }

  lemma GenuineIsReadable(p: Option<Snapshot>, name: Name)
    requires Genuine(p, name)
    ensures Readable(p)
  {
    if p.Some? {
      var t :| Reachable(t) && name in t.blobs && IsTokenName(name) && p.value == SnapshotOf(t.blobs[name]);
      ReachableFacts(t, name);
      LogsHaveBlobs(t);
      hide Inv;
      SnapshotReadable(t, name);
    }
  }

  /** What the lookup sees of one written block. */
  ghost predicate Seen(p: Option<Snapshot>, name: Name, chunk: Chunk) {
    && p.Some? && Readable(p)
    && (exists v :: v in Offers(p.value, name) && SamePair(v, chunk))
    && (forall v :: v in Offers(p.value, name) ==> v.hash == chunk.hash)
  }

  lemma WrittenIsSeen(s: State, chunks: seq<Chunk>, i: nat, b: Written)
    requires Reachable(s) && i < |chunks| && BlockWritten(s, chunks, i, b)
    ensures chunks[i].name in b.at.blobs && IsTokenName(chunks[i].name)
    ensures Seen(Some(SnapshotOf(b.at.blobs[chunks[i].name])), chunks[i].name, chunks[i])
  {
    var d, t := chunks[i].name, b.at;
    StillReachable(s, b.steps, t);
    ReachableFacts(s, d);
    ReachableFacts(t, d);
    RunKeeps(s, b.steps, t);
    hide Run, Reachable;
    assert SameCall(s.calls[b.w], t.calls[b.w]);
    hide Inv, Extends;
    CompletedIsOffered(t, b.w);
    NamesAreTokenNames(t, b.w);
    SnapshotReadable(t, d);
    forall v | v in Offers(SnapshotOf(t.blobs[d]), d) ensures v.hash == chunks[i].hash {
      OffersAreWrites(t, d, v);
    }
  }

  lemma NamesAreTokenNames(s: State, w: nat)
    requires Inv(s) && w in s.calls
    ensures IsTokenName(s.calls[w].chunk.name)
  {
    hide GuidOk, EntryOk, DefaultOk;
    assert CallOk(s, w);
  }

  lemma SeenFollows(names: seq<Name>, props: seq<Option<Snapshot>>, chunks: seq<Chunk>, k: nat, expected: Hash)
    requires k < |chunks| <= |names| == |props| && Seen(props[k], names[k], chunks[k])
    requires k > 0 ==> chunks[k].parent == expected
    ensures CanFollow(names, props, k, expected)
  {
    hide Offers, Readable;
    var offers := Offers(props[k].value, names[k]);
    var v :| v in offers && SamePair(v, chunks[k]);
    var j :| 0 <= j < |offers| && offers[j] == v;
    assert k > 0 ==> HasParent(offers, expected);
  }

  lemma {:induction false} SeenIsChained(names: seq<Name>, props: seq<Option<Snapshot>>, chunks: seq<Chunk>, i: nat)
    requires |chunks| <= |names| == |props| && forall p :: p in props ==> Readable(p)
    requires forall k :: 0 <= k < |chunks| ==> names[k] == chunks[k].name && Seen(props[k], names[k], chunks[k])
    requires forall k :: 0 < k < |chunks| ==> chunks[k].parent == chunks[k - 1].hash
    requires i <= |chunks|
    ensures Chain(names, props, 0, 0).Some?
    ensures |Chain(names, props, 0, 0).value| >= i
    ensures forall k :: 0 <= k < i ==> Chain(names, props, 0, 0).value[k].hash == chunks[k].hash
  {
    hide Offers, Chain, Choose, FirstWith, Readable;
    ChainIsGreedy(names, props);
    var vs := Chain(names, props, 0, 0).value;
    if i > 0 {
      SeenIsChained(names, props, chunks, i - 1);
      var k := i - 1;
      SeenFollows(names, props, chunks, k, if k == 0 then 0 else vs[k - 1].hash);
      assert FirstFit(names, props, vs, k);
    }
  }

  /** Blocks written in chain order are found again: whatever other writers do, a lookup of those
      tokens or of any extension reports at least these blocks, with exactly their hashes. */
  lemma WriteThenLookup(s: State, chunks: seq<Chunk>, blocks: seq<Written>, names: seq<Name>,
      props: seq<Option<Snapshot>>)
    requires Reachable(s) && |blocks| == |chunks| <= |names| == |props|
    requires forall i :: 0 <= i < |chunks| ==> names[i] == chunks[i].name && BlockWritten(s, chunks, i, blocks[i])
    requires forall i :: 0 <= i < |chunks| && names[i] in blocks[i].at.blobs ==>
            props[i] == Some(SnapshotOf(blocks[i].at.blobs[names[i]]))
    requires forall i :: |chunks| <= i < |props| ==> Genuine(props[i], names[i])
    ensures Chain(names, props, 0, 0).Some?
    ensures |Chain(names, props, 0, 0).value| >= |chunks|
    ensures forall i :: 0 <= i < |chunks| ==> Chain(names, props, 0, 0).value[i].hash == chunks[i].hash
  {
    hide Chain, Offers, Readable, Seen, Run, StillListed, Reachable;
    forall i | 0 <= i < |chunks| ensures Seen(props[i], names[i], chunks[i]) {
      WrittenIsSeen(s, chunks, i, blocks[i]);
    }
    forall i | 0 <= i < |props| ensures Readable(props[i]) {
      if i >= |chunks| {
        GenuineIsReadable(props[i], names[i]);
      } else {
        SeenReadable(props[i], names[i], chunks[i]);
      }
    }
    SeenIsChained(names, props, chunks, |chunks|);
  }

  lemma SeenReadable(p: Option<Snapshot>, name: Name, chunk: Chunk)
    requires Seen(p, name, chunk)
    ensures Readable(p)
  {
  }

  /* ------------------------------- reading what a lookup reports ---------------------------- */

  /** The state a properties request saw, and the steps between it and the reads. */
  datatype Moment = Moment(at: State, steps: seq<Step>)

  ghost predicate Asked(p: Option<Snapshot>, name: Name, m: Moment, now: State) {
    p.Some? ==>
      && Reachable(m.at) && Run(m.at, m.steps, now)
      && name in m.at.blobs && IsTokenName(name) && p.value == SnapshotOf(m.at.blobs[name])
  }

  /** The read at a reported location returns the hash reported, and a write of that block's name. */
  ghost predicate ReadsBack(now: State, name: Name, l: BlockLocation)
    requires Read(now, l.location).Some?
  {
    var r := Read(now, l.location).value;
    r.hash == l.hash && exists w :: WrittenAs(now, name, r, w)
  }

  lemma OfferReadsBack(p: Option<Snapshot>, name: Name, m: Moment, now: State, v: Version)
    requires p.Some? && Asked(p, name, m, now) && v in Offers(p.value, name) && Read(now, v.location).Some?
    ensures ReadsBack(now, name, BlockLocation(v.hash, v.location)) && Read(now, v.location).value.parent == v.parent
  {
    ReachableFacts(m.at, name);
    hide Inv, Reachable, Run, Offers;
    LogsHaveBlobs(m.at);
    SnapshotReadable(m.at, name);
    LookupThenRead(m.at, m.steps, now, name, v);
  }

  lemma AskedIsReadable(names: seq<Name>, props: seq<Option<Snapshot>>, moments: seq<Moment>, now: State)
    requires |names| == |props| == |moments|
    requires forall i :: 0 <= i < |props| ==> Asked(props[i], names[i], moments[i], now)
    ensures forall p :: p in props ==> Readable(p)
  {
    hide Reachable, Run, Readable, SnapshotOf;
    forall i | 0 <= i < |props| ensures Readable(props[i]) {
      assert Asked(props[i], names[i], moments[i], now);
      assert Genuine(props[i], names[i]);
      GenuineIsReadable(props[i], names[i]);
    }
  }

  /** Every location that a lookup reports and that is still there reads back: with the hash reported,
      the parent reported before it, and the data of a write of that block's name. Each properties
      request may have seen its own earlier moment. */
  lemma ReportReadsBack(names: seq<Name>, props: seq<Option<Snapshot>>, moments: seq<Moment>, now: State)
    requires |names| == |props| == |moments|
    requires forall i :: 0 <= i < |props| ==> Asked(props[i], names[i], moments[i], now)
    ensures Report(Chain(names, props, 0, 0)).Some?
    ensures var ls := Report(Chain(names, props, 0, 0)).value.locations;
            && |ls| <= |names|
            && forall i :: 0 <= i < |ls| && Read(now, ls[i].location).Some? ==>
                 ReadsBack(now, names[i], ls[i])
                 && (i > 0 ==> Read(now, ls[i].location).value.parent == ls[i - 1].hash)
  {
    AskedIsReadable(names, props, moments, now);
    hide Asked, ReadsBack, Chain, Offers, Readable;
    ChainIsGreedy(names, props);
    var vs := Chain(names, props, 0, 0).value;
    forall i | 0 <= i < |vs| && Read(now, vs[i].location).Some?
      ensures ReadsBack(now, names[i], BlockLocation(vs[i].hash, vs[i].location))
      ensures Read(now, vs[i].location).value.parent == vs[i].parent
    {
      OfferReadsBack(props[i], names[i], moments[i], now, vs[i]);
    }
  }

  /** The commit of entry `k` of a list is fewer than 60 commits back at the later moment. */
  ghost predicate StillRecent(s: State, t: State, d: Name, k: nat)
    requires d in s.blobs && k < |ListOf(s.blobs[d])|
  {
    CommitCount(t, d) < CommitCount(s, d) - |ListOf(s.blobs[d])| + k + 60
  }

  /** Where an entry of the list stands in the log, now and later. */
  lemma EntrySlot(s: State, t: State, d: Name, k: nat) returns (i: nat)
    requires Inv(s) && Inv(t) && Extends(s, t) && d in s.log && d in s.blobs && k < |ListOf(s.blobs[d])|
    ensures i == CommitCount(s, d) - |ListOf(s.blobs[d])| + k
    ensures d in t.log && i < |t.log[d]| && ListOf(s.blobs[d])[k] == t.log[d][i]
  {
    hide CallOk, EntryOk, GuidOk;
    assert DefaultOk(s, d) && SameDefault(s, t, d);
    var log := s.log[d];
    i := |log| - |Latest(log)| + k;
    assert Latest(log)[k] == log[i] == t.log[d][i];
  }

  lemma SlotIsThere(t: State, d: Name, i: nat)
    requires Inv(t) && d in t.log && i < |t.log[d]| && |t.log[d]| < i + 60
    ensures t.log[d][i].location in t.blobs
  {
    hide CallOk, DefaultOk;
    assert EntryOk(t, d, i) && GuidOk(t, t.log[d][i].location);
  }

  lemma EntryIsThere(s: State, t: State, d: Name, k: nat)
    requires Inv(s) && Inv(t) && Extends(s, t) && d in s.log && d in s.blobs && k < |ListOf(s.blobs[d])|
    requires StillRecent(s, t, d, k)
    ensures ListOf(s.blobs[d])[k].location in t.blobs
  {
    hide Inv, Extends;
    var i := EntrySlot(s, t, d, k);
    SlotIsThere(t, d, i);
  }

  /** A listed version stays readable until 60 commits, its own included, have reached the list. */
  lemma ListedStaysReadable(s: State, steps: seq<Step>, t: State, d: Name, k: nat)
    requires Reachable(s) && Run(s, steps, t) && d in s.blobs && IsTokenName(d) && k < |ListOf(s.blobs[d])|
    requires StillRecent(s, t, d, k)
    ensures var v := ListOf(s.blobs[d])[k];
            && Read(t, v.location).Some?
            && ReadsBack(t, d, BlockLocation(v.hash, v.location)) && Read(t, v.location).value.parent == v.parent
  {
    ReachableInv(s);
    RunKeeps(s, steps, t);
    hide Reachable, Run;
    LogsHaveBlobs(s);
    EntryIsThere(s, t, d, k);
    hide Inv, Extends;
    LookupThenRead(s, steps, t, d, ListOf(s.blobs[d])[k]);
  }

  /** The version is the default one, or an entry of the list that is still recent. */
  ghost predicate Lasting(m: Moment, now: State, d: Name, v: Version)
    requires d in m.at.blobs
  {
    v.location == d
    || exists k: nat :: k < |ListOf(m.at.blobs[d])| && ListOf(m.at.blobs[d])[k] == v && StillRecent(m.at, now, d, k)
  }

  lemma LastingIsThere(p: Option<Snapshot>, d: Name, m: Moment, now: State, v: Version)
    requires p.Some? && Asked(p, d, m, now) && v in Offers(p.value, d) && Lasting(m, now, d, v)
    ensures Read(now, v.location).Some?
  {
    hide Offers, SnapshotOf;
    if v.location == d {
      DefaultVersionIsForever(m.at, m.steps, now, d);
    } else {
      var k: nat :| k < |ListOf(m.at.blobs[d])| && ListOf(m.at.blobs[d])[k] == v && StillRecent(m.at, now, d, k);
      ListedStaysReadable(m.at, m.steps, now, d, k);
    }
  }

  lemma AskedHasBlob(p: Option<Snapshot>, d: Name, m: Moment, now: State)
    requires p.Some? && Asked(p, d, m, now)
    ensures d in m.at.blobs
  {
  }

  /** So a report can be read in full as long as, for each listed version in it, fewer than 60 commits,
      its own included, have reached the list since; default versions never go. */
  lemma RecentReportReads(names: seq<Name>, props: seq<Option<Snapshot>>, moments: seq<Moment>, now: State)
    requires |names| == |props| == |moments|
    requires forall i :: 0 <= i < |props| ==> Asked(props[i], names[i], moments[i], now)
    requires var r := Chain(names, props, 0, 0);
             r.Some? ==> forall i :: 0 <= i < |r.value| && names[i] in moments[i].at.blobs ==>
                           Lasting(moments[i], now, names[i], r.value[i])
    ensures Report(Chain(names, props, 0, 0)).Some?
    ensures var ls := Report(Chain(names, props, 0, 0)).value.locations;
            && |ls| <= |names|
            && forall i :: 0 <= i < |ls| ==>
                 && Read(now, ls[i].location).Some? && ReadsBack(now, names[i], ls[i])
                 && (i > 0 ==> Read(now, ls[i].location).value.parent == ls[i - 1].hash)
  {
    hide Chain, Offers, Readable, Lasting, ReadsBack, Asked;
    AskedIsReadable(names, props, moments, now);
    ReportReadsBack(names, props, moments, now);
    ChainIsGreedy(names, props);
    var vs := Chain(names, props, 0, 0).value;
    forall i | 0 <= i < |vs| ensures Read(now, vs[i].location).Some? {
      AskedHasBlob(props[i], names[i], moments[i], now);
      LastingIsThere(props[i], names[i], moments[i], now, vs[i]);
    }
  }
}
