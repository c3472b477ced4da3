/** What the write protocol guarantees in every run, for any number of interleaved writers that
    may stop at any point. */
module WriteTheorems {
  import opened Types
  import opened WriteProtocol
  import opened WriteInvariant

  /** The additional versions that metadata lists. */
  function ListIn(m: ListedMeta): seq<Version> {
    if m.versions.Some? then m.versions.value else []
  }

  /** The additional versions a reader finds in a blob's metadata. */
  function ListOf(b: Blob<seq<Version>>): seq<Version> {
    ListIn(b.meta)
  }

  lemma ReachableInv(s: State)
    requires Reachable(s)
    ensures Inv(s)
  {
    var steps :| Run(EMPTY, steps, s);
    RunKeeps(EMPTY, steps, s);
  }

  /** Eviction deletes before it commits, yet only the front of a full list can lack its blob. */
  lemma ListedVersionsExist(s: State, d: Name, k: nat)
    requires Reachable(s) && d in s.blobs && IsTokenName(d) && k < |ListOf(s.blobs[d])|
    ensures ListOf(s.blobs[d])[k].location in s.blobs || (k == 0 && |ListOf(s.blobs[d])| == 60)
    ensures |ListOf(s.blobs[d])| <= 60
  {
    ReachableInv(s);
    assert d in s.log && DefaultOk(s, d);
    var log := s.log[d];
    var i := |log| - |Latest(log)| + k;
    assert Latest(log)[k] == log[i];
    assert EntryOk(s, d, i) && GuidOk(s, log[i].location);
  }

  ghost predicate AppendedAt(s: State, d: Name, w: nat, i: nat) {
    w in s.calls && s.calls[w].chunk.name == d && s.calls[w].pc == Done(Appended(i))
  }

  ghost predicate FromSomeWriter(s: State, d: Name, i: nat) {
    exists w :: AppendedAt(s, d, w, i)
  }

  /** No update is lost: the list is the tail of the commit log, the log holds every successful
      append once, at the position where it was made, and nothing else. */
  lemma NoLostUpdates(s: State, d: Name)
    requires Reachable(s) && d in s.blobs && IsTokenName(d)
    ensures d in s.log
    ensures ListOf(s.blobs[d]) == if |s.log[d]| <= 60 then s.log[d] else s.log[d][|s.log[d]| - 60..]
    ensures forall w, i: nat :: AppendedAt(s, d, w, i) ==>
              i < |s.log[d]| && s.calls[w].guid.Some? &&
                s.log[d][i] == NewVersion(s.calls[w].chunk, s.calls[w].guid.value)
    ensures forall i: nat :: i < |s.log[d]| ==> FromSomeWriter(s, d, i)
    ensures forall w, u, i: nat :: AppendedAt(s, d, w, i) && AppendedAt(s, d, u, i) ==> w == u
  {
    ReachableInv(s);
    assert d in s.log && DefaultOk(s, d);
    forall w, i: nat | AppendedAt(s, d, w, i)
      ensures i < |s.log[d]| && s.calls[w].guid.Some? &&
              s.log[d][i] == NewVersion(s.calls[w].chunk, s.calls[w].guid.value)
              && s.log[d][i].location in s.owner && s.owner[s.log[d][i].location] == w
    {
      assert CallOk(s, w) && Settled(s, s.calls[w]);
    }
    forall i: nat | i < |s.log[d]| ensures FromSomeWriter(s, d, i) {
      assert EntryOk(s, d, i);
      assert AppendedAt(s, d, s.owner[s.log[d][i].location], i);
    }
  }

  lemma DefaultKept(s: State, t: State, d: Name)
    requires Inv(s) && Extends(s, t) && d in s.blobs && IsTokenName(d)
    ensures d in s.log && d in t.log && s.log[d] <= t.log[d] && SameDefault(s, t, d)
  {
    LogsHaveBlobs(s);
  }

  /** Later steps never delete or rewrite a default blob's own version and only append commits. */
  lemma DefaultVersionIsForever(s: State, steps: seq<Step>, t: State, d: Name)
    requires Reachable(s) && Run(s, steps, t) && d in s.blobs && IsTokenName(d)
    ensures d in t.blobs
    ensures t.blobs[d].meta.(versions := None) == s.blobs[d].meta.(versions := None)
    ensures t.blobs[d].buffer == s.blobs[d].buffer
    ensures d in s.log && d in t.log && s.log[d] <= t.log[d]
  {
    ReachableInv(s);
    RunKeeps(s, steps, t);
    DefaultKept(s, t, d);
  }

  /** A retry always finds the metadata key, so the stale local list is always replaced and the
      new version is pushed once. */
  lemma RetryReplacesList(s: State, w: nat)
    requires Reachable(s) && w in s.calls && s.calls[w].pc.Rereading?
    ensures var c := s.calls[w];
            && c.chunk.name in s.blobs
            && s.blobs[c.chunk.name].meta.versions.Some?
            && c.guid.Some?
            && forall v :: v in ListOf(s.blobs[c.chunk.name]) ==> v.location != c.guid.value
  {
    ReachableInv(s);
    var c := s.calls[w];
    var d := c.chunk.name;
    assert CallOk(s, w) && SnapshotOk(s, c) && DefaultOk(s, d);
    forall v | v in ListOf(s.blobs[d]) ensures v.location != c.guid.value {
      var k :| 0 <= k < |Latest(s.log[d])| && Latest(s.log[d])[k] == v;
      assert EntryOk(s, d, |s.log[d]| - |Latest(s.log[d])| + k);
    }
  }

  /* ---------------------------------------------------------------------------------------- */
  /* Progress                                                                                 */
  /* ---------------------------------------------------------------------------------------- */

  /** Blob operations a call can still perform. */
  function Remaining(c: Call): nat {
    var attempts := if c.retry < MAX_RETRIES then 3 * (MAX_RETRIES - 1 - c.retry) else 0;
    match c.pc
    case Creating => 17
    case Reading => 16
    case Uploading => 15
    case Evicting => attempts + 1 + (if |c.list| > MAX_VERSIONS then |c.list| - MAX_VERSIONS else 0)
    case Swapping => attempts + 1
    case Rereading => attempts + 3
    case _ => 0
  }

  function OwnOperations(steps: seq<Step>, w: nat): nat {
    if steps == [] then 0
    else (if steps[0].Act? && steps[0].w == w then 1 else 0) + OwnOperations(steps[1..], w)
  }

  /** The facts about a call that bound its next operation. */
  predicate Bounded(s: State, c: Call) {
    && (PastCheck(c.pc) && !c.pc.GaveUp? ==> c.retry < MAX_RETRIES)
    && (c.pc.Uploading? ==> |c.list| <= MAX_VERSIONS && c.retry == 0)
    && (c.pc.Evicting? ==> |c.list| > MAX_VERSIONS)
    && (c.pc.Rereading? ==>
      c.chunk.name in s.blobs && s.blobs[c.chunk.name].meta.versions.Some? &&
        |ListOf(s.blobs[c.chunk.name])| <= MAX_VERSIONS)
  }

  lemma CallBounded(s: State, w: nat)
    requires Inv(s) && w in s.calls
    ensures Bounded(s, s.calls[w])
  {
    var c := s.calls[w];
    assert CallOk(s, w);
    if PastCheck(c.pc) {
      assert SnapshotOk(s, c) && DefaultOk(s, c.chunk.name);
    }
  }

  lemma UploadUses(s: State, w: nat, c: Call, guid: Name)
    requires c.pc.Uploading? && Bounded(s, c)
    ensures w in DoUpload(s, w, c, guid).calls && Remaining(DoUpload(s, w, c, guid).calls[w]) < Remaining(c)
  {
    assert DoUpload(s, w, c, guid).calls[w].retry == 0;
  }

  lemma EvictUses(s: State, w: nat, c: Call, deleteOk: bool)
    requires c.pc.Evicting? && Bounded(s, c) && c.list != []
    ensures w in DoEvict(s, w, c, deleteOk).calls && Remaining(DoEvict(s, w, c, deleteOk).calls[w]) < Remaining(c)
  {
    assert DoEvict(s, w, c, deleteOk).calls[w].retry == c.retry;
  }

  lemma RereadUses(s: State, w: nat, c: Call)
    requires c.pc.Rereading? && Bounded(s, c)
    ensures w in DoReread(s, w, c).calls && Remaining(DoReread(s, w, c).calls[w]) < Remaining(c)
  {
    assert DoReread(s, w, c).calls[w].retry == c.retry;
  }

  lemma CreateUses(s: State, w: nat, c: Call)
    requires c.pc.Creating?
    ensures w in DoCreate(s, w, c).calls && Remaining(DoCreate(s, w, c).calls[w]) < Remaining(c)
  {
  }

  lemma ReadUses(s: State, w: nat, c: Call)
    requires c.pc.Reading?
    ensures w in DoRead(s, w, c).calls && Remaining(DoRead(s, w, c).calls[w]) < Remaining(c)
  {
    hide FirstSame;
  }

  lemma SwapUses(s: State, w: nat, c: Call)
    requires c.pc.Swapping? && Bounded(s, c)
    ensures w in DoSwap(s, w, c).calls && Remaining(DoSwap(s, w, c).calls[w]) < Remaining(c)
  {
  }

  lemma ActUses(s: State, w: nat, guid: Name, deleteOk: bool)
    requires Enabled(s, Act(w, guid, deleteOk)) && Bounded(s, s.calls[w])
    ensures w in Apply(s, Act(w, guid, deleteOk)).calls
    ensures Remaining(Apply(s, Act(w, guid, deleteOk)).calls[w]) < Remaining(s.calls[w])
  {
    hide DoCreate, DoRead, DoUpload, DoEvict, DoSwap, DoReread, Remaining, Bounded;
    var c := s.calls[w];
    match c.pc
    case Uploading => UploadUses(s, w, c, guid);
    case Evicting => EvictUses(s, w, c, deleteOk);
    case Rereading => RereadUses(s, w, c);
    case Creating => CreateUses(s, w, c);
    case Reading => ReadUses(s, w, c);
    case Swapping => SwapUses(s, w, c);
    case _ =>
  }

  lemma OthersUntouched(s: State, st: Step, w: nat)
    requires Enabled(s, st) && w in s.calls
    ensures w in Apply(s, st).calls && (st.w != w ==> Apply(s, st).calls[w] == s.calls[w])
  {
    match st
    case Begin(_, _) =>
    case Fail(_) =>
    case Act(u, guid, deleteOk) =>
      match s.calls[u].pc {
        case Creating =>
        case Reading => hide FirstSame;
        case Uploading =>
        case Evicting =>
        case Swapping =>
        case Rereading =>
        case _ =>
      }
  }

  lemma OperationUses(s: State, st: Step, w: nat)
    requires Inv(s) && Enabled(s, st) && w in s.calls
    ensures w in Apply(s, st).calls
    ensures st.Act? && st.w == w ==> Remaining(Apply(s, st).calls[w]) < Remaining(s.calls[w])
    ensures !(st.Act? && st.w == w) ==> Remaining(Apply(s, st).calls[w]) <= Remaining(s.calls[w])
  {
    hide Inv, DoCreate, DoRead, DoUpload, DoEvict, DoSwap, DoReread;
    OthersUntouched(s, st, w);
    if st.Act? && st.w == w {
      CallBounded(s, w);
      ActUses(s, w, st.guid, st.deleteOk);
    }
  }

  /** However the writers interleave, a call performs at most 17 blob operations. */
  lemma {:induction false} BoundedOperations(s: State, steps: seq<Step>, t: State, w: nat)
    requires Inv(s) && Run(s, steps, t) && w in s.calls
    ensures w in t.calls && OwnOperations(steps, w) + Remaining(t.calls[w]) <= Remaining(s.calls[w])
    decreases |steps|
  {
    hide Inv, Enabled, Apply, Remaining;
    if steps != [] {
      OperationUses(s, steps[0], w);
      StepKeeps(s, steps[0]);
      BoundedOperations(Apply(s, steps[0]), steps[1..], t, w);
    }
  }

  lemma StepNeverFaults(s: State, st: Step, w: nat)
    requires Inv(s) && Enabled(s, st) && w in s.calls && st != Fail(w) && !s.calls[w].pc.Faulted?
    ensures w in Apply(s, st).calls && !Apply(s, st).calls[w].pc.Faulted?
  {
    hide GuidOk, EntryOk, DefaultOk, Latest;
    if st.w != w {
      OthersUntouched(s, st, w);
    } else if st.Act? {
      assert CallOk(s, w);
    }
  }

  /** A call in flight keeps in `first` a commit count no smaller than at its start. */
  ghost predicate StartedAfter(s: State, w: nat, base: nat)
    requires w in s.calls
  {
    && base <= CommitCount(s, s.calls[w].chunk.name)
    && (PastCheck(s.calls[w].pc) ==> base <= s.calls[w].first)
  }

  /** Only the first read of the properties sets `first`. */
  lemma FirstIsSetOnce(s: State, st: Step, w: nat)
    requires Enabled(s, st) && w in s.calls && w in Apply(s, st).calls
    ensures var c, c' := s.calls[w], Apply(s, st).calls[w];
            PastCheck(c'.pc) ==> (PastCheck(c.pc) && c'.first == c.first) || c'.first == CommitCount(s, c.chunk.name)
  {
    hide FirstSame;
    if st.w != w {
      OthersUntouched(s, st, w);
    } else if st.Act? {
      match s.calls[w].pc
      case Creating =>
      case Reading =>
      case Uploading =>
      case Evicting =>
      case Swapping =>
      case Rereading =>
      case _ =>
    }
  }

  lemma WindowStep(s: State, st: Step, w: nat, base: nat)
    requires Inv(s) && Enabled(s, st) && w in s.calls && StartedAfter(s, w, base)
    requires st != Fail(w) && !s.calls[w].pc.Faulted?
    ensures w in Apply(s, st).calls && StartedAfter(Apply(s, st), w, base) && !Apply(s, st).calls[w].pc.Faulted?
  {
    StepNeverFaults(s, st, w);
    FirstIsSetOnce(s, st, w);
    assert CommitCount(s, s.calls[w].chunk.name) <= CommitCount(Apply(s, st), s.calls[w].chunk.name)
           && SameCall(s.calls[w], Apply(s, st).calls[w]) by {
      StepKeeps(s, st);
    }
  }

  lemma {:induction false} WindowKeeps(s: State, steps: seq<Step>, t: State, w: nat, base: nat)
    requires Inv(s) && Run(s, steps, t) && w in s.calls && StartedAfter(s, w, base)
    requires Fail(w) !in steps && !s.calls[w].pc.Faulted?
    ensures w in t.calls && StartedAfter(t, w, base) && !t.calls[w].pc.Faulted?
    decreases |steps|
  {
    hide Inv, Enabled, Apply, StartedAfter;
    if steps != [] {
      assert steps[0] != Fail(w);
      WindowStep(s, steps[0], w, base);
      StepKeeps(s, steps[0]);
      assert forall st :: st in steps[1..] ==> st in steps;
      WindowKeeps(Apply(s, steps[0]), steps[1..], t, w, base);
    }
  }

  /** A writer that gives up has seen five commits by other writers on its blob since it began;
      with at most four of them, and no storage error of its own, a write that ends is recorded. */
  lemma GivingUpNeedsFiveCommits(s: State, steps: seq<Step>, t: State, w: nat)
    requires Reachable(s) && Run(s, steps, t)
    requires w in s.calls && s.calls[w].pc.Creating? && Fail(w) !in steps
    ensures w in t.calls && t.calls[w].chunk == s.calls[w].chunk
    ensures var d := s.calls[w].chunk.name;
            && (t.calls[w].pc.GaveUp? ==>
                  && CommitCount(s, d) + 5 <= CommitCount(t, d)
                  && forall i :: CommitCount(s, d) <= i < CommitCount(t, d) ==>
                       && t.log[d][i].location in t.owner
                       && t.owner[t.log[d][i].location] != w)
            && (Terminal(t.calls[w].pc) && CommitCount(t, d) < CommitCount(s, d) + 5 ==> t.calls[w].pc.Done?)
    ensures OwnOperations(steps, w) >= 17 ==> Terminal(t.calls[w].pc)
  {
    hide Run, GuidOk, DefaultOk, SameDefault;
    ReachableInv(s);
    var d := s.calls[w].chunk.name;
    WindowKeeps(s, steps, t, w, CommitCount(s, d));
    RunKeeps(s, steps, t);
    assert SameCall(s.calls[w], t.calls[w]);
    assert CallOk(t, w);
    if t.calls[w].pc.GaveUp? {
      assert SnapshotOk(t, t.calls[w]);
      forall i | CommitCount(s, d) <= i < CommitCount(t, d)
        ensures t.log[d][i].location in t.owner && t.owner[t.log[d][i].location] != w
      {
        assert EntryOk(t, d, i);
      }
    }
    BoundedOperations(s, steps, t, w);
  }
}
