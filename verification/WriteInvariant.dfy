/** Every step of every writer keeps the invariant of the write protocol. */
module WriteInvariant {
  import opened Types
  import opened WriteProtocol

  /** Nothing recorded in `s` is lost or altered in `t`: logs only grow at the end, a default blob
      keeps its own version, names keep their writer and a finished call stays as it ended. */
  ghost predicate Extends(s: State, t: State) {
    && (forall d :: d in s.log ==> SameDefault(s, t, d))
    && (forall g :: g in s.owner ==> g in t.owner && t.owner[g] == s.owner[g])
    && (forall u :: u in s.calls ==> u in t.calls && SameCall(s.calls[u], t.calls[u]))
  }

  ghost predicate SameDefault(s: State, t: State, d: Name)
    requires d in s.log
  {
    && d in t.log
    && s.log[d] <= t.log[d]
    && (d in s.blobs ==>
          && d in t.blobs
          && t.blobs[d].meta.(versions := None) == s.blobs[d].meta.(versions := None)
          && t.blobs[d].buffer == s.blobs[d].buffer)
  }

  ghost predicate SameCall(c: Call, c': Call) {
    && c'.chunk == c.chunk
    && (c.guid.Some? ==> c'.guid == c.guid)
    && (Terminal(c.pc) ==> c' == c)
  }

  ghost predicate OnlyMoves(s: State, t: State, w: nat) {
    forall u :: u in t.calls && u != w ==> u in s.calls && t.calls[u] == s.calls[u]
  }

  lemma ExtendsTransitive(s: State, t: State, u: State)
    requires Extends(s, t) && Extends(t, u)
    requires forall d :: d in s.log ==> d in s.blobs
    ensures Extends(s, u)
  {
    forall d | d in s.log ensures SameDefault(s, u, d) {
      assert SameDefault(s, t, d) && SameDefault(t, u, d);
    }
    forall w | w in s.calls ensures w in u.calls && SameCall(s.calls[w], u.calls[w]) {
      assert SameCall(s.calls[w], t.calls[w]) && SameCall(t.calls[w], u.calls[w]);
    }
  }

  /* ------------------------- what one step leaves alone ------------------------------------- */

  lemma CallKeeps(s: State, t: State, u: nat)
    requires u in s.calls && u in t.calls && t.calls[u] == s.calls[u] && CallOk(s, u)
    requires s.calls[u].chunk.name in s.log ==> SameDefault(s, t, s.calls[u].chunk.name)
    requires s.calls[u].guid.Some? && s.calls[u].guid.value in s.owner ==>
               s.calls[u].guid.value in t.owner && t.owner[s.calls[u].guid.value] == s.owner[s.calls[u].guid.value]
    ensures CallOk(t, u)
  {
    var c := s.calls[u];
    if c.chunk.name in s.log && PastCheck(c.pc) {
      assert t.log[c.chunk.name][..c.etag] == s.log[c.chunk.name][..c.etag];
    }
  }

  lemma EntryKeeps(s: State, t: State, d: Name, i: nat)
    requires d in s.log && d in t.log && i < |s.log[d]| && s.log[d] <= t.log[d] && EntryOk(s, d, i)
    requires Extends(s, t)
    ensures EntryOk(t, d, i)
  {
    var u := s.owner[s.log[d][i].location];
    assert SameCall(s.calls[u], t.calls[u]);
  }

  /** A generated blob that the step leaves in place stays good. */
  lemma GuidKeeps(s: State, t: State, g: Name)
    requires g in s.owner && GuidOk(s, g) && Extends(s, t)
    requires g in s.blobs <==> g in t.blobs
    requires g in s.blobs ==> t.blobs[g] == s.blobs[g]
    ensures g in t.owner && GuidOk(t, g)
  {
    var c := s.calls[s.owner[g]];
    assert SameCall(c, t.calls[s.owner[g]]);
    if c.chunk.name in s.log {
      assert SameDefault(s, t, c.chunk.name);
    }
  }

  /** The invariant of the next state, from what one writer's step has to show. */
  lemma Assemble(s: State, t: State, w: nat)
    requires Inv(s) && Extends(s, t) && OnlyMoves(s, t, w)
    requires w in t.calls && CallOk(t, w)
    requires forall d :: d in t.log ==> DefaultOk(t, d)
    requires forall n :: n in t.blobs ==> n in t.log || n in t.owner
    requires forall g :: g in t.owner ==> GuidOk(t, g)
    requires forall d, i :: d in t.log && 0 <= i < |t.log[d]| && (d in s.log ==> |s.log[d]| <= i) ==> EntryOk(t, d, i)
    ensures Inv(t)
  {
    hide CallOk, DefaultOk, GuidOk, EntryOk;
    forall u | u in t.calls ensures CallOk(t, u) {
      if u != w {
        CallKeeps(s, t, u);
      }
    }
    forall d, i | d in t.log && 0 <= i < |t.log[d]| ensures EntryOk(t, d, i) {
      if d in s.log && i < |s.log[d]| {
        assert SameDefault(s, t, d);
        EntryKeeps(s, t, d, i);
      }
    }
  }

  /** A step that only moves one running call. */
  lemma MoveKeeps(s: State, w: nat, c: Call)
    requires Inv(s)
    requires w in s.calls ==> !Terminal(s.calls[w].pc) && c.chunk == s.calls[w].chunk && c.guid == s.calls[w].guid
    requires CallOk(Set(s, w, c), w)
    ensures Inv(Set(s, w, c)) && Extends(s, Set(s, w, c))
  {
    hide CallOk, EntryOk, GuidOk;
    var t := Set(s, w, c);
    forall g | g in t.owner ensures GuidOk(t, g) {
      GuidKeeps(s, t, g);
    }
    Assemble(s, t, w);
  }

  lemma LogsHaveBlobs(s: State)
    requires Inv(s)
    ensures forall d :: d in s.log ==> d in s.blobs && d !in s.owner
    ensures forall d :: d in s.blobs && IsTokenName(d) ==> d in s.log
  {
    hide CallOk, EntryOk;
    forall d | d in s.log ensures d in s.blobs && d !in s.owner {
      assert DefaultOk(s, d);
    }
  }

  /* ------------------------- one lemma per program point ------------------------------------ */

  lemma CreateExtends(s: State, w: nat)
    requires Inv(s) && w in s.calls && s.calls[w].pc.Creating? && s.calls[w].chunk.name !in s.blobs
    ensures Extends(s, DoCreate(s, w, s.calls[w]))
  {
    hide GuidOk, EntryOk, CallOk;
    LogsHaveBlobs(s);
  }

  lemma CreateKeeps(s: State, w: nat)
    requires Inv(s) && w in s.calls && s.calls[w].pc.Creating?
    ensures Inv(DoCreate(s, w, s.calls[w])) && Extends(s, DoCreate(s, w, s.calls[w]))
  {
    hide GuidOk, EntryOk, SnapshotOk, Extends;
    var c := s.calls[w];
    var n := c.chunk.name;
    var t := DoCreate(s, w, c);
    LogsHaveBlobs(s);
    assert CallOk(s, w);
    if n in s.blobs {
      MoveKeeps(s, w, c.(pc := Reading));
    } else {
      TokenNotOwned(s, n);
      CreateExtends(s, w);
      forall g | g in t.owner ensures GuidOk(t, g) {
        GuidKeeps(s, t, g);
      }
      forall d | d in t.log ensures DefaultOk(t, d) {
        assert d != n ==> DefaultOk(s, d);
      }
      Assemble(s, t, w);
    }
  }

  lemma TokenNotOwned(s: State, n: Name)
    requires Inv(s) && IsTokenName(n)
    ensures n !in s.owner
  {
    hide CallOk, EntryOk, DefaultOk;
  }

  lemma ReadCall(s: State, w: nat)
    requires w in s.calls && s.calls[w].pc.Reading? && CallOk(s, w) && DefaultOk(s, s.calls[w].chunk.name)
    ensures w in DoRead(s, w, s.calls[w]).calls && CallOk(DoRead(s, w, s.calls[w]), w)
  {
    var log := s.log[s.calls[w].chunk.name];
    assert log[..|log|] == log;
  }

  lemma ReadKeeps(s: State, w: nat)
    requires Inv(s) && w in s.calls && s.calls[w].pc.Reading?
    ensures Inv(DoRead(s, w, s.calls[w])) && Extends(s, DoRead(s, w, s.calls[w]))
  {
    hide GuidOk, EntryOk, SnapshotOk, DefaultOk, Settled;
    assert CallOk(s, w);
    ReadCall(s, w);
    MoveKeeps(s, w, DoRead(s, w, s.calls[w]).calls[w]);
  }

  /** Appending to a trimmed log and trimming again is trimming the appended log. */
  lemma AppendThenTrim(log: seq<Version>, v: Version)
    ensures var list := Latest(log) + [v];
            if |list| <= MAX_VERSIONS then list == Latest(log + [v])
            else list[1..] == Latest(log + [v]) && |log| >= MAX_VERSIONS && list[0] == log[|log| - MAX_VERSIONS]
  {
  }

  lemma UploadCall(s: State, w: nat, guid: Name)
    requires w in s.calls && s.calls[w].pc.Uploading? && CallOk(s, w) && DefaultOk(s, s.calls[w].chunk.name)
    requires guid !in s.log
    ensures CallOk(DoUpload(s, w, s.calls[w], guid), w)
  {
    var c := s.calls[w];
    AppendThenTrim(s.log[c.chunk.name][..c.etag], NewVersion(c.chunk, guid));
  }

  lemma UploadExtends(s: State, w: nat, guid: Name)
    requires Inv(s) && w in s.calls && s.calls[w].pc.Uploading? && CallOk(s, w)
    requires guid !in s.owner && guid !in s.log
    ensures Extends(s, DoUpload(s, w, s.calls[w], guid))
  {
    hide GuidOk, EntryOk, DefaultOk;
  }

  lemma UploadGuids(s: State, w: nat, guid: Name, g: Name)
    requires w in s.calls && s.calls[w].pc.Uploading? && IsGuidName(guid) && guid !in s.owner
    requires g in s.owner ==> GuidOk(s, g)
    requires g in s.owner || g == guid
    requires Extends(s, DoUpload(s, w, s.calls[w], guid))
    ensures GuidOk(DoUpload(s, w, s.calls[w], guid), g)
  {
    if g != guid {
      hide GuidOk;
      GuidKeeps(s, DoUpload(s, w, s.calls[w], guid), g);
    }
  }

  lemma UploadKeeps(s: State, w: nat, guid: Name)
    requires Inv(s) && w in s.calls && s.calls[w].pc.Uploading?
    requires IsGuidName(guid) && guid !in s.owner
    ensures Inv(DoUpload(s, w, s.calls[w], guid)) && Extends(s, DoUpload(s, w, s.calls[w], guid))
  {
    hide EntryOk, SnapshotOk, Settled, Extends, GuidOk;
    var t := DoUpload(s, w, s.calls[w], guid);
    assert CallOk(s, w);
    assert guid !in s.log by {
      hide CallOk;
      assert guid in s.log ==> IsTokenName(guid);
    }
    UploadCall(s, w, guid);
    UploadExtends(s, w, guid);
    forall g | g in t.owner ensures GuidOk(t, g) {
      UploadGuids(s, w, guid, g);
    }
    Assemble(s, t, w);
  }

  /** Deleting before the metadata is committed: the victim already has its 60 commits. */
  lemma VictimIsOld(s: State, w: nat)
    requires Inv(s) && w in s.calls && s.calls[w].pc.Evicting?
    ensures var c := s.calls[w];
            && c.list != [] && c.guid.Some? && c.chunk.name in s.log && MAX_VERSIONS <= c.etag <= |s.log[c.chunk.name]|
            && c.list[0] == s.log[c.chunk.name][c.etag - MAX_VERSIONS]
            && c.list[1..] == Latest(s.log[c.chunk.name][..c.etag] + [NewVersion(c.chunk, c.guid.value)])
            && c.list[0].location in s.owner
            && c.list[0].location !in s.log
            && s.owner[c.list[0].location] in s.calls
            && s.owner[c.list[0].location] != w
            && var o := s.calls[s.owner[c.list[0].location]];
            && o.pc == Done(Appended(c.etag - MAX_VERSIONS))
            && o.chunk.name == c.chunk.name
  {
    hide GuidOk, DefaultOk;
    var c := s.calls[w];
    var n := c.chunk.name;
    assert CallOk(s, w);
    AppendThenTrim(s.log[n][..c.etag], NewVersion(c.chunk, c.guid.value));
    assert EntryOk(s, n, c.etag - MAX_VERSIONS);
    LogsHaveBlobs(s);
  }

  lemma EvictCall(s: State, w: nat, deleteOk: bool)
    requires Inv(s) && w in s.calls && s.calls[w].pc.Evicting? && s.calls[w].list != []
    ensures CallOk(DoEvict(s, w, s.calls[w], deleteOk), w)
  {
    hide GuidOk, DefaultOk, EntryOk;
    VictimIsOld(s, w);
    assert CallOk(s, w);
    LogsHaveBlobs(s);
  }

  lemma EvictGuids(s: State, w: nat, deleteOk: bool, g: Name)
    requires Inv(s) && w in s.calls && s.calls[w].pc.Evicting? && s.calls[w].list != [] && g in s.owner
    requires Extends(s, DoEvict(s, w, s.calls[w], deleteOk))
    ensures GuidOk(DoEvict(s, w, s.calls[w], deleteOk), g)
  {
    hide CallOk, DefaultOk, EntryOk;
    if g == s.calls[w].list[0].location {
      VictimIsOld(s, w);
      assert GuidOk(s, g);
    } else {
      GuidKeeps(s, DoEvict(s, w, s.calls[w], deleteOk), g);
    }
  }

  lemma EvictExtends(s: State, w: nat, deleteOk: bool)
    requires Inv(s) && w in s.calls && s.calls[w].pc.Evicting? && s.calls[w].list != []
    ensures Extends(s, DoEvict(s, w, s.calls[w], deleteOk))
  {
    hide GuidOk, CallOk, EntryOk, DefaultOk;
    VictimIsOld(s, w);
  }

  lemma EvictKeeps(s: State, w: nat, deleteOk: bool)
    requires Inv(s) && w in s.calls && s.calls[w].pc.Evicting? && s.calls[w].list != []
    ensures Inv(DoEvict(s, w, s.calls[w], deleteOk)) && Extends(s, DoEvict(s, w, s.calls[w], deleteOk))
  {
    hide GuidOk, CallOk, EntryOk, Extends;
    var t := DoEvict(s, w, s.calls[w], deleteOk);
    VictimIsOld(s, w);
    EvictCall(s, w, deleteOk);
    EvictExtends(s, w, deleteOk);
    forall g | g in t.owner ensures GuidOk(t, g) {
      EvictGuids(s, w, deleteOk, g);
    }
    Assemble(s, t, w);
  }

  lemma CommitCall(s: State, w: nat)
    requires Inv(s) && w in s.calls && s.calls[w].pc.Swapping?
    requires s.calls[w].chunk.name in s.blobs && s.blobs[s.calls[w].chunk.name].etag == s.calls[w].etag
    ensures var c := s.calls[w];
            var t := DoSwap(s, w, c);
            && CallOk(t, w) && c.chunk.name in s.log && c.guid.Some?
            && t.log == s.log[c.chunk.name := s.log[c.chunk.name] + [NewVersion(c.chunk, c.guid.value)]]
            && t.owner == s.owner
            && SameDefault(s, t, c.chunk.name)
            && DefaultOk(t, c.chunk.name)
            && EntryOk(t, c.chunk.name, |s.log[c.chunk.name]|)
            && c.chunk.name !in s.owner
  {
    hide GuidOk, EntryOk;
    var c := s.calls[w];
    var n := c.chunk.name;
    assert CallOk(s, w) && DefaultOk(s, n);
    assert s.log[n][..c.etag] == s.log[n];
    TokenNotOwned(s, n);
    CommitEntry(s, w);
  }

  lemma CommitEntry(s: State, w: nat)
    requires w in s.calls && CallOk(s, w) && s.calls[w].pc.Swapping?
    requires s.calls[w].chunk.name in s.blobs && s.blobs[s.calls[w].chunk.name].etag == s.calls[w].etag
    requires s.calls[w].chunk.name in s.log
    ensures var t := DoSwap(s, w, s.calls[w]);
            && |t.log[s.calls[w].chunk.name]| == |s.log[s.calls[w].chunk.name]| + 1
            && EntryOk(t, s.calls[w].chunk.name, |s.log[s.calls[w].chunk.name]|)
  {
  }

  lemma CommitExtends(s: State, w: nat)
    requires Inv(s) && w in s.calls && s.calls[w].pc.Swapping?
    requires s.calls[w].chunk.name in s.blobs && s.blobs[s.calls[w].chunk.name].etag == s.calls[w].etag
    ensures Extends(s, DoSwap(s, w, s.calls[w]))
  {
    hide GuidOk, CallOk, EntryOk, DefaultOk;
    CommitCall(s, w);
  }

  lemma CommitKeeps(s: State, w: nat)
    requires Inv(s) && w in s.calls && s.calls[w].pc.Swapping?
    requires s.calls[w].chunk.name in s.blobs && s.blobs[s.calls[w].chunk.name].etag == s.calls[w].etag
    ensures Inv(DoSwap(s, w, s.calls[w])) && Extends(s, DoSwap(s, w, s.calls[w]))
  {
    hide GuidOk, CallOk, EntryOk, Extends;
    var n := s.calls[w].chunk.name;
    var t := DoSwap(s, w, s.calls[w]);
    CommitCall(s, w);
    CommitExtends(s, w);
    forall g | g in t.owner ensures GuidOk(t, g) {
      GuidKeeps(s, t, g);
    }
    forall d | d in t.log ensures DefaultOk(t, d) {
      assert d != n ==> DefaultOk(s, d);
    }
    Assemble(s, t, w);
  }

  lemma SwapKeeps(s: State, w: nat)
    requires Inv(s) && w in s.calls && s.calls[w].pc.Swapping?
    ensures Inv(DoSwap(s, w, s.calls[w])) && Extends(s, DoSwap(s, w, s.calls[w]))
  {
    hide GuidOk, EntryOk;
    var c := s.calls[w];
    assert CallOk(s, w) && DefaultOk(s, c.chunk.name);
    if s.blobs[c.chunk.name].etag != c.etag {
      MoveKeeps(s, w, DoSwap(s, w, c).calls[w]);
    } else {
      CommitKeeps(s, w);
    }
  }

  lemma RereadCall(s: State, w: nat)
    requires w in s.calls && s.calls[w].pc.Rereading? && CallOk(s, w) && DefaultOk(s, s.calls[w].chunk.name)
    ensures w in DoReread(s, w, s.calls[w]).calls && CallOk(DoReread(s, w, s.calls[w]), w)
  {
    var c := s.calls[w];
    var log := s.log[c.chunk.name];
    assert log[..|log|] == log;
    AppendThenTrim(log, NewVersion(c.chunk, c.guid.value));
  }

  lemma RereadKeeps(s: State, w: nat)
    requires Inv(s) && w in s.calls && s.calls[w].pc.Rereading?
    ensures Inv(DoReread(s, w, s.calls[w])) && Extends(s, DoReread(s, w, s.calls[w]))
  {
    hide GuidOk, EntryOk, SnapshotOk, DefaultOk, Settled;
    assert CallOk(s, w);
    RereadCall(s, w);
    MoveKeeps(s, w, DoReread(s, w, s.calls[w]).calls[w]);
  }

  lemma StepKeeps(s: State, st: Step)
    requires Inv(s) && Enabled(s, st)
    ensures Inv(Apply(s, st)) && Extends(s, Apply(s, st))
  {
    hide GuidOk, EntryOk, SnapshotOk, DefaultOk, Settled;
    match st
    case Begin(w, chunk) => MoveKeeps(s, w, Begun(chunk));
    case Fail(w) =>
      assert CallOk(s, w);
      MoveKeeps(s, w, s.calls[w].(pc := Faulted));
    case Act(w, guid, deleteOk) =>
      match s.calls[w].pc {
        case Creating => CreateKeeps(s, w);
        case Reading => ReadKeeps(s, w);
        case Uploading => UploadKeeps(s, w, guid);
        case Evicting => EvictKeeps(s, w, deleteOk);
        case Swapping => SwapKeeps(s, w);
        case Rereading => RereadKeeps(s, w);
        case _ =>
      }
  }

  lemma {:induction false} RunKeeps(s: State, steps: seq<Step>, t: State)
    requires Inv(s) && Run(s, steps, t)
    ensures Inv(t) && Extends(s, t)
    decreases |steps|
  {
    hide Inv, Enabled, Apply;
    if steps != [] {
      StepKeeps(s, steps[0]);
      RunKeeps(Apply(s, steps[0]), steps[1..], t);
      LogsHaveBlobs(s);
      ExtendsTransitive(s, Apply(s, steps[0]), t);
    }
  }
}
