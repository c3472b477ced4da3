/** When writes of the same pair do not overlap, no version is ever listed twice. */
module WriteDuplicates {
  import opened Types
  import opened WriteProtocol
  import opened WriteInvariant
  import opened WriteTheorems

  predicate SameWrite(a: Chunk, b: Chunk) {
    a.name == b.name && a.hash == b.hash && a.parent == b.parent
  }

  /** A run in which no write starts while another with its name and pair is still under way. */
  ghost predicate QuietRun(s: State, steps: seq<Step>, t: State)
    decreases |steps|
  {
    if steps == [] then s == t
    else
      && Enabled(s, steps[0])
      && (steps[0].Begin? ==> forall u :: u in s.calls && !Terminal(s.calls[u].pc) ==>
        !SameWrite(s.calls[u].chunk, steps[0].chunk))
      && QuietRun(Apply(s, steps[0]), steps[1..], t)
  }

  predicate DistinctPairs(vs: seq<Version>) {
    forall i, j :: 0 <= i < j < |vs| ==> vs[i].hash != vs[j].hash || vs[i].parent != vs[j].parent
  }

  /** The default version followed by the listed ones: what a reader can choose from. */
  function Candidates(b: Blob<seq<Version>>): (vs: seq<Version>)
    ensures |vs| == 1 + |ListOf(b)|
  {
    [Version(b.meta.hash, b.meta.parent, b.meta.location)] + ListOf(b)
  }

  predicate Absent(vs: seq<Version>, chunk: Chunk) {
    forall k :: 0 <= k < |vs| ==> !SamePair(vs[k], chunk)
  }

  predicate Uncommitted(pc: Pc) {
    pc.Uploading? || pc.Evicting? || pc.Swapping? || pc.Rereading?
  }

  ghost predicate NoDuplicates(s: State) {
    && (forall d :: d in s.log && d in s.blobs ==> DistinctPairs(Candidates(s.blobs[d])))
    && (forall w :: w in s.calls && Uncommitted(s.calls[w].pc) && s.calls[w].chunk.name in s.blobs ==>
          Absent(Candidates(s.blobs[s.calls[w].chunk.name]), s.calls[w].chunk))
    && (forall w, u :: w in s.calls && u in s.calls && w != u ==>
          Terminal(s.calls[w].pc) || Terminal(s.calls[u].pc) || !SameWrite(s.calls[w].chunk, s.calls[u].chunk))
  }

  /** The tail of a log after one more commit: old listed versions, then the new one. */
  lemma LatestAfterCommit(log: seq<Version>, v: Version)
    ensures var was, now := Latest(log), Latest(log + [v]);
            && 0 < |now| <= |was| + 1
            && now == was[|was| + 1 - |now|..] + [v]
  {
  }

  /** The first of `cs` is that of `bs`, the last is new, and the others are later ones of `bs`. */
  predicate Shifted(bs: seq<Version>, cs: seq<Version>, v: Version, shift: nat) {
    && 2 <= |cs| && |bs| == |cs| - 1 + shift
    && cs[0] == bs[0] && cs[|cs| - 1] == v
    && forall k :: 1 <= k < |cs| - 1 ==> cs[k] == bs[k + shift]
  }

  /** The candidates after a commit are old candidates plus the committed version. */
  lemma CommitShifts(b: Blob<seq<Version>>, c: Blob<seq<Version>>, log: seq<Version>, v: Version) returns (shift: nat)
    requires b.meta.versions == Listed(log) && c.meta == b.meta.(versions := Listed(log + [v]))
    ensures Shifted(Candidates(b), Candidates(c), v, shift)
  {
    LatestAfterCommit(log, v);
    var was, now := Latest(log), Latest(log + [v]);
    assert ListOf(b) == was && ListOf(c) == now;
    hide Latest, Listed;
    shift := |was| + 1 - |now|;
    var bs, cs := Candidates(b), Candidates(c);
    forall k | 1 <= k < |cs| - 1 ensures cs[k] == bs[k + shift] {
      assert cs[k] == now[k - 1] == was[shift..][k - 1] == was[k - 1 + shift];
    }
    assert cs[|cs| - 1] == now[|now| - 1] == v;
  }

  lemma ShiftAbsent(bs: seq<Version>, cs: seq<Version>, v: Version, shift: nat, chunk: Chunk)
    requires Shifted(bs, cs, v, shift) && Absent(bs, chunk) && !SamePair(v, chunk)
    ensures Absent(cs, chunk)
  {
    forall k | 0 <= k < |cs| ensures !SamePair(cs[k], chunk) {
      if 1 <= k < |cs| - 1 { assert !SamePair(bs[k + shift], chunk); }
    }
  }

  lemma ShiftDistinct(bs: seq<Version>, cs: seq<Version>, v: Version, shift: nat, chunk: Chunk)
    requires Shifted(bs, cs, v, shift) && Absent(bs, chunk) && SamePair(v, chunk) && DistinctPairs(bs)
    ensures DistinctPairs(cs)
  {
    forall i, j | 0 <= i < j < |cs| ensures cs[i].hash != cs[j].hash || cs[i].parent != cs[j].parent {
      var i' := if i == 0 then 0 else i + shift;
      assert cs[i] == bs[i'] && !SamePair(bs[i'], chunk);
      if j < |cs| - 1 { assert cs[j] == bs[j + shift]; }
    }
  }

  /** The blob that a commit leaves. */
  lemma Committed(s: State, w: nat)
    requires Inv(s) && w in s.calls && s.calls[w].pc.Swapping? && s.calls[w].guid.Some?
    requires s.calls[w].chunk.name in s.blobs && s.blobs[s.calls[w].chunk.name].etag == s.calls[w].etag
    ensures var c, t := s.calls[w], DoSwap(s, w, s.calls[w]);
            && c.chunk.name in s.log && c.chunk.name in t.blobs
            && s.blobs[c.chunk.name].meta.versions == Listed(s.log[c.chunk.name])
            && t.blobs[c.chunk.name].meta
               == s.blobs[c.chunk.name].meta.(
                    versions := Listed(s.log[c.chunk.name] + [NewVersion(c.chunk, c.guid.value)]))
  {
    hide GuidOk, EntryOk, Settled;
    var c := s.calls[w];
    assert CallOk(s, w) && DefaultOk(s, c.chunk.name);
    assert s.log[c.chunk.name][..c.etag] == s.log[c.chunk.name];
  }

  lemma GuidOfSwapping(s: State, w: nat)
    requires Inv(s) && w in s.calls && s.calls[w].pc.Swapping?
    ensures s.calls[w].guid.Some?
  {
    hide GuidOk, EntryOk, Settled;
    assert CallOk(s, w);
  }

  lemma QuietCommit(s: State, w: nat)
    requires Inv(s) && NoDuplicates(s) && w in s.calls && s.calls[w].pc.Swapping?
    requires s.calls[w].chunk.name in s.blobs && s.blobs[s.calls[w].chunk.name].etag == s.calls[w].etag
    ensures NoDuplicates(DoSwap(s, w, s.calls[w]))
  {
    hide Inv, Candidates, Absent, DistinctPairs, Latest, Listed, Shifted;
    GuidOfSwapping(s, w);
    Committed(s, w);
    var c := s.calls[w];
    var n := c.chunk.name;
    var t := DoSwap(s, w, c);
    var v := NewVersion(c.chunk, c.guid.value);
    var bs, cs := Candidates(s.blobs[n]), Candidates(t.blobs[n]);
    var shift := CommitShifts(s.blobs[n], t.blobs[n], s.log[n], v);
    ShiftDistinct(bs, cs, v, shift, c.chunk);
    forall u | u in t.calls && Uncommitted(t.calls[u].pc) && t.calls[u].chunk.name in t.blobs
      ensures Absent(Candidates(t.blobs[t.calls[u].chunk.name]), t.calls[u].chunk)
    {
      assert u != w && !SameWrite(s.calls[u].chunk, c.chunk);
      if s.calls[u].chunk.name == n {
        ShiftAbsent(bs, cs, v, shift, s.calls[u].chunk);
      }
    }
  }

  /** A step that leaves every blob with a commit log as it was. */
  lemma QuietMove(s: State, t: State, w: nat)
    requires Inv(s) && NoDuplicates(s) && OnlyMoves(s, t, w) && w in t.calls
    requires t.log == s.log && forall d :: d in s.log ==> d in t.blobs && d in s.blobs && t.blobs[d] == s.blobs[d]
    requires forall u :: u in s.calls ==> u in t.calls
    requires w in s.calls ==> t.calls[w].chunk == s.calls[w].chunk
    requires w in s.calls && !Terminal(t.calls[w].pc) ==> !Terminal(s.calls[w].pc)
    requires w !in s.calls ==> forall u :: u in s.calls && !Terminal(s.calls[u].pc) ==>
            !SameWrite(s.calls[u].chunk, t.calls[w].chunk)
    requires Uncommitted(t.calls[w].pc) && t.calls[w].chunk.name in t.blobs ==>
            Absent(Candidates(t.blobs[t.calls[w].chunk.name]), t.calls[w].chunk)
    ensures NoDuplicates(t)
  {
    hide GuidOk, EntryOk, SnapshotOk, Settled;
    forall u | u in t.calls && u != w && Uncommitted(t.calls[u].pc) && t.calls[u].chunk.name in t.blobs
      ensures Absent(Candidates(t.blobs[t.calls[u].chunk.name]), t.calls[u].chunk)
    {
      assert CallOk(s, u);
    }
  }

  lemma QuietCreate(s: State, w: nat)
    requires Inv(s) && NoDuplicates(s) && w in s.calls && s.calls[w].pc.Creating?
    requires s.calls[w].chunk.name !in s.blobs
    ensures NoDuplicates(DoCreate(s, w, s.calls[w]))
  {
    var c := s.calls[w];
    var t := DoCreate(s, w, c);
    assert c.chunk.name !in s.log;
    forall u | u in t.calls && Uncommitted(t.calls[u].pc) && t.calls[u].chunk.name in t.blobs
      ensures Absent(Candidates(t.blobs[t.calls[u].chunk.name]), t.calls[u].chunk)
    {
      assert CallOk(s, u);
    }
  }

  lemma QuietEvict(s: State, w: nat, deleteOk: bool)
    requires Inv(s) && NoDuplicates(s) && w in s.calls && s.calls[w].pc.Evicting? && s.calls[w].list != []
    ensures NoDuplicates(DoEvict(s, w, s.calls[w], deleteOk))
  {
    hide CallOk, GuidOk, EntryOk;
    VictimIsOld(s, w);
    QuietMove(s, DoEvict(s, w, s.calls[w], deleteOk), w);
  }

  lemma QuietUpload(s: State, w: nat, guid: Name)
    requires Inv(s) && NoDuplicates(s) && w in s.calls && s.calls[w].pc.Uploading?
    requires IsGuidName(guid) && guid !in s.owner
    ensures NoDuplicates(DoUpload(s, w, s.calls[w], guid))
  {
    hide GuidOk, EntryOk;
    assert guid in s.log ==> IsTokenName(guid);
    assert CallOk(s, w);
    QuietMove(s, DoUpload(s, w, s.calls[w], guid), w);
  }

  lemma QuietRead(s: State, w: nat)
    requires Inv(s) && NoDuplicates(s) && w in s.calls && s.calls[w].pc.Reading?
    ensures NoDuplicates(DoRead(s, w, s.calls[w]))
  {
    hide GuidOk, EntryOk, SnapshotOk, Settled;
    var c := s.calls[w];
    assert CallOk(s, w);
    var c' := DoRead(s, w, c).calls[w];
    if c'.pc.Uploading? {
      var vs := Candidates(s.blobs[c.chunk.name]);
      assert forall k :: 1 <= k < |vs| ==> vs[k] == ListOf(s.blobs[c.chunk.name])[k - 1];
      assert Absent(vs, c.chunk);
    }
    QuietLocal(s, w, c');
  }

  /** A step that changes nothing but one running call's locals. */
  lemma QuietLocal(s: State, w: nat, c: Call)
    requires Inv(s) && NoDuplicates(s) && w in s.calls && !Terminal(s.calls[w].pc) && c.chunk == s.calls[w].chunk
    requires Uncommitted(c.pc) && !Uncommitted(s.calls[w].pc) ==>
               c.chunk.name in s.blobs && Absent(Candidates(s.blobs[c.chunk.name]), c.chunk)
    ensures NoDuplicates(Set(s, w, c))
  {
    hide GuidOk, EntryOk, CallOk;
    QuietMove(s, Set(s, w, c), w);
  }

  lemma QuietAct(s: State, w: nat, guid: Name, deleteOk: bool)
    requires Inv(s) && NoDuplicates(s) && Enabled(s, Act(w, guid, deleteOk))
    ensures NoDuplicates(Apply(s, Act(w, guid, deleteOk)))
  {
    hide Inv, NoDuplicates;
    var c := s.calls[w];
    var n := c.chunk.name;
    match c.pc
    case Creating =>
      if n !in s.blobs { QuietCreate(s, w); } else { QuietLocal(s, w, c.(pc := Reading)); }
    case Reading => QuietRead(s, w);
    case Uploading => QuietUpload(s, w, guid);
    case Evicting => QuietEvict(s, w, deleteOk);
    case Swapping =>
      if n in s.blobs && s.blobs[n].etag == c.etag {
        QuietCommit(s, w);
      } else {
        QuietLocal(s, w, DoSwap(s, w, c).calls[w]);
      }
    case Rereading => QuietLocal(s, w, DoReread(s, w, c).calls[w]);
    case _ =>
  }

  lemma QuietStep(s: State, st: Step)
    requires Inv(s) && NoDuplicates(s) && Enabled(s, st)
    requires st.Begin? ==> forall u :: u in s.calls && !Terminal(s.calls[u].pc) ==>
            !SameWrite(s.calls[u].chunk, st.chunk)
    ensures NoDuplicates(Apply(s, st))
  {
    if st.Act? {
      QuietAct(s, st.w, st.guid, st.deleteOk);
    } else {
      LogsHaveBlobs(s);
      QuietMove(s, Apply(s, st), st.w);
    }
  }

  lemma {:induction false} QuietKeeps(s: State, steps: seq<Step>, t: State)
    requires Inv(s) && NoDuplicates(s) && QuietRun(s, steps, t)
    ensures Inv(t) && NoDuplicates(t)
    decreases |steps|
  {
    hide Inv, Enabled, Apply, NoDuplicates;
    if steps != [] {
      QuietStep(s, steps[0]);
      StepKeeps(s, steps[0]);
      QuietKeeps(Apply(s, steps[0]), steps[1..], t);
    }
  }

  /** When writes of the same pair never overlap, a blob's versions are pairwise distinct, even
      though a retry does not repeat the duplicate check. */
  lemma NoDuplicateVersions(steps: seq<Step>, s: State, d: Name)
    requires QuietRun(EMPTY, steps, s) && d in s.blobs && IsTokenName(d)
    ensures DistinctPairs(Candidates(s.blobs[d]))
  {
    QuietKeeps(EMPTY, steps, s);
    LogsHaveBlobs(s);
  }
}
