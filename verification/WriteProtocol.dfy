/** The multi-version write as a step system: any number of writers, each at its own point of
    `WriteAsync`, interleaved at the granularity of one blob operation. */
module WriteProtocol {
  import opened Types

  const MAX_VERSIONS: nat := 60
  const MAX_RETRIES: nat := 5

  type ListedMeta = Meta<seq<Version>>

  /** How a write that returns normally left the pair (hash, parent) behind. `slot` is the
      position of the recording commit in the commit log of the blob. */
  datatype How =
    | Created
    | SameAsDefault
    | SameAsListed(slot: nat)
    | Appended(slot: nat)

  datatype Pc =
    | Creating   // conditional upload of the first version
    | Reading    // properties of the existing blob, then the duplicate check
    | Uploading  // the additional version's own blob
    | Evicting   // deletes the oldest listed version
    | Swapping   // metadata update guarded by the ETag
    | Rereading  // properties again, after a mismatch
    | Done(how: How)
    | GaveUp
    | Faulted

  /** One call of `WriteAsync`: its locals and where it is. `first` is the number of commits the
      blob had when this call first read its properties (a ghost value). */
  datatype Call = Call(chunk: Chunk, pc: Pc, retry: nat, etag: nat, meta: ListedMeta,
                       list: seq<Version>, guid: Option<Name>, first: nat)

  /** `owner` remembers who generated each name, `log` every committed version of each blob in
      commit order; the program keeps neither. */
  datatype State = State(blobs: map<Name, Blob<seq<Version>>>, calls: map<nat, Call>,
                         owner: map<Name, nat>, log: map<Name, seq<Version>>)

  const EMPTY := State(map[], map[], map[], map[])

  datatype Step =
    | Begin(w: nat, chunk: Chunk)
    | Act(w: nat, guid: Name, deleteOk: bool)
    | Fail(w: nat)

  function Latest(vs: seq<Version>): (r: seq<Version>) {
    if |vs| <= MAX_VERSIONS then vs else vs[|vs| - MAX_VERSIONS..]
  }

  function NewVersion(chunk: Chunk, guid: Name): Version {
    Version(chunk.hash, chunk.parent, guid)
  }

  predicate SamePair(v: Version, chunk: Chunk) {
    v.hash == chunk.hash && v.parent == chunk.parent
  }

  /** Position of the first listed version with the chunk's pair, or the length. */
  function FirstSame(vs: seq<Version>, chunk: Chunk): (k: nat)
    ensures k <= |vs|
    ensures k < |vs| ==> SamePair(vs[k], chunk)
    ensures forall j :: 0 <= j < k ==> !SamePair(vs[j], chunk)
  {
    if vs == [] || SamePair(vs[0], chunk) then 0
    else
      var k := FirstSame(vs[1..], chunk);
      assert forall j :: 0 < j < k + 1 ==> vs[j] == vs[1..][j - 1];
      k + 1
  }

  predicate Terminal(pc: Pc) {
    pc.Done? || pc.GaveUp? || pc.Faulted?
  }

  predicate Enabled(s: State, st: Step) {
    match st
    case Begin(w, chunk) => w !in s.calls && IsTokenName(chunk.name)
    case Act(w, guid, _) =>
      && w in s.calls
      && !Terminal(s.calls[w].pc)
      // generated names are fresh
      && (s.calls[w].pc.Uploading? ==> IsGuidName(guid) && Plain(guid) && guid !in s.owner)
      && (s.calls[w].pc.Evicting? ==> s.calls[w].list != [])
    case Fail(w) =>
      // a failed delete is caught, so evicting never fails
      w in s.calls && !Terminal(s.calls[w].pc) && !s.calls[w].pc.Evicting?
  }

  function Begun(chunk: Chunk): Call {
    Call(chunk, Creating, 0, 0, Meta(0, 0, "", None), [], None, 0)
  }

  function Set(s: State, w: nat, c: Call): State {
    s.(calls := s.calls[w := c])
  }

  /** The call's list is about to be committed; too long a list is trimmed first. */
  function Route(c: Call): Call {
    c.(pc := if |c.list| > MAX_VERSIONS then Evicting else Swapping)
  }

  function DoCreate(s: State, w: nat, c: Call): State {
    if c.chunk.name in s.blobs then Set(s, w, c.(pc := Reading))
    else
      var b := Blob(0, Meta(c.chunk.hash, c.chunk.parent, c.chunk.name, None), c.chunk.buffer);
      Set(s.(blobs := s.blobs[c.chunk.name := b], log := s.log[c.chunk.name := []]), w, c.(pc := Done(Created)))
  }

  function CommitCount(s: State, n: Name): nat {
    if n in s.log then |s.log[n]| else 0
  }

  function DoRead(s: State, w: nat, c: Call): State {
    if c.chunk.name !in s.blobs then Set(s, w, c.(pc := Faulted))
    else
      var b := s.blobs[c.chunk.name];
      var list := if b.meta.versions.Some? then b.meta.versions.value else [];
      var k := FirstSame(list, c.chunk);
      if b.meta.hash == c.chunk.hash && b.meta.parent == c.chunk.parent then
        Set(s, w, c.(pc := Done(SameAsDefault)))
      else if k < |list| then
        var n := CommitCount(s, c.chunk.name);
        Set(s, w, c.(pc := Done(SameAsListed(if n < |list| then k else n - |list| + k))))
      else
        Set(s, w, c.(pc := Uploading, etag := b.etag, meta := b.meta, list := list,
                     first := CommitCount(s, c.chunk.name)))
  }

  function DoUpload(s: State, w: nat, c: Call, guid: Name): State {
    var b := Blob(0, Meta(c.chunk.hash, c.chunk.parent, guid, None), c.chunk.buffer);
    var c' := c.(guid := Some(guid), list := c.list + [NewVersion(c.chunk, guid)]);
    Set(s.(blobs := s.blobs[guid := b], owner := s.owner[guid := w]), w, Route(c'))
  }

  function DoEvict(s: State, w: nat, c: Call, deleteOk: bool): State
    requires c.list != []
  {
    var blobs := if deleteOk then s.blobs - {c.list[0].location} else s.blobs;
    Set(s.(blobs := blobs), w, Route(c.(list := c.list[1..])))
  }

  function DoSwap(s: State, w: nat, c: Call): State {
    var n := c.chunk.name;
    if n !in s.blobs || c.guid.None? then Set(s, w, c.(pc := Faulted))
    else if s.blobs[n].etag == c.etag then
      var b := Blob(c.etag + 1, c.meta.(versions := Some(c.list)), s.blobs[n].buffer);
      var log := if n in s.log then s.log[n] else [];
      Set(s.(blobs := s.blobs[n := b], log := s.log[n := log + [NewVersion(c.chunk, c.guid.value)]]),
          w, c.(pc := Done(Appended(|log|))))
    else if c.retry == MAX_RETRIES - 1 then Set(s, w, c.(pc := GaveUp))
    else Set(s, w, c.(pc := Rereading, retry := c.retry + 1))
  }

  function DoReread(s: State, w: nat, c: Call): State {
    if c.chunk.name !in s.blobs || c.guid.None? then Set(s, w, c.(pc := Faulted))
    else
      var b := s.blobs[c.chunk.name];
      // without the metadata key the list of the previous attempt stays in place
      var list := if b.meta.versions.Some? then b.meta.versions.value else c.list;
      Set(s, w, Route(c.(etag := b.etag, meta := b.meta,
                         list := list + [NewVersion(c.chunk, c.guid.value)])))
  }

  function Apply(s: State, st: Step): State
    requires Enabled(s, st)
  {
    match st
    case Begin(w, chunk) => Set(s, w, Begun(chunk))
    case Fail(w) => Set(s, w, s.calls[w].(pc := Faulted))
    case Act(w, guid, deleteOk) =>
      var c := s.calls[w];
      match c.pc
      case Creating => DoCreate(s, w, c)
      case Reading => DoRead(s, w, c)
      case Uploading => DoUpload(s, w, c, guid)
      case Evicting => DoEvict(s, w, c, deleteOk)
      case Swapping => DoSwap(s, w, c)
      case Rereading => DoReread(s, w, c)
      case _ => assert false; s
  }

  ghost predicate Run(s: State, steps: seq<Step>, t: State)
    decreases |steps|
  {
    if steps == [] then s == t
    else Enabled(s, steps[0]) && Run(Apply(s, steps[0]), steps[1..], t)
  }

  ghost predicate Reachable(s: State) {
    exists steps :: Run(EMPTY, steps, s)
  }

  lemma {:induction false} RunTwice(s: State, a: seq<Step>, t: State, b: seq<Step>, u: State)
    requires Run(s, a, t) && Run(t, b, u)
    ensures Run(s, a + b, u)
    decreases |a|
  {
    hide Enabled, Apply;
    if a == [] {
      assert a + b == b;
    } else {
      RunTwice(Apply(s, a[0]), a[1..], t, b, u);
      assert (a + b)[1..] == a[1..] + b;
    }
  }

  ghost predicate Reaches(s: State, t: State) {
    exists steps :: Run(s, steps, t)
  }

  lemma ReachesSelf(s: State)
    ensures Reaches(s, s)
  {
    RunNothing(s);
  }

  lemma RunNothing(s: State)
    ensures Run(s, [], s)
  {
  }

  lemma ReachesStep(s: State, t: State, st: Step)
    requires Reaches(s, t) && Enabled(t, st)
    ensures Reaches(s, Apply(t, st))
  {
    hide Enabled, Apply;
    var steps :| Run(s, steps, t);
    assert Run(t, [st], Apply(t, st)) by {
      assert [st][1..] == [];
      assert Run(Apply(t, st), [], Apply(t, st));
    }
    RunTwice(s, steps, t, [st], Apply(t, st));
  }

  lemma ReachesTransitive(s: State, t: State, u: State)
    requires Reaches(s, t) && Reaches(t, u)
    ensures Reaches(s, u)
  {
    var a :| Run(s, a, t);
    var b :| Run(t, b, u);
    RunTwice(s, a, t, b, u);
  }

  lemma StillReachable(s: State, steps: seq<Step>, t: State)
    requires Reachable(s) && Run(s, steps, t)
    ensures Reachable(t)
  {
    var before :| Run(EMPTY, before, s);
    RunTwice(EMPTY, before, s, steps, t);
  }

  /* ---------------------------------------------------------------------------------------- */
  /* The invariant                                                                            */
  /* ---------------------------------------------------------------------------------------- */

  /** The metadata value a log of commits leaves behind. */
  function Listed(log: seq<Version>): Option<seq<Version>> {
    if log == [] then None else Some(Latest(log))
  }

  ghost predicate DefaultOk(s: State, d: Name)
    requires d in s.log
  {
    && IsTokenName(d)
    && d in s.blobs
    && s.blobs[d].meta.location == d
    && s.blobs[d].etag == |s.log[d]|
    && s.blobs[d].meta.versions == Listed(s.log[d])
  }

  /** Position `i` of a log was committed by the one writer that generated its location. */
  ghost predicate EntryOk(s: State, d: Name, i: nat)
    requires d in s.log && i < |s.log[d]|
  {
    var v := s.log[d][i];
    && v.location in s.owner
    && s.owner[v.location] in s.calls
    && var c := s.calls[s.owner[v.location]];
    && c.pc == Done(Appended(i))
    && c.chunk.name == d
    && c.guid == Some(v.location)
    && SamePair(v, c.chunk)
  }

  /** A generated blob holds its writer's data; it is gone only once 60 commits, counting its
      own, have reached the list. */
  ghost predicate GuidOk(s: State, g: Name)
    requires g in s.owner
  {
    && IsGuidName(g)
    && s.owner[g] in s.calls
    && var c := s.calls[s.owner[g]];
    && c.guid == Some(g)
    && (g in s.blobs ==>
          s.blobs[g] == Blob(0, Meta(c.chunk.hash, c.chunk.parent, g, None), c.chunk.buffer))
    && (g !in s.blobs ==>
          && c.pc.Done? && c.pc.how.Appended?
          && c.chunk.name in s.log
          && c.pc.how.slot + MAX_VERSIONS <= |s.log[c.chunk.name]|)
  }

  ghost predicate Settled(s: State, c: Call)
    requires c.pc.Done? && c.chunk.name in s.log && c.chunk.name in s.blobs
  {
    var log := s.log[c.chunk.name];
    match c.pc.how
    case Created => s.blobs[c.chunk.name].meta.hash == c.chunk.hash &&
      s.blobs[c.chunk.name].meta.parent == c.chunk.parent
    case SameAsDefault => s.blobs[c.chunk.name].meta.hash == c.chunk.hash &&
      s.blobs[c.chunk.name].meta.parent == c.chunk.parent
    case SameAsListed(j) => j < |log| && SamePair(log[j], c.chunk)
    case Appended(j) => j < |log| && SamePair(log[j], c.chunk) && c.guid == Some(log[j].location)
  }

  /** The locals of a call past its duplicate check are those of the log at its ETag. */
  ghost predicate SnapshotOk(s: State, c: Call)
    requires c.chunk.name in s.log && c.chunk.name in s.blobs
  {
    var log := s.log[c.chunk.name];
    && c.etag <= |log|
    && c.meta == s.blobs[c.chunk.name].meta.(versions := Listed(log[..c.etag]))
    && match c.pc
       case Uploading => c.list == Latest(log[..c.etag]) && c.retry == 0 && c.first == c.etag && c.guid.None?
       case Evicting =>
         c.guid.Some? && c.list == Latest(log[..c.etag]) + [NewVersion(c.chunk, c.guid.value)] &&
           |c.list| > MAX_VERSIONS
         && c.first + c.retry <= c.etag && c.retry < MAX_RETRIES
       case Swapping =>
         c.guid.Some? && c.list == Latest(log[..c.etag] + [NewVersion(c.chunk, c.guid.value)])
         && c.first + c.retry <= c.etag && c.retry < MAX_RETRIES
       case Rereading =>
         c.guid.Some? && c.etag < |log| && c.first + c.retry <= c.etag + 1 && 0 < c.retry < MAX_RETRIES
       case GaveUp => c.first + MAX_RETRIES <= |log| && c.guid.Some?
       case _ => true
  }

  predicate PastCheck(pc: Pc) {
    pc.Uploading? || pc.Evicting? || pc.Swapping? || pc.Rereading? || pc.GaveUp?
  }

  ghost predicate CallOk(s: State, w: nat)
    requires w in s.calls
  {
    var c := s.calls[w];
    && IsTokenName(c.chunk.name)
    && (c.guid.Some? ==> c.guid.value in s.owner && s.owner[c.guid.value] == w)
    && (c.pc.Creating? || c.pc.Reading? ==> c.guid.None? && c.retry == 0)
    && (c.pc.Reading? || PastCheck(c.pc) || c.pc.Done? ==> c.chunk.name in s.log && c.chunk.name in s.blobs)
    && (PastCheck(c.pc) ==> SnapshotOk(s, c))
    && (c.pc.Done? ==> Settled(s, c))
  }

  ghost predicate Inv(s: State) {
    && (forall d :: d in s.log ==> DefaultOk(s, d))
    && (forall n :: n in s.blobs ==> n in s.log || n in s.owner)
    && (forall d, i :: d in s.log && 0 <= i < |s.log[d]| ==> EntryOk(s, d, i))
    && (forall g :: g in s.owner ==> GuidOk(s, g))
    && (forall w :: w in s.calls ==> CallOk(s, w))
  }
}
