/** `WriteAsync` as the program runs it, against a container that other writers change between any
    two of its blob operations. The method's runs are runs of the write protocol. */
module WriteAsync {
  import opened Types
  import opened WriteProtocol
  import opened WriteInvariant
  import opened WriteTheorems
  import opened EndToEnd
  import VersionCodec
  import BlobNames

  /* ------------------------------- text and lists ------------------------------------------- */

  function TextMeta(m: Meta<seq<Version>>): Meta<string> {
    Meta(m.hash, m.parent, m.location,
         if m.versions.Some? then Some(VersionCodec.Print(m.versions.value)) else None)
  }

  function TextOf(b: Blob<seq<Version>>): Blob<string> {
    Blob(b.etag, TextMeta(b.meta), b.buffer)
  }

  /** What the storage service holds: the lists are text. */
  function Texts(blobs: map<Name, Blob<seq<Version>>>): map<Name, Blob<string>> {
    map n | n in blobs :: TextOf(blobs[n])
  }

  /* ------------------------------- the rest of the world ------------------------------------ */

  /** The steps of other writers that are possible in turn; the rest are skipped. */
  function Others(s: State, w: nat, steps: seq<Step>): State
    decreases |steps|
  {
    if steps == [] then s
    else if steps[0].w != w && Enabled(s, steps[0]) then Others(Apply(s, steps[0]), w, steps[1..])
    else Others(s, w, steps[1..])
  }

  lemma {:induction false} OthersRun(s: State, w: nat, steps: seq<Step>)
    requires w in s.calls
    ensures var t := Others(s, w, steps); Reaches(s, t) && w in t.calls && t.calls[w] == s.calls[w]
    decreases |steps|
  {
    hide Enabled, Apply;
    if steps == [] {
      assert Run(s, [], s);
    } else if steps[0].w != w && Enabled(s, steps[0]) {
      var u := Apply(s, steps[0]);
      OthersUntouched(s, steps[0], w);
      OthersRun(u, w, steps[1..]);
      assert Reaches(s, u) by {
        assert Run(s, [], s);
        ReachesStep(s, s, steps[0]);
      }
      ReachesTransitive(s, u, Others(u, w, steps[1..]));
    } else {
      OthersRun(s, w, steps[1..]);
    }
  }

  /** So every run of the others is one they can make. */
  lemma {:induction false} OthersCanRun(s: State, w: nat, steps: seq<Step>, t: State)
    requires Run(s, steps, t) && forall st :: st in steps ==> st.w != w
    ensures Others(s, w, steps) == t
    decreases |steps|
  {
    hide Enabled, Apply;
    if steps != [] {
      assert steps[0] in steps && forall st :: st in steps[1..] ==> st in steps;
      OthersCanRun(Apply(s, steps[0]), w, steps[1..], t);
    }
  }

  /** Everything outside the call: what the others do before its k-th blob operation, which of its
      operations fail with a storage error, which deletes succeed, and the two random halves of the generated name. */
  datatype Env = Env(others: nat -> seq<Step>, fails: nat -> bool, deletes: nat -> bool, part1: Hash, part2: Hash) {
    function Guid(): (g: Name)
      ensures IsGuidName(g) && Plain(g)
    {
      VersionCodec.GuidText(part1, part2)
    }
  }

  datatype Outcome =
    | Returned   // the future completes normally after a `return`
    | Conflicted // five ETag mismatches
    | Failed     // any other storage error
    | Collided   // the generated name was taken, which the protocol excludes

  datatype SetResult = SetOk | PreconditionFailed | NotFound

  /* ------------------------------- what a call does to the world ---------------------------- */

  /** The step of the call's k-th operation; a failed delete is caught. */
  function OwnStep(s: State, w: nat, env: Env, k: nat): Step
    requires w in s.calls
  {
    if env.fails(k) && !s.calls[w].pc.Evicting? then Fail(w) else Act(w, env.Guid(), env.deletes(k))
  }

  /** The k-th operation: the others first, then the call itself. */
  function Turn(s: State, w: nat, env: Env, k: nat): State {
    var u := Others(s, w, env.others(k));
    if w in u.calls && Enabled(u, OwnStep(u, w, env, k)) then Apply(u, OwnStep(u, w, env, k)) else u
  }

  /** The first n operations. */
  function Turns(s: State, w: nat, env: Env, n: nat): State {
    if n == 0 then s else Turn(Turns(s, w, env, n - 1), w, env, n - 1)
  }

  lemma TurnReaches(s: State, w: nat, env: Env, k: nat)
    requires w in s.calls
    ensures Reaches(s, Turn(s, w, env, k)) && w in Turn(s, w, env, k).calls
  {
    OthersRun(s, w, env.others(k));
    var u := Others(s, w, env.others(k));
    hide Reaches, Apply, Enabled;
    if Enabled(u, OwnStep(u, w, env, k)) {
      ReachesStep(s, u, OwnStep(u, w, env, k));
      OthersUntouched(u, OwnStep(u, w, env, k), w);
    }
  }

  lemma {:induction false} TurnsReach(s: State, w: nat, env: Env, n: nat)
    requires w in s.calls
    ensures Reaches(s, Turns(s, w, env, n)) && w in Turns(s, w, env, n).calls
  {
    hide Reaches, Turn;
    if n == 0 {
      ReachesSelf(s);
    } else {
      TurnsReach(s, w, env, n - 1);
      TurnReaches(Turns(s, w, env, n - 1), w, env, n - 1);
      ReachesTransitive(s, Turns(s, w, env, n - 1), Turns(s, w, env, n));
    }
  }

  /** What the service holds of a first version. */
  function FirstBlob(chunk: Chunk): Blob<string> {
    Blob(0, Meta(chunk.hash, chunk.parent, chunk.name, None), chunk.buffer)
  }

  /** What a write that returns has left in its blob: its pair, as the default or in the log. */
  ghost predicate Recorded(s: State, chunk: Chunk) {
    && chunk.name in s.blobs && chunk.name in s.log
    && (|| (s.blobs[chunk.name].meta.hash == chunk.hash && s.blobs[chunk.name].meta.parent == chunk.parent)
        || exists j :: 0 <= j < |s.log[chunk.name]| && SamePair(s.log[chunk.name][j], chunk))
  }

  lemma DoneIsRecorded(s: State, w: nat)
    requires Inv(s) && w in s.calls && s.calls[w].pc.Done?
    ensures Recorded(s, s.calls[w].chunk)
  {
    hide GuidOk, EntryOk, SnapshotOk, DefaultOk;
    assert CallOk(s, w) && Settled(s, s.calls[w]);
  }

  /** A call that has given up since `s` met five commits of others on its blob. */
  ghost predicate MetFiveCommits(s: State, t: State, w: nat, d: Name) {
    && CommitCount(s, d) + 5 <= CommitCount(t, d)
    && d in t.log
    && forall i :: CommitCount(s, d) <= i < CommitCount(t, d) ==>
         t.log[d][i].location in t.owner && t.owner[t.log[d][i].location] != w
  }

  ghost predicate BegunAfter(s: State, w: nat, d: Name, base: nat) {
    && base <= CommitCount(s, d)
    && (w in s.calls && s.calls[w].chunk.name == d ==> StartedAfter(s, w, base))
  }

  lemma CountGrows(s: State, st: Step, d: Name)
    requires Inv(s) && Enabled(s, st)
    ensures CommitCount(s, d) <= CommitCount(Apply(s, st), d)
  {
    StepKeeps(s, st);
    hide Inv, Apply, Enabled;
    assert d in s.log ==> SameDefault(s, Apply(s, st), d);
  }

  lemma NewCall(s: State, st: Step, w: nat)
    requires Enabled(s, st) && w !in s.calls && w in Apply(s, st).calls
    ensures Apply(s, st).calls[w].pc.Creating?
  {
    if !st.Begin? {
      OnlyItsCall(s, st);
    }
  }

  lemma OnlyItsCall(s: State, st: Step)
    requires Enabled(s, st) && !st.Begin?
    ensures Apply(s, st).calls.Keys == s.calls.Keys
  {
    hide FirstSame, Latest;
    match st
    case Fail(_) =>
    case Act(u, guid, deleteOk) =>
      match s.calls[u].pc {
        case Creating =>
        case Reading =>
        case Uploading =>
        case Evicting =>
        case Swapping =>
        case Rereading =>
        case _ =>
      }
  }

  lemma BegunAfterStep(s: State, st: Step, w: nat, d: Name, base: nat)
    requires Inv(s) && Enabled(s, st) && BegunAfter(s, w, d, base)
    ensures BegunAfter(Apply(s, st), w, d, base)
  {
    hide Inv, Apply, Enabled;
    CountGrows(s, st, d);
    if w in s.calls {
      KeepsChunk(s, st, w);
      FirstIsSetOnce(s, st, w);
    } else if w in Apply(s, st).calls {
      NewCall(s, st, w);
    }
  }

  lemma KeepsChunk(s: State, st: Step, w: nat)
    requires Inv(s) && Enabled(s, st) && w in s.calls
    ensures w in Apply(s, st).calls && Apply(s, st).calls[w].chunk == s.calls[w].chunk
  {
    StepKeeps(s, st);
    hide Inv, Apply, Enabled;
    assert SameCall(s.calls[w], Apply(s, st).calls[w]);
  }

  lemma {:induction false} BegunAfterRun(s: State, steps: seq<Step>, t: State, w: nat, d: Name, base: nat)
    requires Inv(s) && Run(s, steps, t) && BegunAfter(s, w, d, base)
    ensures Inv(t) && BegunAfter(t, w, d, base)
    decreases |steps|
  {
    hide Inv, Enabled, Apply, BegunAfter;
    if steps != [] {
      BegunAfterStep(s, steps[0], w, d, base);
      StepKeeps(s, steps[0]);
      BegunAfterRun(Apply(s, steps[0]), steps[1..], t, w, d, base);
    }
  }

  lemma GaveUpMetFive(s: State, t: State, w: nat)
    requires Inv(s) && Reaches(s, t) && w !in s.calls && w in t.calls && t.calls[w].pc.GaveUp?
    ensures MetFiveCommits(s, t, w, t.calls[w].chunk.name)
  {
    var d := t.calls[w].chunk.name;
    var steps :| Run(s, steps, t);
    hide Inv, Run;
    BegunAfterRun(s, steps, t, w, d, CommitCount(s, d));
    GaveUpFacts(t, w);
    forall i | CommitCount(s, d) <= i < CommitCount(t, d)
      ensures t.log[d][i].location in t.owner && t.owner[t.log[d][i].location] != w
    {
      CommittedByDone(t, d, i);
    }
  }

  lemma GaveUpFacts(t: State, w: nat)
    requires Inv(t) && w in t.calls && t.calls[w].pc.GaveUp?
    ensures t.calls[w].chunk.name in t.log && t.calls[w].first + 5 <= |t.log[t.calls[w].chunk.name]|
  {
    hide GuidOk, EntryOk, DefaultOk;
    assert CallOk(t, w) && SnapshotOk(t, t.calls[w]);
  }

  lemma CommittedByDone(t: State, d: Name, i: nat)
    requires Inv(t) && d in t.log && i < |t.log[d]|
    ensures var g := t.log[d][i].location;
            g in t.owner && t.owner[g] in t.calls && t.calls[t.owner[g]].pc.Done?
  {
    hide CallOk, GuidOk, DefaultOk;
    assert EntryOk(t, d, i);
  }

  class Container {
    var blobs: map<Name, Blob<string>>
    var world: State

    constructor ()
      ensures Valid() && world == EMPTY
    {
      blobs, world := map[], EMPTY;
    }

    ghost predicate Valid()
      reads this
    {
      Inv(world) && PlainNames(world) && blobs == Texts(world.blobs)
    }

    /* ----------------------------- atomic blob operations ----------------------------------- */

    /** Conditional upload: a conflict when the blob exists. */
    method UploadIfAbsent(name: Name, meta: Meta<string>, buffer: Bytes) returns (conflict: bool)
      modifies `blobs
      ensures conflict <==> name in old(blobs)
      ensures blobs == if conflict then old(blobs) else old(blobs)[name := Blob(0, meta, buffer)]
    {
      conflict := name in blobs;
      if !conflict {
        blobs := blobs[name := Blob(0, meta, buffer)];
      }
    }

    method Upload(name: Name, meta: Meta<string>, buffer: Bytes)
      modifies `blobs
      ensures blobs == old(blobs)[name := Blob(0, meta, buffer)]
    {
      blobs := blobs[name := Blob(0, meta, buffer)];
    }

    method GetProperties(name: Name) returns (r: Option<Blob<string>>)
      ensures r == if name in blobs then Some(blobs[name]) else None
    {
      r := if name in blobs then Some(blobs[name]) else None;
    }

    /** Metadata update guarded by an ETag; success gives the blob a new one. */
    method SetMetadata(name: Name, meta: Meta<string>, ifMatch: nat) returns (r: SetResult)
      modifies `blobs
      ensures r == if name !in old(blobs) then NotFound
                   else if old(blobs)[name].etag == ifMatch then SetOk else PreconditionFailed
      ensures blobs ==
              if r.SetOk? then old(blobs)[name := Blob(ifMatch + 1, meta, old(blobs)[name].buffer)] else old(blobs)
    {
      if name !in blobs {
        return NotFound;
      }
      if blobs[name].etag != ifMatch {
        return PreconditionFailed;
      }
      blobs := blobs[name := Blob(ifMatch + 1, meta, blobs[name].buffer)];
      return SetOk;
    }

    method Delete(name: Name, succeeds: bool)
      modifies `blobs
      ensures blobs == if succeeds then old(blobs) - {name} else old(blobs)
    {
      if succeeds {
        blobs := blobs - {name};
      }
    }

    /* ----------------------------- protocol bookkeeping ------------------------------------- */

    /** Other writers run for a while. */
    method Interfere(w: nat, steps: seq<Step>)
      requires Valid() && w in world.calls
      modifies this
      ensures Valid() && world == Others(old(world), w, steps)
      ensures w in world.calls && world.calls[w] == old(world.calls[w])
    {
      hide Inv, Run;
      OthersRun(world, w, steps);
      ghost var was := world;
      world := Others(world, w, steps);
      blobs := Texts(world.blobs);
      KeptByRuns(was, world);
    }

    /** The call's own step, taken in the protocol after the container has changed accordingly. */
    method Advance(st: Step)
      requires Inv(world) && PlainNames(world) && Enabled(world, st) && blobs == Texts(Apply(world, st).blobs)
      modifies `world
      ensures Valid() && world == Apply(old(world), st)
    {
      hide Enabled, Apply, Run, Inv;
      StepKeeps(world, st);
      PlainStep(world, st);
      world := Apply(world, st);
    }

    /* ----------------------------- the call ------------------------------------------------- */

    /** The call's state in the protocol. */
    ghost predicate At(w: nat, c: Call)
      reads this
    {
      w in world.calls && world.calls[w] == c
    }

    /** A blob operation that ends the call with a storage error. */
    method Throw(w: nat)
      requires Valid() && w in world.calls && !Terminal(world.calls[w].pc) && !world.calls[w].pc.Evicting?
      modifies `world
      ensures Valid() && world == Apply(old(world), Fail(w))
      ensures At(w, old(world.calls[w]).(pc := Faulted))
    {
      hide Inv, Run;
      Advance(Fail(w));
    }

    /** First version, uploaded only if the blob does not exist; `None` means conflict. */
    method TryCreate(w: nat, chunk: Chunk, env: Env) returns (out: Option<Outcome>)
      requires Valid() && At(w, Begun(chunk))
      modifies this
      ensures Valid() && world == Turn(old(world), w, env, 0)
      ensures out == Some(Returned) || out == Some(Failed) || out == None
      ensures out == Some(Failed) <==> env.fails(0)
      ensures out == Some(Returned) ==> At(w, Begun(chunk).(pc := Done(Created)))
      ensures out == Some(Failed) ==> At(w, Begun(chunk).(pc := Faulted))
      ensures out == None ==> At(w, Begun(chunk).(pc := Reading))
      ensures var there := Others(old(world), w, env.others(0)).blobs;
              !env.fails(0) && chunk.name !in there ==>
                && out == Some(Returned)
                && blobs == Texts(there)[chunk.name := FirstBlob(chunk)]
    {
      hide Inv, Run;
      Interfere(w, env.others(0));
      ghost var mid := world;
      if env.fails(0) {
        Throw(w);
        return Some(Failed);
      }
      var conflict := UploadIfAbsent(chunk.name, Meta(chunk.hash, chunk.parent, chunk.name, None), chunk.buffer);
      TextsUpdate(mid.blobs, chunk.name, Blob(0, Meta(chunk.hash, chunk.parent, chunk.name, None), chunk.buffer));
      Advance(Act(w, env.Guid(), env.deletes(0)));
      return if conflict then None else Some(Returned);
    }

    /** Properties of the existing blob and the duplicate check; `None` means a new version. */
    method CheckExisting(w: nat, chunk: Chunk, env: Env)
      returns (out: Option<Outcome>, currentETag: nat, metadata: Meta<string>, existingVersions: seq<Version>)
      requires Valid() && At(w, Begun(chunk).(pc := Reading))
      modifies this
      ensures Valid() && world == Turn(old(world), w, env, 1)
      ensures w in world.calls && world.calls[w].chunk == chunk
      ensures out == Some(Returned) || out == Some(Failed) || out == None
      ensures out == Some(Failed) <==> env.fails(1)
      ensures out == Some(Returned) ==> world.calls[w].pc.Done?
      ensures out == Some(Failed) ==> world.calls[w].pc.Faulted?
      ensures out == None ==>
                var c := world.calls[w];
                && c.pc.Uploading? && c.retry == 0 && c.guid.None?
                && c.etag == currentETag && TextMeta(c.meta) == metadata && c.list == existingVersions
    {
      hide Inv, Run;
      currentETag, metadata, existingVersions := 0, Meta(0, 0, "", None), [];
      Interfere(w, env.others(1));
      ghost var mid := world;
      if env.fails(1) {
        Throw(w);
        return Some(Failed), currentETag, metadata, existingVersions;
      }
      hide Apply, Enabled;
      var properties := GetProperties(chunk.name);
      ReadingHasBlob(mid, w);
      currentETag, metadata := properties.value.etag, properties.value.meta;
      var duplicate;
      duplicate, existingVersions := DuplicateCheck(metadata, chunk, mid.blobs[chunk.name].meta);
      ReadStep(mid, w, env.Guid(), env.deletes(1));
      Advance(Act(w, env.Guid(), env.deletes(1)));
      return if duplicate then Some(Returned) else None, currentETag, metadata, existingVersions;
    }

    /** The additional version's own blob. */
    method UploadVersion(w: nat, chunk: Chunk, env: Env, ghost c: Call) returns (out: Option<Outcome>)
      requires Valid() && At(w, c) && c.chunk == chunk && c.pc.Uploading? && c.guid.None?
      modifies this
      ensures Valid() && world == Turn(old(world), w, env, 2)
      ensures out == Some(Collided) || out == Some(Failed) || out == None
      ensures out == Some(Failed) <==> env.fails(2)
      ensures out == Some(Collided) <==> !env.fails(2) && env.Guid() in Others(old(world), w, env.others(2)).owner
      ensures w in world.calls && world.calls[w].chunk == chunk
      ensures out == Some(Failed) ==> world.calls[w].pc.Faulted?
      ensures out == Some(Collided) ==> env.Guid() in world.owner && world.owner[env.Guid()] != w
      ensures out == None ==>
              At(w, Route(c.(guid := Some(env.Guid()), list := c.list + [NewVersion(chunk, env.Guid())])))
    {
      hide Inv, Run;
      Interfere(w, env.others(2));
      ghost var mid := world;
      if env.fails(2) {
        Throw(w);
        return Some(Failed);
      }
      if env.Guid() in world.owner {
        NotItsName(world, w, env.Guid());
        return Some(Collided);
      }
      Upload(env.Guid(), Meta(chunk.hash, chunk.parent, env.Guid(), None), chunk.buffer);
      TextsUpdate(mid.blobs, env.Guid(), Blob(0, Meta(chunk.hash, chunk.parent, env.Guid(), None), chunk.buffer));
      Advance(Act(w, env.Guid(), env.deletes(2)));
      return None;
    }

    /** Deletes the oldest versions until the list fits; a failed delete is only logged. */
    method EvictOldest(w: nat, versions: seq<Version>, env: Env, k: nat, ghost c: Call, ghost first: State)
      returns (existingVersions: seq<Version>, k': nat)
      requires Valid() && At(w, Route(c)) && c.list == versions && (c.pc.Evicting? || c.pc.Swapping?)
      requires world == Turns(first, w, env, k)
      modifies this
      ensures Valid() && k <= k' && world == Turns(first, w, env, k')
      ensures At(w, c.(pc := Swapping, list := existingVersions))
      ensures existingVersions == Latest(versions)
    {
      hide Inv, Run, Texts, PlainNames, Turn, Latest, Others;
      existingVersions, k' := versions, k;
      while |existingVersions| > MAX_VERSIONS
        invariant Valid() && k <= k' && world == Turns(first, w, env, k')
        invariant At(w, Route(c.(list := existingVersions)))
        invariant |existingVersions| <= |versions| && existingVersions == versions[|versions| - |existingVersions|..]
        invariant existingVersions == versions || |existingVersions| >= MAX_VERSIONS
        decreases |existingVersions|
      {
        DeleteOldest(w, existingVersions[0], env, k', world.calls[w]);
        existingVersions := existingVersions[1..];
        k' := k' + 1;
      }
      TailIsLatest(versions, existingVersions);
    }

    method DeleteOldest(w: nat, oldestVersion: Version, env: Env, k: nat, ghost c: Call)
      requires Valid() && At(w, c) && c.pc.Evicting? && c.list != [] && c.list[0] == oldestVersion
      modifies this
      ensures Valid() && world == Turn(old(world), w, env, k)
      ensures At(w, Route(c.(list := c.list[1..])))
      ensures var there := Others(old(world), w, env.others(k)).blobs;
              blobs == if env.deletes(k) then Texts(there) - {oldestVersion.location} else Texts(there)
    {
      hide Inv, Run;
      Interfere(w, env.others(k));
      ghost var mid := world;
      Delete(oldestVersion.location, env.deletes(k));
      TextsDelete(mid.blobs, oldestVersion.location);
      Advance(Act(w, env.Guid(), env.deletes(k)));
    }

    /** Properties again before a retry; the list of the last attempt is replaced. */
    method Refetch(w: nat, chunk: Chunk, env: Env, k: nat, stale: seq<Version>, ghost c: Call)
      returns (out: Option<Outcome>, currentETag: nat, metadata: Meta<string>, existingVersions: seq<Version>)
      requires Valid() && At(w, c) && c.chunk == chunk && c.pc.Rereading? && c.guid == Some(env.Guid())
      modifies this
      ensures Valid() && world == Turn(old(world), w, env, k)
      ensures out == Some(Failed) || out == None
      ensures out == Some(Failed) <==> env.fails(k)
      ensures w in world.calls && world.calls[w].chunk == chunk
      ensures out == Some(Failed) ==> world.calls[w].pc.Faulted?
      ensures out == None ==>
                var c' := world.calls[w];
                && c' == Route(c.(etag := currentETag, meta := c'.meta,
                  list := existingVersions + [NewVersion(chunk, env.Guid())]))
                && TextMeta(c'.meta) == metadata
    {
      hide Inv, Run;
      currentETag, metadata, existingVersions := 0, Meta(0, 0, "", None), stale;
      Interfere(w, env.others(k));
      ghost var mid := world;
      if env.fails(k) {
        Throw(w);
        return Some(Failed), currentETag, metadata, existingVersions;
      }
      RereadingHasList(mid, w);
      RereadStep(mid, w, env.Guid(), env.deletes(k));
      hide Apply, Enabled;
      var properties := GetProperties(chunk.name);
      currentETag, metadata := properties.value.etag, properties.value.meta;
      if metadata.versions.Some? {
        hide VersionCodec.Parse;
        var parsed := VersionCodec.ParseAdditionalVersions(metadata.versions.value);
        existingVersions := parsed.value;
      }
      Advance(Act(w, env.Guid(), env.deletes(k)));
      return None, currentETag, metadata, existingVersions;
    }

    /** The guarded metadata update; `None` means a mismatch that may be retried. */
    method Commit(w: nat, chunk: Chunk, env: Env, k: nat, retry: nat, currentETag: nat, metadata: Meta<string>,
                  versions: seq<Version>, ghost c: Call)
      returns (out: Option<Outcome>)
      requires Valid() && At(w, c) && c.chunk == chunk && c.pc.Swapping? && c.guid == Some(env.Guid())
      requires c.retry == retry && c.etag == currentETag && TextMeta(c.meta) == metadata && c.list == versions
      modifies this
      ensures Valid() && world == Turn(old(world), w, env, k)
      ensures out == Some(Returned) || out == Some(Failed) || out == Some(Conflicted) || out == None
      ensures out == Some(Failed) <==> env.fails(k)
      ensures w in world.calls && world.calls[w].chunk == chunk
      ensures out == Some(Returned) ==> world.calls[w].pc.Done?
      ensures out == Some(Failed) ==> world.calls[w].pc.Faulted?
      ensures out == Some(Conflicted) ==> world.calls[w].pc.GaveUp?
      ensures out == None ==> c.retry != MAX_RETRIES - 1 && At(w, c.(pc := Rereading, retry := c.retry + 1))
    {
      hide Inv, Run;
      var versionsJson := VersionCodec.SerializeAdditionalVersions(versions);
      Interfere(w, env.others(k));
      ghost var mid := world;
      if env.fails(k) {
        Throw(w);
        return Some(Failed);
      }
      SwappingHasBlob(mid, w);
      ghost var b := Blob(c.etag + 1, c.meta.(versions := Some(c.list)), mid.blobs[chunk.name].buffer);
      TextsUpdate(mid.blobs, chunk.name, b);
      var r := SetMetadata(chunk.name, metadata.(versions := Some(versionsJson)), currentETag);
      Advance(Act(w, env.Guid(), env.deletes(k)));
      match r
      case SetOk => return Some(Returned);
      case NotFound => return Some(Failed);
      case PreconditionFailed => return if retry == MAX_RETRIES - 1 then Some(Conflicted) else None;
    }

    /** One pass of the retry loop: push the new version, evict, commit. */
    method Attempt(w: nat, chunk: Chunk, env: Env, k: nat, retry: nat, currentETag: nat, metadata: Meta<string>,
                   existing: seq<Version>, ghost c: Call, ghost first: State)
      returns (out: Option<Outcome>, existingVersions: seq<Version>, k': nat)
      requires Valid() && At(w, c) && c.chunk == chunk && c.guid == Some(env.Guid())
      requires c == Route(c) && c.list == existing + [NewVersion(chunk, env.Guid())]
      requires c.retry == retry && c.etag == currentETag && TextMeta(c.meta) == metadata
      requires world == Turns(first, w, env, k)
      modifies this
      ensures Valid() && k < k' && world == Turns(first, w, env, k')
      ensures out == Some(Returned) || out == Some(Failed) || out == Some(Conflicted) || out == None
      ensures out == Some(Failed) <==> env.fails(k' - 1)
      ensures w in world.calls && world.calls[w].chunk == chunk
      ensures out == Some(Returned) ==> world.calls[w].pc.Done?
      ensures out == Some(Failed) ==> world.calls[w].pc.Faulted?
      ensures out == Some(Conflicted) ==> world.calls[w].pc.GaveUp?
      ensures out == None ==>
                && c.retry != MAX_RETRIES - 1
                && At(w, c.(pc := Rereading, retry := c.retry + 1, list := existingVersions))
    {
      hide Inv, Run, Turn;
      existingVersions := existing + [NewVersion(chunk, env.Guid())];
      existingVersions, k' := EvictOldest(w, existingVersions, env, k, c, first);
      out := Commit(w, chunk, env, k', retry, currentETag, metadata, existingVersions, world.calls[w]);
      k' := k' + 1;
    }

    /** The whole call, with any steps of other writers before each of its `operations`. It moves the
        container exactly as the protocol does, fails only when an operation fails, gives up only
        after five commits of others, and a return means that the pair is recorded. */
    method WriteAsync(w: nat, tokens: seq<Token>, hash: Hash, parent: Hash, buffer: Bytes, env: Env)
      returns (out: Outcome, ghost operations: nat)
      requires Valid() && w !in world.calls
      modifies this
      ensures Valid() && Reaches(old(world), world)
      ensures var chunk := Chunk(BlobNames.BlobName(tokens), hash, parent, buffer);
              && Enabled(old(world), Begin(w, chunk))
              && world == Turns(Apply(old(world), Begin(w, chunk)), w, env, operations)
              && w in world.calls && world.calls[w].chunk == chunk
              && (out.Returned? ==> world.calls[w].pc.Done? && Recorded(world, chunk))
              && (out.Conflicted? ==> world.calls[w].pc.GaveUp? && MetFiveCommits(old(world), world, w, chunk.name))
      ensures out.Failed? ==> world.calls[w].pc.Faulted? && operations > 0 && env.fails(operations - 1)
      ensures out.Collided? ==> env.Guid() in world.owner && world.owner[env.Guid()] != w
      ensures && (forall i: nat :: !env.fails(i))
              && (env.Guid() in world.owner ==> world.owner[env.Guid()] == w)
              && (var name := BlobNames.BlobName(tokens); CommitCount(world, name) < CommitCount(old(world), name) + 5)
              ==> out == Returned
      ensures var name := BlobNames.BlobName(tokens);
              env.others(0) == [] && !env.fails(0) && name !in old(blobs) ==>
                && out == Returned
                && blobs == old(blobs)[name := Blob(0, Meta(hash, parent, name, None), buffer)]
    {
      hide Inv, Run, Turn, BlobNames.BlobName, Reaches, Recorded, MetFiveCommits;
      ghost var before := world;
      var blobName := BlobNames.EncodeTokensToBlobName(tokens);
      BlobNames.NameIsNoGuid(tokens);
      var chunk := Chunk(blobName, hash, parent, buffer);
      Advance(Begin(w, chunk));
      ghost var first := world;
      out, operations := Proceed(w, chunk, env);
      CallEnds(before, first, world, w, chunk, env, operations);
      if out.Conflicted? {
        FiveAtLeast(before, world, w, blobName);
      }
    }

    /** The call after its name is encoded. */
    method Proceed(w: nat, chunk: Chunk, env: Env) returns (out: Outcome, ghost operations: nat)
      requires Valid() && At(w, Begun(chunk))
      modifies this
      ensures Valid() && world == Turns(old(world), w, env, operations)
      ensures w in world.calls && world.calls[w].chunk == chunk
      ensures out.Returned? ==> world.calls[w].pc.Done?
      ensures out.Conflicted? ==> world.calls[w].pc.GaveUp?
      ensures out.Failed? ==> world.calls[w].pc.Faulted? && operations > 0 && env.fails(operations - 1)
      ensures out.Collided? ==> env.Guid() in world.owner && world.owner[env.Guid()] != w
      ensures env.others(0) == [] && !env.fails(0) && chunk.name !in old(world).blobs ==>
                && out == Returned
                && blobs == old(blobs)[chunk.name := FirstBlob(chunk)]
    {
      hide Inv, Run, Turn;
      ghost var first := world;
      var early := TryCreate(w, chunk, env);
      operations := 1;
      assert world == Turns(first, w, env, 1) by {
        assert Turns(first, w, env, 0) == first;
      }
      if early.Some? { return early.value, 1; }
      var currentETag, metadata, existingVersions;
      early, currentETag, metadata, existingVersions := CheckExisting(w, chunk, env);
      if early.Some? { return early.value, 2; }
      early := UploadVersion(w, chunk, env, world.calls[w]);
      if early.Some? { return early.value, 3; }
      out, operations := RetryLoop(w, chunk, env, currentETag, metadata, existingVersions, world.calls[w], first);
    }

    method RetryLoop(w: nat, chunk: Chunk, env: Env, etag: nat, meta: Meta<string>, existing: seq<Version>,
                     ghost c: Call, ghost first: State)
      returns (out: Outcome, ghost operations: nat)
      requires Valid() && At(w, c) && c.chunk == chunk && c.guid == Some(env.Guid())
      requires c == Route(c) && c.list == existing + [NewVersion(chunk, env.Guid())] && c.retry == 0
      requires c.etag == etag && TextMeta(c.meta) == meta && world == Turns(first, w, env, 3)
      modifies this
      ensures Valid() && world == Turns(first, w, env, operations)
      ensures w in world.calls && world.calls[w].chunk == chunk
      ensures out.Returned? || out.Failed? || out.Conflicted?
      ensures out.Returned? ==> world.calls[w].pc.Done?
      ensures out.Failed? ==> world.calls[w].pc.Faulted? && operations > 0 && env.fails(operations - 1)
      ensures out.Conflicted? ==> world.calls[w].pc.GaveUp?
    {
      hide Inv, Run, TextMeta, Turn;
      var currentETag, metadata, existingVersions := etag, meta, existing;
      var retry, k := 0, 3;
      while true
        invariant 0 <= retry < MAX_RETRIES && k >= 3
        invariant Valid() && world == Turns(first, w, env, k) && w in world.calls
        invariant world.calls[w].chunk == chunk && world.calls[w].guid == Some(env.Guid())
        invariant world.calls[w].retry == retry
        invariant retry == 0 ==> At(w, c) && currentETag == etag && metadata == meta && existingVersions == existing
        invariant retry > 0 ==> world.calls[w].pc.Rereading?
        decreases MAX_RETRIES - retry
      {
        var early;
        if retry > 0 {
          early, currentETag, metadata, existingVersions := Refetch(w, chunk, env, k, existingVersions, world.calls[w]);
          k := k + 1;
          if early.Some? { return early.value, k; }
        }
        early, existingVersions, k := Attempt(w, chunk, env, k, retry, currentETag, metadata, existingVersions,
                                              world.calls[w], first);
        if early.Some? { return early.value, k; }
        retry := retry + 1;
      }
    }
  }

  lemma FiveAtLeast(s: State, t: State, w: nat, d: Name)
    requires MetFiveCommits(s, t, w, d)
    ensures CommitCount(s, d) + 5 <= CommitCount(t, d)
  {
  }

  /** What the end state of a call says of its runs. */
  lemma CallEnds(before: State, first: State, t: State, w: nat, chunk: Chunk, env: Env, n: nat)
    requires Inv(before) && w !in before.calls && Enabled(before, Begin(w, chunk))
    requires first == Apply(before, Begin(w, chunk))
    requires t == Turns(first, w, env, n) && Inv(t) && w in t.calls && t.calls[w].chunk == chunk
    ensures Reaches(before, t)
    ensures t.calls[w].pc.Done? ==> Recorded(t, chunk)
    ensures t.calls[w].pc.GaveUp? ==> MetFiveCommits(before, t, w, chunk.name)
  {
    hide Inv, Turns, Reaches, Recorded, MetFiveCommits;
    ReachesSelf(before);
    ReachesStep(before, before, Begin(w, chunk));
    TurnsReach(first, w, env, n);
    ReachesTransitive(before, first, t);
    if t.calls[w].pc.Done? {
      DoneIsRecorded(t, w);
    }
    if t.calls[w].pc.GaveUp? {
      GaveUpMetFive(before, t, w);
    }
  }

  lemma NotItsName(s: State, w: nat, guid: Name)
    requires Inv(s) && w in s.calls && s.calls[w].guid.None? && guid in s.owner
    ensures s.owner[guid] != w
  {
    hide CallOk, EntryOk, DefaultOk;
    assert GuidOk(s, guid);
  }

  lemma TailIsLatest(vs: seq<Version>, tail: seq<Version>)
    requires |tail| <= |vs| && tail == vs[|vs| - |tail|..] && |tail| <= MAX_VERSIONS
    requires tail == vs || |tail| >= MAX_VERSIONS
    ensures tail == Latest(vs)
  {
  }

  lemma SwappingHasBlob(s: State, w: nat)
    requires Inv(s) && w in s.calls && s.calls[w].pc.Swapping?
    ensures s.calls[w].chunk.name in s.blobs
  {
    hide GuidOk, EntryOk, DefaultOk, SnapshotOk;
    assert CallOk(s, w);
  }

  lemma RereadingHasList(s: State, w: nat)
    requires Inv(s) && PlainNames(s) && w in s.calls && s.calls[w].pc.Rereading?
    ensures s.calls[w].chunk.name in s.blobs
    ensures var m := s.blobs[s.calls[w].chunk.name].meta;
            && m.versions.Some?
            && VersionCodec.Parse(TextMeta(m).versions.value) == Some(m.versions.value)
  {
    hide GuidOk, EntryOk;
    assert CallOk(s, w) && DefaultOk(s, s.calls[w].chunk.name);
    hide VersionCodec.Print, VersionCodec.Parse;
    TextParses(s, s.calls[w].chunk.name);
  }

  /** What the protocol's second read leaves in the call. */
  lemma RereadStep(s: State, w: nat, guid: Name, deleteOk: bool)
    requires w in s.calls && s.calls[w].pc.Rereading? && s.calls[w].guid.Some? && s.calls[w].chunk.name in s.blobs
    requires s.blobs[s.calls[w].chunk.name].meta.versions.Some?
    ensures Enabled(s, Act(w, guid, deleteOk)) && w in Apply(s, Act(w, guid, deleteOk)).calls
    ensures Apply(s, Act(w, guid, deleteOk)).blobs == s.blobs
    ensures var c, b := s.calls[w], s.blobs[s.calls[w].chunk.name];
            Apply(s, Act(w, guid, deleteOk)).calls[w]
            == Route(c.(etag := b.etag, meta := b.meta,
                        list := b.meta.versions.value + [NewVersion(c.chunk, c.guid.value)]))
  {
  }

  /** Whether the pair is the default one or listed, and the list as parsed from the metadata. */
  method DuplicateCheck(metadata: Meta<string>, chunk: Chunk, ghost m: Meta<seq<Version>>)
    returns (duplicate: bool, existingVersions: seq<Version>)
    requires metadata == TextMeta(m)
    requires m.versions.Some? ==>
               metadata.versions.value != "" && VersionCodec.Parse(metadata.versions.value) == Some(m.versions.value)
    ensures duplicate <==>
            (m.hash == chunk.hash && m.parent == chunk.parent) || FirstSame(ListIn(m), chunk) < |ListIn(m)|
    ensures !duplicate ==> existingVersions == ListIn(m)
  {
    hide VersionCodec.Parse, VersionCodec.Print;
    existingVersions := [];
    if metadata.hash == chunk.hash && metadata.parent == chunk.parent {
      return true, existingVersions;
    }
    if metadata.versions.Some? && metadata.versions.value != "" {
      var parsed := VersionCodec.ParseAdditionalVersions(metadata.versions.value);
      existingVersions := parsed.value;
      var same := FindSame(existingVersions, chunk);
      if same < |existingVersions| {
        return true, existingVersions;
      }
    }
    return false, existingVersions;
  }

  lemma ReadingHasBlob(s: State, w: nat)
    requires Inv(s) && PlainNames(s) && w in s.calls && s.calls[w].pc.Reading?
    ensures s.calls[w].chunk.name in s.blobs
    ensures var m := s.blobs[s.calls[w].chunk.name].meta;
            m.versions.Some? ==>
              && TextMeta(m).versions.value != ""
              && VersionCodec.Parse(TextMeta(m).versions.value) == Some(m.versions.value)
  {
    hide GuidOk, EntryOk, SnapshotOk, DefaultOk;
    assert CallOk(s, w);
    hide VersionCodec.Print, VersionCodec.Parse;
    TextParses(s, s.calls[w].chunk.name);
  }

  /** What the protocol's read step leaves in the call. */
  lemma ReadStep(s: State, w: nat, guid: Name, deleteOk: bool)
    requires w in s.calls && s.calls[w].pc.Reading? && s.calls[w].chunk.name in s.blobs
    ensures Enabled(s, Act(w, guid, deleteOk)) && w in Apply(s, Act(w, guid, deleteOk)).calls
    ensures var c, b := s.calls[w], s.blobs[s.calls[w].chunk.name];
            var c' := Apply(s, Act(w, guid, deleteOk)).calls[w];
            && c'.chunk == c.chunk && c'.retry == c.retry && c'.guid == c.guid
            && (c'.pc.Done? || c'.pc.Uploading?)
            && (c'.pc.Done? <==> (b.meta.hash == c.chunk.hash && b.meta.parent == c.chunk.parent)
                                 || FirstSame(ListIn(b.meta), c.chunk) < |ListIn(b.meta)|)
            && (c'.pc.Uploading? ==> c'.etag == b.etag && c'.meta == b.meta && c'.list == ListIn(b.meta))
  {
    hide FirstSame;
  }

  /** The duplicate scan of the parsed list. */
  method FindSame(vs: seq<Version>, chunk: Chunk) returns (k: nat)
    ensures k == FirstSame(vs, chunk)
  {
    k := 0;
    while k < |vs|
      invariant k <= |vs| && forall j :: 0 <= j < k ==> !SamePair(vs[j], chunk)
    {
      if SamePair(vs[k], chunk) {
        return;
      }
      k := k + 1;
    }
  }

  lemma TextsUpdate(blobs: map<Name, Blob<seq<Version>>>, n: Name, b: Blob<seq<Version>>)
    ensures Texts(blobs[n := b]) == Texts(blobs)[n := TextOf(b)]
  {
    hide TextOf;
  }

  lemma TextsDelete(blobs: map<Name, Blob<seq<Version>>>, n: Name)
    ensures Texts(blobs - {n}) == Texts(blobs) - {n}
  {
    hide TextOf;
  }

  /** The list text of a default blob parses to its list. */
  lemma TextParses(s: State, d: Name)
    requires Inv(s) && PlainNames(s)
    ensures d in s.log && d in s.blobs && s.blobs[d].meta.versions.Some? ==>
              var text := TextMeta(s.blobs[d].meta).versions.value;
              text != "" && VersionCodec.Parse(text) == Some(s.blobs[d].meta.versions.value)
  {
    if d in s.log && d in s.blobs && s.blobs[d].meta.versions.Some? {
      forall v | v in ListOf(s.blobs[d]) ensures Plain(v.location) {
        ListedIsOwned(s, d, v);
      }
      hide Inv, Plain;
      VersionCodec.RoundTrip(ListOf(s.blobs[d]));
      PrintNotEmpty(ListOf(s.blobs[d]));
    }
  }

  lemma KeptByRuns(s: State, t: State)
    requires Inv(s) && PlainNames(s) && Reaches(s, t)
    ensures Inv(t) && PlainNames(t)
  {
    var steps :| Run(s, steps, t);
    RunKeeps(s, steps, t);
    PlainKeeps(s, steps, t);
  }
}
