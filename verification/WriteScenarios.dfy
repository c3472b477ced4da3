/** Runs in which only some calls act, and the stretches of a write that such runs are made of. */
module WriteScenarios {
  import opened Types
  import opened WriteProtocol
  import opened WriteInvariant
  import opened WriteTheorems
  import opened WriteDuplicates

  /** Only calls of `actors` act, each on its chunk. */
  ghost predicate ByOnly(steps: seq<Step>, actors: map<nat, Chunk>) {
    forall st :: st in steps ==> st.w in actors && (st.Begin? ==> st.chunk == actors[st.w])
  }

  ghost predicate Alone(s: State, t: State, actors: map<nat, Chunk>) {
    exists steps :: Run(s, steps, t) && ByOnly(steps, actors)
  }

  /** A state that calls of `actors` alone bring about, with the invariant at hand. */
  ghost predicate From(start: State, s: State, actors: map<nat, Chunk>) {
    Inv(s) && Alone(start, s, actors)
  }

  lemma FromStart(s: State, actors: map<nat, Chunk>)
    requires Inv(s)
    ensures From(s, s, actors)
  {
    hide Inv;
    RunNothing(s);
    assert ByOnly([], actors);
  }

  lemma Move(start: State, s: State, actors: map<nat, Chunk>, st: Step)
    requires From(start, s, actors) && Enabled(s, st) && st.w in actors && (st.Begin? ==> st.chunk == actors[st.w])
    ensures From(start, Apply(s, st), actors)
  {
    hide Inv, Enabled, Apply, Run;
    var steps :| Run(start, steps, s) && ByOnly(steps, actors);
    var t := Apply(s, st);
    OneStep(s, st);
    RunTwice(start, steps, s, [st], t);
    assert ByOnly(steps + [st], actors);
    StepKeeps(s, st);
  }

  lemma OneStep(s: State, st: Step)
    requires Enabled(s, st)
    ensures Run(s, [st], Apply(s, st))
  {
    hide Enabled, Apply;
    assert [st][1..] == [] && Run(Apply(s, st), [], Apply(s, st));
  }

  lemma FromReachable(start: State, s: State, actors: map<nat, Chunk>)
    requires Reachable(start) && From(start, s, actors)
    ensures Reachable(s)
  {
    hide Inv, Run, Reachable;
    var steps :| Run(start, steps, s) && ByOnly(steps, actors);
    StillReachable(start, steps, s);
  }

  lemma EtagIsCount(start: State, s: State, actors: map<nat, Chunk>, n: Name)
    requires From(start, s, actors) && n in s.blobs && IsTokenName(n)
    ensures n in s.log && s.blobs[n].etag == |s.log[n]| && s.blobs[n].meta.versions == Listed(s.log[n])
  {
    LogsHaveBlobs(s);
    hide CallOk, GuidOk, EntryOk;
    assert DefaultOk(s, n);
  }

  lemma FromExtends(start: State, s: State, actors: map<nat, Chunk>)
    requires Inv(start) && From(start, s, actors)
    ensures Extends(start, s)
  {
    hide Inv, Run, Extends;
    var steps :| Run(start, steps, s) && ByOnly(steps, actors);
    RunKeeps(start, steps, s);
  }

  ghost predicate FreshName(s: State, guid: Name) {
    IsGuidName(guid) && Plain(guid) && guid !in s.owner
  }

  /* ------------------------------- stretches of a write ------------------------------------- */

  /** The first write of a name creates its blob. */
  lemma Creates(start: State, s: State, actors: map<nat, Chunk>, w: nat) returns (t: State)
    requires From(start, s, actors) && w in actors && w !in s.calls
    requires IsTokenName(actors[w].name) && actors[w].name !in s.blobs
    ensures From(start, t, actors)
    ensures var c := actors[w];
            t == s.(blobs := s.blobs[c.name := Blob(0, Meta(c.hash, c.parent, c.name, None), c.buffer)],
                    log := s.log[c.name := []],
                    calls := s.calls[w := Begun(c).(pc := Done(Created))])
  {
    hide From;
    Move(start, s, actors, Begin(w, actors[w]));
    var u := Apply(s, Begin(w, actors[w]));
    Move(start, u, actors, Act(w, "", false));
    t := Apply(u, Act(w, "", false));
    assert s.calls[w := Begun(actors[w])][w := t.calls[w]] == s.calls[w := t.calls[w]];
  }

  lemma AbsentMeansNew(b: Blob<seq<Version>>, chunk: Chunk)
    ensures Absent(Candidates(b), chunk) <==>
              !(b.meta.hash == chunk.hash && b.meta.parent == chunk.parent)
              && FirstSame(ListOf(b), chunk) == |ListOf(b)|
  {
    var vs, list := Candidates(b), ListOf(b);
    assert forall k :: 0 <= k < |list| ==> vs[k + 1] == list[k];
    assert forall k :: 1 <= k < |vs| ==> vs[k] == list[k - 1];
    assert SamePair(vs[0], chunk) <==> b.meta.hash == chunk.hash && b.meta.parent == chunk.parent;
  }

  function Checked(s: State, chunk: Chunk): Call
    requires chunk.name in s.blobs
  {
    var b := s.blobs[chunk.name];
    Begun(chunk).(pc := Uploading, etag := b.etag, meta := b.meta, list := ListOf(b),
                  first := CommitCount(s, chunk.name))
  }

  /** A write to an existing blob comes to its read. */
  lemma Conflicts(start: State, s: State, actors: map<nat, Chunk>, w: nat) returns (t: State)
    requires From(start, s, actors) && w in actors && w !in s.calls
    requires IsTokenName(actors[w].name) && actors[w].name in s.blobs
    ensures From(start, t, actors) && t == Set(s, w, Begun(actors[w]).(pc := Reading))
  {
    hide From;
    Move(start, s, actors, Begin(w, actors[w]));
    var u := Apply(s, Begin(w, actors[w]));
    Move(start, u, actors, Act(w, "", false));
    t := Apply(u, Act(w, "", false));
    assert t.calls == s.calls[w := Begun(actors[w]).(pc := Reading)];
  }

  lemma ReadsNew(start: State, s: State, actors: map<nat, Chunk>, w: nat) returns (t: State)
    requires From(start, s, actors) && w in actors && w in s.calls && s.calls[w] == Begun(actors[w]).(pc := Reading)
    requires actors[w].name in s.blobs && Absent(Candidates(s.blobs[actors[w].name]), actors[w])
    ensures From(start, t, actors) && t == Set(s, w, Checked(s, actors[w]))
  {
    AbsentMeansNew(s.blobs[actors[w].name], actors[w]);
    hide From, FirstSame, Absent, Candidates;
    Move(start, s, actors, Act(w, "", false));
    t := Apply(s, Act(w, "", false));
  }

  /** A write of a new pair gets past its duplicate check. */
  lemma Passes(start: State, s: State, actors: map<nat, Chunk>, w: nat) returns (t: State)
    requires From(start, s, actors) && w in actors && w !in s.calls
    requires IsTokenName(actors[w].name) && actors[w].name in s.blobs
    requires Absent(Candidates(s.blobs[actors[w].name]), actors[w])
    ensures From(start, t, actors) && t == Set(s, w, Checked(s, actors[w]))
  {
    hide From, Absent, Candidates;
    var u := Conflicts(start, s, actors, w);
    t := ReadsNew(start, u, actors, w);
    assert t.calls == s.calls[w := Checked(s, actors[w])];
  }

  predicate Ready(c: Call) {
    c.pc.Evicting? || c.pc.Swapping?
  }

  /** The version's own blob is uploaded under a fresh name. */
  lemma Uploads(start: State, s: State, actors: map<nat, Chunk>, w: nat, guid: Name) returns (t: State)
    requires From(start, s, actors) && w in actors && w in s.calls && s.calls[w].pc.Uploading? && FreshName(s, guid)
    ensures From(start, t, actors) && w in t.calls && guid in t.blobs
    ensures t.blobs == s.blobs[guid := t.blobs[guid]] && t.owner == s.owner[guid := w] && t.log == s.log
    ensures t.calls == s.calls[w := t.calls[w]]
    ensures var c, d := s.calls[w], t.calls[w];
            Ready(d) && d.chunk == c.chunk && d.guid == Some(guid) && d.etag == c.etag && d.retry == c.retry
  {
    hide From;
    Move(start, s, actors, Act(w, guid, false));
    t := Apply(s, Act(w, guid, false));
  }

  /** Too long a list is cut back, here by a delete that fails. */
  lemma Trims(start: State, s: State, actors: map<nat, Chunk>, w: nat) returns (t: State)
    requires From(start, s, actors) && w in actors && w in s.calls && Ready(s.calls[w])
    ensures From(start, t, actors) && w in t.calls
    ensures t == Set(s, w, s.calls[w].(pc := Swapping, list := t.calls[w].list))
  {
    var c := s.calls[w];
    if c.pc.Swapping? {
      t := s;
      assert s.calls == s.calls[w := c];
    } else {
      VictimIsOld(s, w);
      assert |c.list[1..]| <= MAX_VERSIONS;
      hide From, Latest;
      Move(start, s, actors, Act(w, "", false));
      t := Apply(s, Act(w, "", false));
    }
  }

  lemma ReadyFacts(start: State, s: State, actors: map<nat, Chunk>, w: nat)
    requires From(start, s, actors) && w in s.calls && Ready(s.calls[w])
    ensures var c := s.calls[w];
            && c.guid.Some? && c.chunk.name in s.log && c.chunk.name in s.blobs && IsTokenName(c.chunk.name)
            && s.blobs[c.chunk.name].etag == |s.log[c.chunk.name]|
  {
    hide GuidOk, EntryOk;
    assert CallOk(s, w);
    assert DefaultOk(s, s.calls[w].chunk.name);
  }

  lemma SwapsCurrent(start: State, s: State, actors: map<nat, Chunk>, w: nat) returns (t: State)
    requires From(start, s, actors) && w in actors && w in s.calls && s.calls[w].pc.Swapping? && s.calls[w].guid.Some?
    requires s.calls[w].chunk.name in s.blobs && s.calls[w].chunk.name in s.log
    requires s.calls[w].etag == s.blobs[s.calls[w].chunk.name].etag
    ensures From(start, t, actors)
    ensures var c := s.calls[w];
            var n := c.chunk.name;
            && n in t.blobs && w in t.calls
            && t.log == s.log[n := s.log[n] + [NewVersion(c.chunk, c.guid.value)]]
            && t.owner == s.owner && t.calls == s.calls[w := t.calls[w]] && t.calls[w].pc.Done?
            && t.blobs == s.blobs[n := t.blobs[n]]
  {
    hide From;
    Move(start, s, actors, Act(w, "", false));
    t := Apply(s, Act(w, "", false));
  }

  /** With the current ETag the update is committed. */
  lemma Commits(start: State, s: State, actors: map<nat, Chunk>, w: nat) returns (t: State)
    requires From(start, s, actors) && w in actors && w in s.calls && Ready(s.calls[w])
    requires s.calls[w].chunk.name in s.blobs && s.calls[w].etag == s.blobs[s.calls[w].chunk.name].etag
    ensures From(start, t, actors)
    ensures var c := s.calls[w];
            var n := c.chunk.name;
            && c.guid.Some? && n in s.log && n in t.blobs && w in t.calls
            && t.log == s.log[n := s.log[n] + [NewVersion(c.chunk, c.guid.value)]]
            && t.owner == s.owner && t.calls == s.calls[w := t.calls[w]] && t.calls[w].pc.Done?
            && t.blobs == s.blobs[n := t.blobs[n]]
  {
    hide From, Ready;
    ReadyFacts(start, s, actors, w);
    var u := Trims(start, s, actors, w);
    t := SwapsCurrent(start, u, actors, w);
    assert t.calls == s.calls[w := t.calls[w]];
  }

  /** A write of a new pair that runs alone adds it at the end of the list. */
  lemma AddsVersion(s: State, actors: map<nat, Chunk>, w: nat, guid: Name) returns (t: State)
    requires Inv(s) && w in actors && w !in s.calls && FreshName(s, guid)
    requires IsTokenName(actors[w].name) && actors[w].name in s.blobs
    requires Absent(Candidates(s.blobs[actors[w].name]), actors[w])
    ensures From(s, t, actors)
    ensures var n := actors[w].name;
            && n in s.log && t.log == s.log[n := s.log[n] + [NewVersion(actors[w], guid)]]
            && n in t.blobs && guid in t.blobs && t.blobs == s.blobs[guid := t.blobs[guid]][n := t.blobs[n]]
  {
    hide From, Inv, Absent, Candidates, Plain, Ready;
    FromStart(s, actors);
    var a := Passes(s, s, actors, w);
    var b := Uploads(s, a, actors, w, guid);
    assert b.blobs[actors[w].name] == s.blobs[actors[w].name];
    t := Commits(s, b, actors, w);
  }

  /** Its metadata afterwards: the default version of before and the list the log says. */
  lemma MetaFollowsLog(s: State, t: State, actors: map<nat, Chunk>, n: Name)
    requires Inv(s) && From(s, t, actors) && n in s.blobs && n in t.blobs && IsTokenName(n)
    ensures n in t.log && t.blobs[n].meta == s.blobs[n].meta.(versions := Listed(t.log[n]))
  {
    EtagIsCount(s, t, actors, n);
    FromExtends(s, t, actors);
    LogsHaveBlobs(s);
    hide Inv;
    assert SameDefault(s, t, n);
  }

  lemma SwapsOld(start: State, s: State, actors: map<nat, Chunk>, w: nat) returns (t: State)
    requires From(start, s, actors) && w in actors && w in s.calls && s.calls[w].pc.Swapping? && s.calls[w].guid.Some?
    requires s.calls[w].chunk.name in s.blobs && s.calls[w].etag != s.blobs[s.calls[w].chunk.name].etag
    requires s.calls[w].retry == 0
    ensures From(start, t, actors) && t == Set(s, w, s.calls[w].(pc := Rereading, retry := 1))
  {
    hide From;
    Move(start, s, actors, Act(w, "", false));
    t := Apply(s, Act(w, "", false));
  }

  lemma Rereads(start: State, s: State, actors: map<nat, Chunk>, w: nat) returns (t: State)
    requires From(start, s, actors) && w in actors && w in s.calls && s.calls[w].pc.Rereading? && s.calls[w].guid.Some?
    requires s.calls[w].chunk.name in s.blobs
    ensures From(start, t, actors) && w in t.calls && t == Set(s, w, t.calls[w])
    ensures var c, d := s.calls[w], t.calls[w];
            && Ready(d) && d.chunk == c.chunk && d.guid == c.guid && d.etag == s.blobs[c.chunk.name].etag
  {
    hide From;
    Move(start, s, actors, Act(w, "", false));
    t := Apply(s, Act(w, "", false));
  }

  /** With an old ETag the first attempt fails and the list is read again. */
  lemma Retries(start: State, s: State, actors: map<nat, Chunk>, w: nat) returns (t: State)
    requires From(start, s, actors) && w in actors && w in s.calls && Ready(s.calls[w]) && s.calls[w].retry == 0
    requires s.calls[w].chunk.name in s.blobs && s.calls[w].etag != s.blobs[s.calls[w].chunk.name].etag
    ensures From(start, t, actors) && w in t.calls && t == Set(s, w, t.calls[w])
    ensures var c, d := s.calls[w], t.calls[w];
            && Ready(d) && d.chunk == c.chunk && d.guid == c.guid && d.etag == s.blobs[c.chunk.name].etag
  {
    hide From, Ready;
    ReadyFacts(start, s, actors, w);
    var u := Trims(start, s, actors, w);
    var v := SwapsOld(start, u, actors, w);
    t := Rereads(start, v, actors, w);
    assert t.calls == s.calls[w := t.calls[w]];
  }
}
