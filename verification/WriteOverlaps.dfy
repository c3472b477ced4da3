/** Two overlapping writes of one pair: exactly when they can list it twice. */
module WriteOverlaps {
  import opened Types
  import opened WriteProtocol
  import opened WriteTheorems
  import opened WriteDuplicates
  import opened WriteScenarios
  import BlobNames
  import VersionCodec

  /* ------------------------------- a new pair can be listed twice --------------------------- */

  lemma TwiceAtTheEnd(b: Blob<seq<Version>>, log: seq<Version>, u: Version, v: Version)
    requires b.meta.versions == Listed(log + [u] + [v]) && u.hash == v.hash && u.parent == v.parent
    ensures !DistinctPairs(Candidates(b))
  {
    var vs := Candidates(b);
    var list := ListOf(b);
    assert list == Latest(log + [u] + [v]);
    assert list[|list| - 1] == v && list[|list| - 2] == u;
    hide Latest;
    assert vs[|vs| - 1] == list[|list| - 1] && vs[|vs| - 2] == list[|list| - 2];
  }

  /** Both calls pass the check before either commits. */
  lemma BothPass(s: State, actors: map<nat, Chunk>, w1: nat, w2: nat, g1: Name, g2: Name) returns (t: State)
    requires Inv(s) && w1 != w2 && w1 !in s.calls && w2 !in s.calls && w1 in actors && w2 in actors
    requires SameWrite(actors[w1], actors[w2]) && IsTokenName(actors[w1].name)
    requires FreshName(s, g1) && FreshName(s, g2) && g1 != g2
    requires actors[w1].name in s.blobs && Absent(Candidates(s.blobs[actors[w1].name]), actors[w1])
    ensures From(s, t, actors) && w1 in t.calls && w2 in t.calls
    ensures var n := actors[w1].name;
            && n in t.blobs && t.blobs[n] == s.blobs[n] && t.log == s.log
            && Uploaded(t.calls[w1], actors[w1], g1, s.blobs[n].etag)
            && Uploaded(t.calls[w2], actors[w2], g2, s.blobs[n].etag)
  {
    SamePairs(s, actors[w2], actors[w1]);
    hide From, Inv, Absent, Candidates, Plain, SameWrite, Ready, ListOf;
    FromStart(s, actors);
    var a := Passes(s, s, actors, w1);
    var b := Passes(s, a, actors, w2);
    var c := Uploads(s, b, actors, w1, g1);
    t := Uploads(s, c, actors, w2, g2);
  }

  /** A call about to make its first attempt. */
  predicate Uploaded(c: Call, chunk: Chunk, guid: Name, etag: nat) {
    Ready(c) && c.chunk == chunk && c.guid == Some(guid) && c.etag == etag && c.retry == 0
  }

  /** The retry of the second call does not repeat the check. */
  lemma BothCommit(s: State, w1: nat, w2: nat, c1: Chunk, c2: Chunk, g1: Name, g2: Name) returns (t: State)
    requires Inv(s) && w1 != w2 && w1 !in s.calls && w2 !in s.calls && SameWrite(c1, c2) && IsTokenName(c1.name)
    requires FreshName(s, g1) && FreshName(s, g2) && g1 != g2
    requires c1.name in s.blobs && Absent(Candidates(s.blobs[c1.name]), c1)
    ensures From(s, t, map[w1 := c1, w2 := c2])
    ensures c1.name in t.blobs && !DistinctPairs(Candidates(t.blobs[c1.name]))
  {
    hide From, Inv, Absent, Candidates, DistinctPairs, Plain;
    var actors, n := map[w1 := c1, w2 := c2], c1.name;
    var d := BothPass(s, actors, w1, w2, g1, g2);
    var e := Commits(s, d, actors, w1);
    assert e.calls[w2] == d.calls[w2];
    EtagIsCount(s, d, actors, n);
    EtagIsCount(s, e, actors, n);
    var f := Retries(s, e, actors, w2);
    t := Commits(s, f, actors, w2);
    EtagIsCount(s, t, actors, n);
    TwiceAtTheEnd(t.blobs[n], d.log[n], NewVersion(c1, g1), NewVersion(c2, g2));
  }

  /* ------------------------------- a known pair cannot -------------------------------------- */

  /** The calls of `actors` have got no further than their check, which finds the pair. */
  ghost predicate Checks(s: State, actors: map<nat, Chunk>, chunk: Chunk) {
    && (chunk.name in s.blobs ==>
          DistinctPairs(Candidates(s.blobs[chunk.name])) && !Absent(Candidates(s.blobs[chunk.name]), chunk))
    && forall w :: w in actors && w in s.calls ==>
         && s.calls[w].chunk == actors[w]
         && (s.calls[w].pc.Creating? || s.calls[w].pc.Reading? || s.calls[w].pc.Done? || s.calls[w].pc.Faulted?)
         && (s.calls[w].pc.Reading? ==> chunk.name in s.blobs)
  }

  lemma CreateChecks(s: State, w: nat, actors: map<nat, Chunk>, chunk: Chunk)
    requires Checks(s, actors, chunk) && w in actors && w in s.calls && s.calls[w].pc.Creating?
    requires forall u :: u in actors ==> SameWrite(actors[u], chunk)
    ensures Checks(DoCreate(s, w, s.calls[w]), actors, chunk)
  {
    var t := DoCreate(s, w, s.calls[w]);
    if chunk.name !in s.blobs {
      assert SamePair(Candidates(t.blobs[chunk.name])[0], chunk);
    }
    hide Candidates, Absent, DistinctPairs;
  }

  lemma ReadChecks(s: State, w: nat, actors: map<nat, Chunk>, chunk: Chunk)
    requires Checks(s, actors, chunk) && w in actors && w in s.calls && s.calls[w].pc.Reading?
    requires forall u :: u in actors ==> SameWrite(actors[u], chunk)
    ensures Checks(DoRead(s, w, s.calls[w]), actors, chunk)
  {
    SamePairs(s, actors[w], chunk);
    AbsentMeansNew(s.blobs[chunk.name], actors[w]);
    hide FirstSame, Candidates, Absent, DistinctPairs;
  }

  lemma ChecksKeep(s: State, st: Step, actors: map<nat, Chunk>, chunk: Chunk)
    requires Enabled(s, st) && st.w in actors && (st.Begin? ==> st.chunk == actors[st.w]) && Checks(s, actors, chunk)
    requires forall w :: w in actors ==> SameWrite(actors[w], chunk)
    ensures Checks(Apply(s, st), actors, chunk)
  {
    hide DoCreate, DoRead, Candidates, Absent, DistinctPairs;
    if st.Act? {
      if s.calls[st.w].pc.Creating? {
        CreateChecks(s, st.w, actors, chunk);
      } else {
        ReadChecks(s, st.w, actors, chunk);
      }
    }
  }

  lemma SamePairs(s: State, c: Chunk, chunk: Chunk)
    requires SameWrite(c, chunk) && chunk.name in s.blobs
    ensures c.name == chunk.name
    ensures Absent(Candidates(s.blobs[chunk.name]), c) <==> Absent(Candidates(s.blobs[chunk.name]), chunk)
    ensures FirstSame(ListOf(s.blobs[chunk.name]), c) == FirstSame(ListOf(s.blobs[chunk.name]), chunk)
  {
    AbsentMeansNew(s.blobs[chunk.name], c);
    AbsentMeansNew(s.blobs[chunk.name], chunk);
  }

  lemma {:induction false} ChecksRun(s: State, steps: seq<Step>, t: State, actors: map<nat, Chunk>, chunk: Chunk)
    requires Run(s, steps, t) && ByOnly(steps, actors) && Checks(s, actors, chunk)
    requires forall w :: w in actors ==> SameWrite(actors[w], chunk)
    ensures Checks(t, actors, chunk)
    decreases |steps|
  {
    hide Enabled, Apply, Checks, SameWrite;
    if steps != [] {
      assert steps[0] in steps;
      ChecksKeep(s, steps[0], actors, chunk);
      assert ByOnly(steps[1..], actors);
      ChecksRun(Apply(s, steps[0]), steps[1..], t, actors, chunk);
    }
  }

  /* ------------------------------- exactly when --------------------------------------------- */

  /** The calls of `actors`, acting alone from here, can leave a pair twice among the versions. */
  ghost predicate CanDuplicate(s: State, actors: map<nat, Chunk>, n: Name) {
    exists t :: Alone(s, t, actors) && n in t.blobs && !DistinctPairs(Candidates(t.blobs[n]))
  }

  /** Two calls with the same name and pair, free to overlap, can leave a blob with a version listed
      twice if and only if the blob exists when they begin and, unless it has such a version already,
      their pair is not among its versions. */
  lemma DuplicatePossible(s: State, w1: nat, w2: nat, c1: Chunk, c2: Chunk, g1: Name, g2: Name)
    requires Reachable(s) && w1 != w2 && w1 !in s.calls && w2 !in s.calls && SameWrite(c1, c2) && IsTokenName(c1.name)
    requires FreshName(s, g1) && FreshName(s, g2) && g1 != g2
    ensures CanDuplicate(s, map[w1 := c1, w2 := c2], c1.name) <==>
              c1.name in s.blobs
              && (!DistinctPairs(Candidates(s.blobs[c1.name])) || Absent(Candidates(s.blobs[c1.name]), c1))
  {
    var actors := map[w1 := c1, w2 := c2];
    ReachableInv(s);
    hide Inv, Run, Reachable, Plain, DistinctPairs, Absent, Candidates;
    if c1.name in s.blobs && Absent(Candidates(s.blobs[c1.name]), c1) {
      var t := BothCommit(s, w1, w2, c1, c2, g1, g2);
    } else if c1.name in s.blobs && !DistinctPairs(Candidates(s.blobs[c1.name])) {
      FromStart(s, actors);
    } else {
      assert Checks(s, actors, c1);
      forall t | Alone(s, t, actors) && c1.name in t.blobs ensures DistinctPairs(Candidates(t.blobs[c1.name])) {
        var steps :| Run(s, steps, t) && ByOnly(steps, actors);
        ChecksRun(s, steps, t, actors, c1);
      }
    }
  }

  /** For instance on the blob of any tokens, once its first version is another pair. */
  lemma OverlapListsTwice(tokens: seq<Token>, first: Chunk, second: Chunk) returns (s: State)
    requires first.name == second.name == BlobNames.BlobName(tokens)
    requires first.hash != second.hash || first.parent != second.parent
    ensures Reachable(s) && second.name in s.blobs && !DistinctPairs(Candidates(s.blobs[second.name]))
  {
    hide BlobNames.BlobName, VersionCodec.GuidText, Plain;
    BlobNames.NameIsNoGuid(tokens);
    var g1, g2 := VersionCodec.GuidText(0, 0), VersionCodec.GuidText(0, 1);
    VersionCodec.SameGuid(0, 0, 0, 1);
    assert Run(EMPTY, [], EMPTY);
    ReachableInv(EMPTY);
    hide Inv, Run, Reachable, From;
    FromStart(EMPTY, map[0 := first]);
    var created := Creates(EMPTY, EMPTY, map[0 := first], 0);
    FromReachable(EMPTY, created, map[0 := first]);
    ReachableInv(created);
    AbsentMeansNew(created.blobs[second.name], second);
    s := BothCommit(created, 1, 2, second, second, g1, g2);
    FromReachable(created, s, map[1 := second, 2 := second]);
  }
}
