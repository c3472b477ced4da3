/** A container that writes bring about, and on which the lookup takes a dead end. */
module DeadEnd {
  import opened Types
  import opened WriteProtocol
  import opened WriteTheorems
  import opened WriteDuplicates
  import opened WriteScenarios
  import opened EndToEnd
  import opened Lookup
  import BlobNames
  import VersionCodec

  /** Three blocks, the middle one with two versions under the same parent. */
  function Fork(text: string): (props: seq<Option<Snapshot>>)
    ensures |props| == 3
  {
    [Some(Snapshot(1, 0, "")), Some(Snapshot(2, 1, text)), Some(Snapshot(4, 3, ""))]
  }

  lemma ForkIsLinked(names: seq<Name>, text: string, guid: Name)
    requires |names| == 3 && text != "" && VersionCodec.Parse(text) == Some([Version(3, 1, guid)])
    ensures Linked(names, Fork(text), [Version(1, 0, names[0]), Version(3, 1, guid), Version(4, 3, names[2])])
  {
    hide VersionCodec.Parse;
    var props := Fork(text);
    assert Offers(props[0].value, names[0])[0] == Version(1, 0, names[0]);
    assert Offers(props[1].value, names[1])[1] == Version(3, 1, guid);
    assert Offers(props[2].value, names[2])[0] == Version(4, 3, names[2]);
  }

  lemma ForkIsCutShort(names: seq<Name>, text: string)
    requires |names| == 3
    ensures Chain(names, Fork(text), 0, 0) == Some([Version(1, 0, names[0]), Version(2, 1, names[1])])
  {
    hide VersionCodec.Parse, FirstWith;
    assert Chain(names, Fork(text), 2, 2) == Some([]);
    var v0, v1 := Version(1, 0, names[0]), Version(2, 1, names[1]);
    assert [v1] + [] == [v1] && [v0] + [v1] == [v0, v1];
    assert Chain(names, Fork(text), 1, 1) == Some([v1]);
  }

  /* ------------------------------- tokens and names ----------------------------------------- */

  /** 0, 1, 2, ... */
  function Counting(n: nat): (ts: seq<Token>)
    ensures |ts| == n && forall i :: 0 <= i < n ==> ts[i] == i
  {
    seq(n, i => i)
  }

  lemma NamesDiffer(tokens: seq<Token>)
    requires tokens == Counting(3 * BLOCK_SIZE)
    ensures |Names(tokens)| == 3
    ensures Distinct(Names(tokens))
  {
    hide BlobNames.BlobName;
    BlobNames.SameName(Block(tokens, 0), Block(tokens, 1));
    BlobNames.SameName(Block(tokens, 0), Block(tokens, 2));
    BlobNames.SameName(Block(tokens, 1), Block(tokens, 2));
    BlobNames.NameIsNoGuid(Block(tokens, 0));
    BlobNames.NameIsNoGuid(Block(tokens, 1));
    BlobNames.NameIsNoGuid(Block(tokens, 2));
    assert Block(tokens, 0)[0] == 0 && Block(tokens, 1)[0] == 128 && Block(tokens, 2)[0] == 256;
  }

  /* ------------------------------- the writes ----------------------------------------------- */

  function Writes(names: seq<Name>): map<nat, Chunk>
    requires |names| == 3
  {
    map[0 := Chunk(names[0], 1, 0, []), 1 := Chunk(names[1], 2, 1, []),
        2 := Chunk(names[1], 3, 1, []), 3 := Chunk(names[2], 4, 3, [])]
  }

  predicate Distinct(names: seq<Name>) {
    && |names| == 3 && names[0] != names[1] && names[0] != names[2] && names[1] != names[2]
    && IsTokenName(names[0]) && IsTokenName(names[1]) && IsTokenName(names[2])
  }

  function Default(c: Chunk): Blob<seq<Version>> {
    Blob(0, Meta(c.hash, c.parent, c.name, None), c.buffer)
  }

  lemma TwoBlobs(names: seq<Name>) returns (s: State)
    requires Distinct(names)
    ensures From(EMPTY, s, Writes(names)) && s.calls.Keys == {0, 1} && s.owner == map[]
    ensures var c := Writes(names);
            && s.blobs == map[names[0] := Default(c[0]), names[1] := Default(c[1])]
            && s.log == map[names[0] := [], names[1] := []]
  {
    hide From, Inv, Begun, IsTokenName;
    var c := Writes(names);
    EmptyInv();
    FromStart(EMPTY, c);
    var a := Creates(EMPTY, EMPTY, c, 0);
    s := Creates(EMPTY, a, c, 1);
  }

  /** Three blobs with one version each. */
  lemma ThreeBlobs(names: seq<Name>) returns (s: State)
    requires Distinct(names)
    ensures From(EMPTY, s, Writes(names)) && s.calls.Keys == {0, 1, 3} && s.owner == map[]
    ensures var c := Writes(names);
            && s.blobs == map[names[0] := Default(c[0]), names[1] := Default(c[1]), names[2] := Default(c[3])]
            && s.log == map[names[0] := [], names[1] := [], names[2] := []]
  {
    hide From, Begun, IsTokenName;
    var b := TwoBlobs(names);
    s := Creates(EMPTY, b, Writes(names), 3);
  }

  lemma EmptyInv()
    ensures Inv(EMPTY) && Reachable(EMPTY)
  {
    assert Run(EMPTY, [], EMPTY);
  }

  /** The second version of the middle block. */
  lemma SecondVersion(s: State, names: seq<Name>, guid: Name) returns (t: State)
    requires Distinct(names) && Inv(s) && 2 !in s.calls && FreshName(s, guid)
    requires names[1] in s.blobs && s.blobs[names[1]] == Default(Writes(names)[1])
    requires names[1] in s.log && s.log[names[1]] == []
    ensures From(s, t, Writes(names)) && names[1] in t.blobs
    ensures t.blobs[names[1]].meta == Meta(2, 1, names[1], Some([Version(3, 1, guid)]))
    ensures forall n :: n in s.blobs && n != names[1] && IsTokenName(n) ==> n in t.blobs && t.blobs[n] == s.blobs[n]
  {
    var c, n := Writes(names), names[1];
    AbsentMeansNew(s.blobs[n], c[2]);
    hide From, Inv, Absent, Candidates, Plain;
    t := AddsVersion(s, c, 2, guid);
    MetaFollowsLog(s, t, c, n);
    assert [] + [Version(3, 1, guid)] == [Version(3, 1, guid)];
  }

  /** The answers to the lookup's requests. */
  lemma ForkIsThere(s: State, names: seq<Name>, guid: Name) returns (t: State)
    requires Distinct(names) && Reachable(s) && s.calls.Keys == {0, 1, 3} && FreshName(s, guid)
    requires var c := Writes(names);
             && s.blobs == map[names[0] := Default(c[0]), names[1] := Default(c[1]), names[2] := Default(c[3])]
             && s.log == map[names[0] := [], names[1] := [], names[2] := []]
    ensures Reachable(t)
    ensures forall i :: 0 <= i < 3 ==>
              names[i] in t.blobs
              && Fork(VersionCodec.Print([Version(3, 1, guid)]))[i] == Some(SnapshotOf(t.blobs[names[i]]))
  {
    hide From, Inv, Reachable, Plain, VersionCodec.Print;
    ReachableInv(s);
    t := SecondVersion(s, names, guid);
    FromReachable(s, t, Writes(names));
    assert t.blobs[names[0]] == s.blobs[names[0]] && t.blobs[names[2]] == s.blobs[names[2]];
  }

  /** Four writes of three consecutive blocks, after which the lookup of these tokens stops at the
      second block although a chain of three is there: of two versions with the same parent it takes
      the first, and the third block continues the other. */
  lemma GreedyCanStopShort() returns (s: State, tokens: seq<Token>, props: seq<Option<Snapshot>>, longer: seq<Version>)
    ensures Reachable(s) && |tokens| == 3 * BLOCK_SIZE && |Names(tokens)| == |props| == 3
    ensures forall i :: 0 <= i < 3 ==>
              Names(tokens)[i] in s.blobs && props[i] == Some(SnapshotOf(s.blobs[Names(tokens)[i]]))
    ensures Chain(Names(tokens), props, 0, 0).Some? && |Chain(Names(tokens), props, 0, 0).value| == 2
    ensures Linked(Names(tokens), props, longer) && |longer| == 3
  {
    hide BlobNames.BlobName, VersionCodec.GuidText, VersionCodec.Print, VersionCodec.Parse, Plain, Counting;
    hide Names, From, Inv, Reachable, Linked, Chain, Fork, SnapshotOf;
    tokens := Counting(3 * BLOCK_SIZE);
    var names, guid := Names(tokens), VersionCodec.GuidText(0, 0);
    NamesDiffer(tokens);
    var t := ThreeBlobs(names);
    EmptyInv();
    FromReachable(EMPTY, t, Writes(names));
    s := ForkIsThere(t, names, guid);
    var listed := [Version(3, 1, guid)];
    VersionCodec.RoundTrip(listed);
    PrintNotEmpty(listed);
    props := Fork(VersionCodec.Print(listed));
    longer := [Version(1, 0, names[0]), Version(3, 1, guid), Version(4, 3, names[2])];
    ForkIsLinked(names, VersionCodec.Print(listed), guid);
    ForkIsCutShort(names, VersionCodec.Print(listed));
  }
}
