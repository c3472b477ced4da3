/** `Lookup`: follows parent hashes block by block through default and additional versions. */
module Lookup {
  import opened Types
  import opened VersionCodec
  import BlobNames

  /** The metadata of one blob, as its properties request returned it; the text is empty when the
      `additionalversions` key is absent. */
  datatype Snapshot = Snapshot(hash: Hash, parent: Hash, additional: string)

  datatype BlockLocation = BlockLocation(hash: Hash, location: Name)

  datatype LookupResult = LookupResult(cachedBlocks: nat, lastHash: Hash, locations: seq<BlockLocation>)

  /* ------------------------------- blocks of a token sequence ------------------------------- */

  function FullBlocks(tokens: seq<Token>): nat {
    |tokens| / BLOCK_SIZE
  }

  function Names(tokens: seq<Token>): (ns: seq<Name>)
    ensures |ns| == FullBlocks(tokens)
    ensures forall i :: 0 <= i < |ns| ==> ns[i] == BlobNames.BlobName(Block(tokens, i))
  {
    seq(FullBlocks(tokens), i requires 0 <= i < FullBlocks(tokens) => BlobNames.BlobName(Block(tokens, i)))
  }

  /* ------------------------------- the choice at one block ---------------------------------- */

  datatype Choice = Picked(v: Version) | Miss | Threw

  predicate HasParent(vs: seq<Version>, expected: Hash) {
    exists k :: 0 <= k < |vs| && vs[k].parent == expected
  }

  /** The first version with the expected parent. */
  function FirstWith(vs: seq<Version>, expected: Hash): (r: Choice)
    ensures r.Miss? <==> !HasParent(vs, expected)
    ensures r.Picked? ==> r.v in vs && r.v.parent == expected
    ensures !r.Threw?
  {
    if vs == [] then Miss
    else if vs[0].parent == expected then Picked(vs[0])
    else
      var r := FirstWith(vs[1..], expected);
      assert HasParent(vs[1..], expected) ==> HasParent(vs, expected) by {
        if HasParent(vs[1..], expected) {
          var k :| 0 <= k < |vs[1..]| && vs[1..][k].parent == expected;
          assert vs[k + 1].parent == expected;
        }
      }
      assert HasParent(vs, expected) ==> HasParent(vs[1..], expected) by {
        if HasParent(vs, expected) {
          var k :| 0 <= k < |vs| && vs[k].parent == expected;
          assert vs[1..][k - 1].parent == expected;
        }
      }
      r
  }

  /** Block 0 takes the default version whatever its parent. */
  function Choose(s: Snapshot, name: Name, blockNum: nat, expected: Hash): Choice {
    if blockNum == 0 || s.parent == expected then Picked(Version(s.hash, s.parent, name))
    else if s.additional == "" then Miss
    else match Parse(s.additional)
      case None => Threw
      case Some(vs) => FirstWith(vs, expected)
  }

  /** The versions chosen from block `i` on; `None` is an exception of the list parser. */
  function Chain(names: seq<Name>, props: seq<Option<Snapshot>>, i: nat, expected: Hash): (r: Option<seq<Version>>)
    requires |names| == |props| && i <= |props|
    ensures r.Some? ==> |r.value| <= |props| - i
    decreases |props| - i
  {
    if i == |props| || props[i].None? then Some([])
    else match Choose(props[i].value, names[i], i, expected)
      case Miss => Some([])
      case Threw => None
      case Picked(v) =>
        match Chain(names, props, i + 1, v.hash)
        case None => None
        case Some(rest) => Some([v] + rest)
  }

  function Locations(vs: seq<Version>): (ls: seq<BlockLocation>)
    ensures |ls| == |vs|
    ensures forall i :: 0 <= i < |vs| ==> ls[i] == BlockLocation(vs[i].hash, vs[i].location)
  {
    seq(|vs|, i requires 0 <= i < |vs| => BlockLocation(vs[i].hash, vs[i].location))
  }

  function Report(r: Option<seq<Version>>): Option<LookupResult> {
    match r
    case None => None
    case Some(vs) => Some(LookupResult(|vs|, if vs == [] then 0 else vs[|vs| - 1].hash, Locations(vs)))
  }

  /** The count, the last hash and the locations of a result agree, within the full blocks. */
  lemma ReportAgrees(tokens: seq<Token>, props: seq<Option<Snapshot>>)
    requires |props| == FullBlocks(tokens)
    ensures var r := Report(Chain(Names(tokens), props, 0, 0));
            r.Some? ==>
              && r.value.cachedBlocks == |r.value.locations| <= |tokens| / 128
              && r.value.lastHash
                 == if r.value.locations == [] then 0 else r.value.locations[|r.value.locations| - 1].hash
  {
    hide Chain, Names;
  }

  /* ------------------------------- the loop ------------------------------------------------- */

  function Extend(vs: seq<Version>, r: Option<seq<Version>>): Option<seq<Version>> {
    if r.None? then None else Some(vs + r.value)
  }

  lemma ExtendNothing(r: Option<seq<Version>>)
    ensures Extend([], r) == r
  {
    if r.Some? {
      assert [] + r.value == r.value;
    }
  }

  lemma ExtendTwice(vs: seq<Version>, v: Version, r: Option<seq<Version>>)
    ensures Extend(vs, Extend([v], r)) == Extend(vs + [v], r)
  {
    if r.Some? {
      assert vs + ([v] + r.value) == vs + [v] + r.value;
    }
  }

  lemma LocationsAppend(vs: seq<Version>, v: Version)
    ensures Locations(vs + [v]) == Locations(vs) + [BlockLocation(v.hash, v.location)]
  {
  }

  /** The names of the full slices of 128 tokens. */
  lemma NamesOfSlices(tokens: seq<Token>)
    ensures |Names(tokens)| == |tokens| / 128
    ensures forall i :: 0 <= i < |Names(tokens)| ==>
              Names(tokens)[i] == BlobNames.BlobName(tokens[128 * i..128 * i + 128])
  {
    hide BlobNames.BlobName;
    forall i | 0 <= i < |Names(tokens)| ensures Names(tokens)[i] == BlobNames.BlobName(tokens[128 * i..128 * i + 128]) {
      assert Block(tokens, i) == tokens[128 * i..128 * i + 128];
    }
  }

  method BlockNames(tokens: seq<Token>) returns (names: seq<Name>)
    ensures names == Names(tokens)
  {
    hide BlobNames.BlobName;
    names := [];
    for i := 0 to |tokens| / BLOCK_SIZE
      invariant names == Names(tokens)[..i]
    {
      var name := BlobNames.EncodeTokensToBlobName(tokens[i * BLOCK_SIZE..(i + 1) * BLOCK_SIZE]);
      assert name == Names(tokens)[i];
      names := names + [name];
    }
  }

  /** The version one block contributes. */
  method PickVersion(s: Snapshot, name: Name, blockNum: nat, expectedParentHash: Hash) returns (r: Choice)
    ensures r == Choose(s, name, blockNum, expectedParentHash)
  {
    hide Parse, FirstWith;
    if s.additional != "" {
      if blockNum == 0 || s.parent == expectedParentHash {
        return Picked(Version(s.hash, s.parent, name));
      }
      var versions := ParseAdditionalVersions(s.additional);
      if versions.None? {
        return Threw;
      }
      r := FindParent(versions.value, expectedParentHash);
    } else {
      if blockNum > 0 && s.parent != expectedParentHash {
        return Miss;
      }
      return Picked(Version(s.hash, s.parent, name));
    }
  }

  /** `props` holds what the properties request of each full block returns, `None` when the blob
      is missing; the requests run in parallel, so each may see a different moment. */
  method Lookup(tokens: seq<Token>, props: seq<Option<Snapshot>>) returns (r: Option<LookupResult>)
    requires |props| == FullBlocks(tokens)
    ensures r == Report(Chain(Names(tokens), props, 0, 0))
  {
    hide Names, Locations, Choose;
    var numFullBlocks := |tokens| / BLOCK_SIZE;
    if numFullBlocks == 0 {
      assert Locations([]) == [];
      return Some(LookupResult(0, 0, []));
    }
    var names := BlockNames(tokens);
    var result := LookupResult(0, 0, []);
    var expectedParentHash: Hash := 0;
    ghost var chosen: seq<Version> := [];
    ghost var all := Chain(names, props, 0, 0);
    ExtendNothing(all);
    assert Locations([]) == [];
    var blockNum := 0;
    while blockNum < numFullBlocks
      invariant 0 <= blockNum <= numFullBlocks
      invariant all == Extend(chosen, Chain(names, props, blockNum, expectedParentHash))
      invariant Some(result) == Report(Some(chosen))
    {
      if props[blockNum].None? { break; }
      var choice := PickVersion(props[blockNum].value, names[blockNum], blockNum, expectedParentHash);
      if choice.Threw? { return None; }
      if choice.Miss? { break; }
      var v := choice.v;
      ExtendTwice(chosen, v, Chain(names, props, blockNum + 1, v.hash));
      LocationsAppend(chosen, v);
      result := LookupResult(result.cachedBlocks + 1, v.hash, result.locations + [BlockLocation(v.hash, v.location)]);
      chosen := chosen + [v];
      expectedParentHash := v.hash;
      blockNum := blockNum + 1;
    }
    assert chosen + [] == chosen;
    return Some(result);
  }

  /** The inner scan of the parsed list. */
  method FindParent(vs: seq<Version>, expected: Hash) returns (r: Choice)
    ensures r == FirstWith(vs, expected)
  {
    for i := 0 to |vs|
      invariant FirstWith(vs, expected) == FirstWith(vs[i..], expected)
    {
      if vs[i].parent == expected {
        return Picked(vs[i]);
      }
      assert vs[i..][1..] == vs[i + 1..];
    }
    return Miss;
  }

  /* ------------------------------- what the loop finds -------------------------------------- */

  /** All versions a block offers: the default one, then the listed ones in order. */
  function Offers(s: Snapshot, name: Name): seq<Version> {
    [Version(s.hash, s.parent, name)]
    + (if s.additional == "" then [] else match Parse(s.additional) case None => [] case Some(vs) => vs)
  }

  predicate Readable(p: Option<Snapshot>) {
    p.Some? && p.value.additional != "" ==> Parse(p.value.additional).Some?
  }

  /** A choice of one offer per block such that each names the hash of its predecessor. */
  ghost predicate Linked(names: seq<Name>, props: seq<Option<Snapshot>>, vs: seq<Version>)
    requires |names| == |props|
  {
    && |vs| <= |props|
    && (forall i :: 0 <= i < |vs| ==> props[i].Some? && vs[i] in Offers(props[i].value, names[i]))
    && (forall i :: 0 < i < |vs| ==> vs[i].parent == vs[i - 1].hash)
  }

  /** Whether block `i` can follow a block with hash `expected`. */
  ghost predicate CanFollow(names: seq<Name>, props: seq<Option<Snapshot>>, i: nat, expected: Hash)
    requires |names| == |props|
  {
    i < |props| && props[i].Some? && (i == 0 || HasParent(Offers(props[i].value, names[i]), expected))
  }

  lemma ChooseIsFirstOffer(s: Snapshot, name: Name, i: nat, expected: Hash)
    requires s.additional != "" ==> Parse(s.additional).Some?
    ensures var c := Choose(s, name, i, expected);
            && !c.Threw?
            && (i == 0 ==> c == Picked(Version(s.hash, s.parent, name)))
            && (i > 0 ==> c == FirstWith(Offers(s, name), expected))
            && (c.Picked? ==> c.v in Offers(s, name))
  {
    hide Parse;
    var os := Offers(s, name);
    assert os[0] == Version(s.hash, s.parent, name);
    if s.additional != "" {
      assert os[1..] == Parse(s.additional).value;
    } else {
      assert os[1..] == [];
    }
  }

  /** Version `vs[k - i]` is what the loop picks at block `k` after the hash chosen before it. */
  ghost predicate PickedAt(names: seq<Name>, props: seq<Option<Snapshot>>, i: nat, expected: Hash, vs: seq<Version>,
      k: nat)
    requires |names| == |props| && i <= k < i + |vs| <= |props|
  {
    && props[k].Some?
    && Choose(props[k].value, names[k], k, if k == i then expected else vs[k - i - 1].hash) == Picked(vs[k - i])
  }

  function LastHash(vs: seq<Version>, otherwise: Hash): Hash {
    if vs == [] then otherwise else vs[|vs| - 1].hash
  }

  /** The chain from block `i`, given the hash chosen before it. */
  lemma {:induction false} ChainFrom(names: seq<Name>, props: seq<Option<Snapshot>>, i: nat, expected: Hash)
    requires |names| == |props| && i <= |props| && forall p :: p in props ==> Readable(p)
    ensures Chain(names, props, i, expected).Some?
    ensures var vs := Chain(names, props, i, expected).value;
            && (forall k: nat :: i <= k < i + |vs| ==> PickedAt(names, props, i, expected, vs, k))
            && !CanFollow(names, props, i + |vs|, LastHash(vs, expected))
    decreases |props| - i
  {
    hide Parse, Choose, Offers;
    if i < |props| && props[i].Some? {
      assert Readable(props[i]);
      ChooseIsFirstOffer(props[i].value, names[i], i, expected);
      var c := Choose(props[i].value, names[i], i, expected);
      if c.Picked? {
        ChainFrom(names, props, i + 1, c.v.hash);
        var rest := Chain(names, props, i + 1, c.v.hash).value;
        var vs := [c.v] + rest;
        forall k: nat | i <= k < i + |vs| ensures PickedAt(names, props, i, expected, vs, k) {
          if k > i {
            assert PickedAt(names, props, i + 1, c.v.hash, rest, k);
          }
        }
      }
    }
  }

  /** Block 0 has its default version, a later block the first offer that follows its predecessor. */
  ghost predicate FirstFit(names: seq<Name>, props: seq<Option<Snapshot>>, vs: seq<Version>, k: nat)
    requires k < |vs| <= |props| == |names|
  {
    && props[k].Some?
    && vs[k] in Offers(props[k].value, names[k])
    && (k == 0 ==> vs[0] == Version(props[0].value.hash, props[0].value.parent, names[0]))
    && (k > 0 ==> FirstWith(Offers(props[k].value, names[k]), vs[k - 1].hash) == Picked(vs[k]))
  }

  /** The loop takes the first fitting version at every block and stops only where none fits. */
  lemma ChainIsGreedy(names: seq<Name>, props: seq<Option<Snapshot>>)
    requires |names| == |props| && forall p :: p in props ==> Readable(p)
    ensures Chain(names, props, 0, 0).Some?
    ensures var vs := Chain(names, props, 0, 0).value;
            && Linked(names, props, vs)
            && (forall k: nat :: k < |vs| ==> FirstFit(names, props, vs, k))
            && !CanFollow(names, props, |vs|, LastHash(vs, 0))
  {
    hide Parse, Choose, Offers, Chain, FirstWith;
    ChainFrom(names, props, 0, 0);
    var vs := Chain(names, props, 0, 0).value;
    forall k: nat | k < |vs| ensures FirstFit(names, props, vs, k) {
      assert PickedAt(names, props, 0, 0, vs, k);
      assert props[k] in props && Readable(props[k]);
      ChooseIsFirstOffer(props[k].value, names[k], k, if k == 0 then 0 else vs[k - 1].hash);
    }
    forall k: nat | k < |vs|
      ensures props[k].Some? && vs[k] in Offers(props[k].value, names[k]) && (k > 0 ==> vs[k].parent == vs[k - 1].hash)
    {
      assert FirstFit(names, props, vs, k);
    }
  }
}
