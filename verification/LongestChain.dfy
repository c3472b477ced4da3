/** When the lookup's greedy choice finds the longest chain there is. */
module LongestChain {
  import opened Types
  import opened Lookup

  /** No linked choice of versions reaches further. */
  ghost predicate Longest(names: seq<Name>, props: seq<Option<Snapshot>>, vs: seq<Version>)
    requires |names| == |props|
  {
    forall us :: Linked(names, props, us) ==> |us| <= |vs|
  }

  /** The hashes in which linked choices for the first n blocks end. */
  function Ends(names: seq<Name>, props: seq<Option<Snapshot>>, n: nat): set<Hash>
    requires n <= |names| == |props|
  {
    if n == 0 || props[n - 1].None? then {}
    else
      set v | v in Offers(props[n - 1].value, names[n - 1]) && (n == 1 || v.parent in Ends(names, props, n - 1))
        :: v.hash
  }

  lemma {:induction false} LinkedEnds(names: seq<Name>, props: seq<Option<Snapshot>>, us: seq<Version>)
    requires |names| == |props| && Linked(names, props, us) && us != []
    ensures us[|us| - 1].hash in Ends(names, props, |us|)
    decreases |us|
  {
    hide Offers;
    var n := |us|;
    if n > 1 {
      assert Linked(names, props, us[..n - 1]);
      LinkedEnds(names, props, us[..n - 1]);
    }
    assert us[n - 1] in Offers(props[n - 1].value, names[n - 1]);
  }

  lemma {:induction false} EndsAreLinked(names: seq<Name>, props: seq<Option<Snapshot>>, n: nat, h: Hash)
    returns (us: seq<Version>)
    requires 0 < n <= |names| == |props| && h in Ends(names, props, n)
    ensures Linked(names, props, us) && |us| == n && us[n - 1].hash == h
    decreases n
  {
    hide Offers;
    var v :| v in Offers(props[n - 1].value, names[n - 1])
             && (n == 1 || v.parent in Ends(names, props, n - 1)) && v.hash == h;
    if n == 1 {
      us := [v];
    } else {
      var front := EndsAreLinked(names, props, n - 1, v.parent);
      us := front + [v];
    }
  }

  /** Some linked choice for the first n blocks can be continued by block n. */
  ghost predicate Continues(names: seq<Name>, props: seq<Option<Snapshot>>, n: nat)
    requires |names| == |props|
  {
    && n < |props| && props[n].Some?
    && exists v :: v in Offers(props[n].value, names[n]) && (n == 0 || v.parent in Ends(names, props, n))
  }

  lemma ContinuedIsLinked(names: seq<Name>, props: seq<Option<Snapshot>>, n: nat) returns (us: seq<Version>)
    requires |names| == |props| && Continues(names, props, n)
    ensures Linked(names, props, us) && |us| == n + 1
  {
    hide Offers, Ends;
    var v :| v in Offers(props[n].value, names[n]) && (n == 0 || v.parent in Ends(names, props, n));
    if n == 0 {
      us := [v];
    } else {
      var front := EndsAreLinked(names, props, n, v.parent);
      us := front + [v];
    }
  }

  lemma LongerContinues(names: seq<Name>, props: seq<Option<Snapshot>>, us: seq<Version>, n: nat)
    requires |names| == |props| && Linked(names, props, us) && n < |us|
    ensures Continues(names, props, n)
  {
    hide Offers, Ends;
    if n > 0 {
      assert Linked(names, props, us[..n]);
      LinkedEnds(names, props, us[..n]);
    }
    assert us[n] in Offers(props[n].value, names[n]);
  }

  /** For every answer of the store: the greedy chain is the longest one if and only if the block at
      which it stops continues no linked choice for the blocks before. */
  lemma LongestExactly(names: seq<Name>, props: seq<Option<Snapshot>>)
    requires |names| == |props| && forall p :: p in props ==> Readable(p)
    ensures Chain(names, props, 0, 0).Some?
    ensures var vs := Chain(names, props, 0, 0).value;
            Longest(names, props, vs) <==> !Continues(names, props, |vs|)
  {
    hide Chain, Offers, Ends, Linked, Continues, Readable;
    ChainIsGreedy(names, props);
    var n := |Chain(names, props, 0, 0).value|;
    if Continues(names, props, n) {
      var us := ContinuedIsLinked(names, props, n);
    } else {
      forall us | Linked(names, props, us) ensures |us| <= n {
        if |us| > n {
          LongerContinues(names, props, us, n);
        }
      }
    }
  }

  /* ------------------------------- whatever block follows ----------------------------------- */

  /** One block of the chain, when its properties are there and readable. */
  lemma ChainStep(names: seq<Name>, props: seq<Option<Snapshot>>, i: nat, expected: Hash)
    requires i < |names| == |props| && props[i].Some? && Readable(props[i])
    ensures var c := Choose(props[i].value, names[i], i, expected);
            && !c.Threw?
            && (c.Miss? ==> Chain(names, props, i, expected) == Some([]))
            && (c.Picked? ==>
                  Chain(names, props, i, expected) == Prefixed(c.v, Chain(names, props, i + 1, c.v.hash)))
  {
    ChooseIsFirstOffer(props[i].value, names[i], i, expected);
    hide Choose, Offers;
  }

  function Prefixed(v: Version, r: Option<seq<Version>>): Option<seq<Version>> {
    if r.None? then None else Some([v] + r.value)
  }

  lemma ChainStops(names: seq<Name>, props: seq<Option<Snapshot>>, i: nat, expected: Hash)
    requires i <= |names| == |props| && (i == |props| || props[i].None?)
    ensures Chain(names, props, i, expected) == Some([])
  {
  }

  lemma {:induction false} ChainOfMore(names: seq<Name>, props: seq<Option<Snapshot>>, name: Name, p: Option<Snapshot>,
                                       i: nat, expected: Hash)
    requires i <= |names| == |props| && Readable(p) && forall q :: q in props ==> Readable(q)
    ensures Chain(names, props, i, expected).Some? && Chain(names + [name], props + [p], i, expected).Some?
    ensures var r := Chain(names, props, i, expected).value;
            var more := Chain(names + [name], props + [p], i, expected).value;
            r <= more && (i + |r| < |props| ==> more == r)
    decreases |props| - i
  {
    hide Offers, Chain, Choose, Readable;
    var ps, ns := props + [p], names + [name];
    if i == |props| {
      ChainStops(names, props, i, expected);
      forall q | q in ps ensures Readable(q) {
      }
      ChainFrom(ns, ps, i, expected);
    } else {
      assert ps[i] == props[i] && ns[i] == names[i] && props[i] in props;
      if props[i].None? {
        ChainStops(names, props, i, expected);
        ChainStops(ns, ps, i, expected);
      } else {
        ChainStep(names, props, i, expected);
        ChainStep(ns, ps, i, expected);
        var c := Choose(props[i].value, names[i], i, expected);
        if c.Picked? {
          ChainOfMore(names, props, name, p, i + 1, c.v.hash);
        }
      }
    }
  }

  lemma {:induction false} EndsOfMore(names: seq<Name>, props: seq<Option<Snapshot>>, name: Name,
                                      p: Option<Snapshot>, n: nat)
    requires n <= |names| == |props|
    ensures Ends(names + [name], props + [p], n) == Ends(names, props, n)
  {
    hide Offers;
    if n > 0 {
      EndsOfMore(names, props, name, p, n - 1);
    }
  }

  ghost predicate LongestBefore(names: seq<Name>, props: seq<Option<Snapshot>>, name: Name, p: Snapshot)
    requires |names| == |props|
  {
    var r := Chain(names + [name], props + [Some(p)], 0, 0);
    r.Some? && Longest(names + [name], props + [Some(p)], r.value)
  }

  /** One more block after a chain that covers all blocks. */
  lemma OneMoreBlock(names: seq<Name>, props: seq<Option<Snapshot>>, name: Name, p: Snapshot)
    requires |names| == |props| && Readable(Some(p)) && forall q :: q in props ==> Readable(q)
    requires Chain(names, props, 0, 0).Some? && |Chain(names, props, 0, 0).value| == |props|
    ensures var n, h := |props|, LastHash(Chain(names, props, 0, 0).value, 0);
            LongestBefore(names, props, name, p) <==>
              n == 0 || HasParent(Offers(p, name), h)
              || forall v :: v in Offers(p, name) ==> v.parent !in Ends(names, props, n)
  {
    var n := |props|;
    var vs := Chain(names, props, 0, 0).value;
    var ps, ns := props + [Some(p)], names + [name];
    forall q | q in ps ensures Readable(q) {
    }
    ChainOfMore(names, props, name, Some(p), 0, 0);
    LongestExactly(ns, ps);
    ChainIsGreedy(ns, ps);
    EndsOfMore(names, props, name, Some(p), n);
    hide Chain, Offers, Ends, Readable, Linked, FirstWith;
    var more := Chain(ns, ps, 0, 0).value;
    if n > 0 {
      if |more| == n {
        assert more == vs && !CanFollow(ns, ps, n, LastHash(vs, 0));
      } else {
        assert FirstFit(ns, ps, more, n);
        assert more[n - 1] == vs[n - 1];
      }
    }
  }

  /** Every linked choice of full length ends in the hash in which the chain ends. */
  ghost predicate OneLastHash(names: seq<Name>, props: seq<Option<Snapshot>>, vs: seq<Version>)
    requires |names| == |props|
  {
    forall us :: Linked(names, props, us) && |us| == |props| ==> LastHash(us, 0) == LastHash(vs, 0)
  }

  lemma OneLastHashSuffices(names: seq<Name>, props: seq<Option<Snapshot>>, name: Name, p: Snapshot)
    requires |names| == |props| && Readable(Some(p)) && forall q :: q in props ==> Readable(q)
    requires Chain(names, props, 0, 0).Some? && |Chain(names, props, 0, 0).value| == |props|
    requires OneLastHash(names, props, Chain(names, props, 0, 0).value)
    ensures LongestBefore(names, props, name, p)
  {
    hide Chain, Offers, Ends, Readable, Linked, LongestBefore, HasParent;
    var n, h := |props|, LastHash(Chain(names, props, 0, 0).value, 0);
    OneMoreBlock(names, props, name, p);
    if v :| n > 0 && v in Offers(p, name) && v.parent in Ends(names, props, n) {
      var us := EndsAreLinked(names, props, n, v.parent);
      IsParent(Offers(p, name), v);
    }
  }

  lemma IsParent(vs: seq<Version>, v: Version)
    requires v in vs
    ensures HasParent(vs, v.parent)
  {
  }

  lemma OtherEndBreaks(names: seq<Name>, props: seq<Option<Snapshot>>, us: seq<Version>)
    requires |names| == |props| && forall q :: q in props ==> Readable(q)
    requires Chain(names, props, 0, 0).Some? && |Chain(names, props, 0, 0).value| == |props|
    requires Linked(names, props, us) && |us| == |props|
    requires LastHash(us, 0) != LastHash(Chain(names, props, 0, 0).value, 0)
    ensures exists name, p :: Readable(Some(p)) && !LongestBefore(names, props, name, p)
  {
    var p := Snapshot(0, LastHash(us, 0), "");
    assert Offers(p, "") == [Version(0, p.parent, "")];
    assert Readable(Some(p));
    hide Chain, Offers, Ends, Readable, Linked, LongestBefore;
    LinkedEnds(names, props, us);
    OneMoreBlock(names, props, "", p);
    assert Version(0, p.parent, "") in Offers(p, "");
  }

  /** A chain that covers all blocks stays the longest one whatever readable block comes next, if and
      only if every linked choice for these blocks ends in the same hash. */
  lemma LongestWhateverFollows(names: seq<Name>, props: seq<Option<Snapshot>>)
    requires |names| == |props| && forall q :: q in props ==> Readable(q)
    requires Chain(names, props, 0, 0).Some? && |Chain(names, props, 0, 0).value| == |props|
    ensures (forall name, p :: Readable(Some(p)) ==> LongestBefore(names, props, name, p))
            <==> OneLastHash(names, props, Chain(names, props, 0, 0).value)
  {
    hide Chain, Readable, Linked, LongestBefore, LastHash;
    if OneLastHash(names, props, Chain(names, props, 0, 0).value) {
      hide OneLastHash;
      forall name, p | Readable(Some(p)) ensures LongestBefore(names, props, name, p) {
        OneLastHashSuffices(names, props, name, p);
      }
    } else {
      var us :| Linked(names, props, us) && |us| == |props|
                && LastHash(us, 0) != LastHash(Chain(names, props, 0, 0).value, 0);
      OtherEndBreaks(names, props, us);
    }
  }

  /* ------------------------------- content-determined hashes -------------------------------- */

  /** All offers of a block carry one hash: the hash is a function of the block's tokens. */
  ghost predicate ContentDetermined(names: seq<Name>, props: seq<Option<Snapshot>>)
    requires |names| == |props|
  {
    forall i :: 0 <= i < |props| && props[i].Some? ==>
      forall v :: v in Offers(props[i].value, names[i]) ==> v.hash == props[i].value.hash
  }

  lemma OneEnd(names: seq<Name>, props: seq<Option<Snapshot>>, n: nat, h: Hash)
    requires 0 < n <= |names| == |props| && ContentDetermined(names, props) && h in Ends(names, props, n)
    ensures props[n - 1].Some? && h == props[n - 1].value.hash
  {
    hide Offers;
  }

  /** Then all linked choices end alike, so what continues one of them continues this one. */
  lemma ContinuesAny(names: seq<Name>, props: seq<Option<Snapshot>>, vs: seq<Version>)
    requires |names| == |props| && ContentDetermined(names, props) && Linked(names, props, vs)
    requires Continues(names, props, |vs|)
    ensures CanFollow(names, props, |vs|, LastHash(vs, 0))
  {
    hide Offers, Ends;
    var n := |vs|;
    var offers := Offers(props[n].value, names[n]);
    var v :| v in offers && (n == 0 || v.parent in Ends(names, props, n));
    if n > 0 {
      OneEnd(names, props, n, v.parent);
      assert vs[n - 1] in Offers(props[n - 1].value, names[n - 1]);
    }
    var k :| 0 <= k < |offers| && offers[k] == v;
    assert n > 0 ==> HasParent(offers, vs[n - 1].hash);
  }

  /** When hashes are a function of content, no other choice of versions reaches further. */
  lemma GreedyIsLongest(names: seq<Name>, props: seq<Option<Snapshot>>, us: seq<Version>)
    requires |names| == |props| && forall p :: p in props ==> Readable(p)
    requires ContentDetermined(names, props) && Linked(names, props, us)
    ensures Chain(names, props, 0, 0).Some? && |us| <= |Chain(names, props, 0, 0).value|
  {
    hide Chain, Linked, Continues, CanFollow, Readable, ContentDetermined;
    LongestExactly(names, props);
    ChainIsGreedy(names, props);
    if Continues(names, props, |Chain(names, props, 0, 0).value|) {
      ContinuesAny(names, props, Chain(names, props, 0, 0).value);
    }
  }
}
