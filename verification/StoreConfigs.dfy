/** When a cached account configuration can change. */
module StoreConfigs {
  import opened Types
  import opened StoreCache
  import RegionMap

  /** The call is past its look into the cache for this resource and may still write there something
      other than `regions`. */
  predicate MayReplace(c: Call, resource: string, regions: RegionMap.Regions) {
    c.resource == resource && (c.pc.Fetching? || (c.pc.Caching? && c.pc.config.regions != regions))
  }

  ghost predicate SomeoneMayReplace(s: State, resource: string)
    requires resource in s.configs
  {
    exists w :: w in s.calls && MayReplace(s.calls[w], resource, s.configs[resource].regions)
  }

  /** Some run from here changes the regions cached for the resource. */
  ghost predicate CanChange(s: State, resource: string)
    requires resource in s.configs
  {
    exists t :: Reaches(s, t) && resource in t.configs && t.configs[resource].regions != s.configs[resource].regions
  }

  /* ------------------------------- nobody may: it stays ------------------------------------- */

  ghost predicate Steady(s: State, resource: string, regions: RegionMap.Regions) {
    && resource in s.configs && s.configs[resource].regions == regions
    && forall w :: w in s.calls ==> !MayReplace(s.calls[w], resource, regions)
  }

  lemma FetchSteady(s: State, w: nat, document: Option<string>, resource: string, regions: RegionMap.Regions)
    requires Steady(s, resource, regions) && w in s.calls && s.calls[w].pc.Fetching?
    ensures Steady(DoFetch(s, w, s.calls[w], document), resource, regions)
  {
    hide RegionMap.Extracted;
    assert s.calls[w].resource != resource;
  }

  lemma ChooseSteady(s: State, w: nat, created: bool, resource: string, regions: RegionMap.Regions)
    requires Steady(s, resource, regions) && w in s.calls && s.calls[w].pc.Choosing?
    ensures Steady(DoChoose(s, w, s.calls[w], s.calls[w].pc.config, created), resource, regions)
  {
    hide GetStoreKey, AccountUrl, CurrentAccount;
  }

  lemma EarlySteady(s: State, w: nat, resource: string, regions: RegionMap.Regions)
    requires Steady(s, resource, regions) && w in s.calls
    ensures s.calls[w].pc.Looking? ==> Steady(DoLook(s, w, s.calls[w]), resource, regions)
    ensures s.calls[w].pc.Waiting? ==> Steady(DoLock(s, w, s.calls[w]), resource, regions)
    ensures s.calls[w].pc.Checking? ==> Steady(DoCheck(s, w, s.calls[w]), resource, regions)
    ensures s.calls[w].pc.Caching? ==> Steady(DoCache(s, w, s.calls[w], s.calls[w].pc.config), resource, regions)
  {
    hide GetStoreKey;
    assert !MayReplace(s.calls[w], resource, regions);
  }

  lemma SteadyStep(s: State, st: Step, resource: string, regions: RegionMap.Regions)
    requires Steady(s, resource, regions) && Enabled(s, st)
    ensures Steady(Apply(s, st), resource, regions)
  {
    match st
    case Begin(w, _, _, _) =>
    case Act(w, document, created) =>
      hide Steady, DoLook, DoLock, DoCheck, DoFetch, DoCache, DoChoose;
      match s.calls[w].pc {
        case Fetching => FetchSteady(s, w, document, resource, regions);
        case Choosing(_) => ChooseSteady(s, w, created, resource, regions);
        case _ => EarlySteady(s, w, resource, regions);
      }
  }

  lemma {:induction false} SteadyRun(s: State, steps: seq<Step>, t: State, resource: string, regions: RegionMap.Regions)
    requires Steady(s, resource, regions) && Run(s, steps, t)
    ensures Steady(t, resource, regions)
    decreases |steps|
  {
    hide Steady, Enabled, Apply;
    if steps != [] {
      SteadyStep(s, steps[0], resource, regions);
      SteadyRun(Apply(s, steps[0]), steps[1..], t, resource, regions);
    }
  }

  /* ------------------------------- somebody may: it can change ------------------------------ */

  /** A document that lists other regions than these. */
  lemma OtherDocument(regions: RegionMap.Regions) returns (document: string)
    ensures RegionMap.Extracted(document) != regions && RegionMap.Extracted(document) != map[]
  {
    var x := WestDocument("x");
    var y := WestDocument("y");
    hide RegionMap.Extracted;
    assert map["west" := ["x"]]["west"] == ["x"] && map["west" := ["y"]]["west"] == ["y"];
    assert ["x"][0] == "x" && ["y"][0] == "y" && "x"[0] != "y"[0];
    document := if RegionMap.Extracted(x) != regions then x else y;
    assert "west" in RegionMap.Extracted(document);
  }

  lemma Caches(start: State, s: State, w: nat) returns (t: State)
    requires Reaches(start, s) && w in s.calls && s.calls[w].pc.Caching?
    ensures Reaches(start, t)
    ensures t.configs == s.configs[s.calls[w].resource := s.calls[w].pc.config]
  {
    hide Reaches;
    var act := Act(w, None, false);
    ReachesStep(start, s, act);
    t := Apply(s, act);
  }

  lemma Fetches(start: State, s: State, w: nat, document: string) returns (t: State)
    requires Reaches(start, s) && w in s.calls && s.calls[w].pc.Fetching? && RegionMap.Extracted(document) != map[]
    ensures Reaches(start, t) && t.configs == s.configs && w in t.calls
    ensures t.calls[w] == s.calls[w].(pc := Caching(Config(RegionMap.Extracted(document), document)))
  {
    hide Reaches, RegionMap.Extracted;
    var act := Act(w, Some(document), false);
    ReachesStep(start, s, act);
    t := Apply(s, act);
  }

  lemma Replaces(s: State, w: nat, resource: string)
    requires resource in s.configs && w in s.calls && MayReplace(s.calls[w], resource, s.configs[resource].regions)
    ensures CanChange(s, resource)
  {
    hide RegionMap.Extracted, Reaches;
    ReachesSelf(s);
    var u := s;
    if s.calls[w].pc.Fetching? {
      var document := OtherDocument(s.configs[resource].regions);
      u := Fetches(s, s, w, document);
    }
    var t := Caches(s, u, w);
    assert t.configs[resource].regions != s.configs[resource].regions;
  }

  /* ------------------------------- exactly when --------------------------------------------- */

  /** What is cached for a resource can still change if and only if some call had looked into the
      cache before the entry was there and has yet to write what it downloads. */
  lemma ChangesExactlyWhen(s: State, resource: string)
    requires resource in s.configs
    ensures CanChange(s, resource) <==> SomeoneMayReplace(s, resource)
  {
    var regions := s.configs[resource].regions;
    hide MayReplace, Run;
    if w :| w in s.calls && MayReplace(s.calls[w], resource, regions) {
      Replaces(s, w, resource);
    } else {
      assert Steady(s, resource, regions);
      forall t | Reaches(s, t) ensures Steady(t, resource, regions) {
        var steps :| Run(s, steps, t);
        SteadyRun(s, steps, t, resource, regions);
      }
    }
  }

  lemma AccountFetches(start: State, s: State, w: nat, resource: string) returns (t: State)
    requires Reaches(start, s) && w !in s.calls && resource !in s.configs && resource != ""
    ensures Reaches(start, t)
    ensures t == s.(calls := s.calls[w := Call(WantsAccount, resource, "c", Fetching)])
  {
    hide Reaches;
    ReachesStep(start, s, Begin(w, WantsAccount, resource, "c"));
    var u := Apply(s, Begin(w, WantsAccount, resource, "c"));
    ReachesStep(start, u, Act(w, None, false));
    t := Apply(u, Act(w, None, false));
    assert t.calls == s.calls[w := Call(WantsAccount, resource, "c", Fetching)];
  }

  /** Two account calls for one resource bring this about: both look before either has cached, so the
      second one can overwrite what the first has cached with something else. */
  lemma AccountCallsCanReplace(resource: string) returns (s: State)
    requires resource != ""
    ensures Reachable(s) && resource in s.configs && CanChange(s, resource)
    ensures forall w :: w in s.calls ==> s.calls[w].kind.WantsAccount? && s.calls[w].resource == resource
  {
    hide RegionMap.Extracted, Reaches;
    var first := Initial(WEST);
    ReachesSelf(first);
    var a := AccountFetches(first, first, 0, resource);
    var b := AccountFetches(first, a, 1, resource);
    var document := WestDocument("x");
    assert "west" in RegionMap.Extracted(document);
    ReachesStep(first, b, Act(0, Some(document), false));
    var c := Apply(b, Act(0, Some(document), false));
    ReachesStep(first, c, Act(0, None, false));
    s := Apply(c, Act(0, None, false));
    Replaces(s, 1, resource);
  }
}
