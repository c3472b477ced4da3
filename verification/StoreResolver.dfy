/** `StorageDatabaseResolver` as the program runs it: one call's code, with the steps of other calls
    between its own. Its runs are runs of the step system of the cache. */
module StoreResolver {
  import opened Types
  import opened StoreCache
  import RegionMap

  /** What surrounds a call: the steps of others before each of its own, the outcome of its
      download and of the initialization of its store. */
  datatype Env = Env(others: nat -> seq<Step>, document: Option<string>, created: bool)

  /** The steps of other calls that are possible in turn; the rest are skipped. */
  function Others(s: State, w: nat, steps: seq<Step>): State
    decreases |steps|
  {
    if steps == [] then s
    else if steps[0].w != w && Enabled(s, steps[0]) then Others(Apply(s, steps[0]), w, steps[1..])
    else Others(s, w, steps[1..])
  }

  lemma OthersCall(s: State, st: Step, w: nat)
    requires Enabled(s, st) && st.w != w && w in s.calls
    ensures w in Apply(s, st).calls && Apply(s, st).calls[w] == s.calls[w]
  {
    if st.Act? {
      ActMoves(s, st.w, st.document, st.created);
    }
  }

  lemma {:induction false} OthersRun(start: State, s: State, w: nat, steps: seq<Step>)
    requires Reaches(start, s) && Inv(s) && w in s.calls && start.settings == s.settings
    ensures var t := Others(s, w, steps);
            Reaches(start, t) && Inv(t) && start.settings == t.settings && w in t.calls && t.calls[w] == s.calls[w]
    decreases |steps|
  {
    hide Inv, Apply, Enabled, Reaches;
    if steps != [] {
      if steps[0].w != w && Enabled(s, steps[0]) {
        OthersCall(s, steps[0], w);
        StepKeeps(s, steps[0]);
        ReachesStep(start, s, steps[0]);
        OthersRun(start, Apply(s, steps[0]), w, steps[1..]);
      } else {
        OthersRun(start, s, w, steps[1..]);
      }
    }
  }

  /** So every run of the others is one they can make. */
  lemma {:induction false} OthersCanRun(s: State, w: nat, steps: seq<Step>, t: State)
    requires Run(s, steps, t) && forall st :: st in steps ==> st.w != w
    ensures Others(s, w, steps) == t
    decreases |steps|
  {
    hide Enabled, Apply;
    if steps != [] {
      assert steps[0] in steps && forall st :: st in steps[1..] ==> st in steps;
      OthersCanRun(Apply(s, steps[0]), w, steps[1..], t);
    }
  }

  /** A step of the lock holder leaves it the holder or the lock free. */
  lemma HolderStep(s: State, document: Option<string>, created: bool)
    requires Inv(s) && s.holder.Some?
    ensures var h := s.holder.value;
            && Enabled(s, Act(h, document, created))
            && var t := Apply(s, Act(h, document, created));
               t.holder == Some(h) || t.holder.None?
  {
    HolderIsInside(s);
    hide Inv, GetStoreKey, RegionMap.Extracted, AccountUrl, CurrentAccount;
  }

  /* ------------------------------- what a call does to the world ---------------------------- */

  /** The holder of the lock takes its remaining steps. */
  function Drain(s: State, env: Env): State
    decreases if s.holder.Some? && s.holder.value in s.calls then StepsLeft(s.calls[s.holder.value].pc) + 1 else 0
  {
    if s.holder.None? then s
    else
      var h := s.holder.value;
      var st := Act(h, env.document, env.created);
      if !Enabled(s, st) then s
      else
        ActMoves(s, h, env.document, env.created);
        var t := Apply(s, st);
        if t.holder == Some(h) then Drain(t, env) else t
  }

  /** The k-th step of a call: the others first; a call that needs the lock waits for it. */
  function Turn(s: State, w: nat, env: Env, k: nat): State {
    var u := Others(s, w, env.others(k));
    var v := if w in u.calls && (u.calls[w].pc.Looking? || u.calls[w].pc.Waiting?) then Drain(u, env) else u;
    if Enabled(v, Act(w, env.document, env.created)) then Apply(v, Act(w, env.document, env.created)) else v
  }

  /** The first n steps. */
  function Turns(s: State, w: nat, env: Env, n: nat): State {
    if n == 0 then s else Turn(Turns(s, w, env, n - 1), w, env, n - 1)
  }

  /** The download fails or yields no region. */
  predicate NoConfig(env: Env) {
    env.document.None? || RegionMap.Extracted(env.document.value) == map[]
  }

  /** Some configuration downloaded for the resource has no account for the current region. */
  ghost predicate NoAccount(s: State, resource: string) {
    exists document :: (resource, document) in s.downloads
                       && CurrentAccount(s.settings, RegionMap.Extracted(document)) == ""
  }

  lemma ChosenIsDownloaded(s: State, w: nat)
    requires Inv(s) && w in s.calls && s.calls[w].pc.Choosing?
    requires CurrentAccount(s.settings, s.calls[w].pc.config.regions) == ""
    ensures NoAccount(s, s.calls[w].resource)
  {
    CallOf(s, w);
    hide Inv, RegionMap.Extracted, CurrentAccount;
    assert (s.calls[w].resource, s.calls[w].pc.config.document) in s.downloads;
  }

  class StorageDatabaseResolver {
    var stores: map<string, Store>
    var accountConfigCache: map<string, Config>

    /** The state of the step system: these caches, the lock and all calls. */
    var world: State

    ghost predicate Valid(start: State)
      reads this
    {
      stores == world.stores && accountConfigCache == world.configs
      && Inv(world) && Reaches(start, world) && start.settings == world.settings
    }

    ghost predicate At(w: nat, c: Call)
      reads this
    {
      w in world.calls && world.calls[w] == c
    }

    constructor (settings: Settings)
      ensures Valid(Initial(settings)) && world == Initial(settings)
    {
      stores, accountConfigCache, world := map[], map[], Initial(settings);
      new;
      ReachesSelf(world);
    }

    /** Other calls run for a while. */
    method Interfere(w: nat, steps: seq<Step>, ghost start: State)
      requires Valid(start) && w in world.calls
      modifies this
      ensures Valid(start) && world == Others(old(world), w, steps)
      ensures w in world.calls && world.calls[w] == old(world).calls[w]
    {
      hide Inv, Reaches;
      OthersRun(start, world, w, steps);
      world := Others(world, w, steps);
      stores, accountConfigCache := world.stores, world.configs;
    }

    /** The call's own step, taken in the step system after the fields have changed accordingly. */
    method Advance(st: Step, ghost start: State)
      requires Inv(world) && Reaches(start, world) && start.settings == world.settings && Enabled(world, st)
      requires stores == Apply(world, st).stores && accountConfigCache == Apply(world, st).configs
      modifies `world
      ensures Valid(start) && world == Apply(old(world), st)
    {
      hide Inv, Reaches, Enabled, Apply;
      StepKeeps(world, st);
      ReachesStep(start, world, st);
      world := Apply(world, st);
    }

    /** Waits until the lock can be taken: a holder takes its remaining steps. */
    method WaitForLock(w: nat, env: Env, ghost start: State)
      requires Valid(start) && w in world.calls && (world.calls[w].pc.Looking? || world.calls[w].pc.Waiting?)
      modifies this
      ensures Valid(start) && world.holder.None? && world == Drain(old(world), env)
      ensures w in world.calls && world.calls[w] == old(world.calls[w])
    {
      hide Inv, Reaches, Apply, Enabled;
      while world.holder.Some?
        invariant Valid(start) && w in world.calls && world.calls[w] == old(world.calls[w])
        invariant Drain(world, env) == Drain(old(world), env)
        decreases if world.holder.Some? && world.holder.value in world.calls
                  then StepsLeft(world.calls[world.holder.value].pc) + 1 else 0
      {
        var h := world.holder.value;
        var step := Act(h, env.document, env.created);
        HolderIsInside(world);
        HolderStep(world, env.document, env.created);
        OthersCall(world, step, w);
        ActMoves(world, h, env.document, env.created);
        stores, accountConfigCache := Apply(world, step).stores, Apply(world, step).configs;
        Advance(step, start);
      }
    }

    /** The configuration from the cache, or downloaded, parsed and cached. */
    method FetchAccountConfig(w: nat, env: Env, k: nat, ghost c: Call, ghost start: State, ghost first: State)
      returns (r: Option<Config>, k': nat)
      requires Valid(start) && At(w, c) && c.pc.Checking? && world == Turns(first, w, env, k)
      modifies this
      ensures Valid(start) && world == Turns(first, w, env, k')
      ensures r.Some? ==> At(w, c.(pc := Choosing(r.value)))
      ensures r.Some? ==> c.resource in accountConfigCache && accountConfigCache[c.resource] == r.value
      ensures r.None? ==> At(w, c.(pc := if c.kind.WantsStore? then Done(None) else Told(None)))
      ensures var cached := Others(old(world), w, env.others(k)).configs;
              && (r.None? <==> c.resource !in cached && NoConfig(env))
              && (r.Some? ==>
                    r.value == if c.resource in cached then cached[c.resource]
                               else Config(RegionMap.Extracted(env.document.value), env.document.value))
    {
      hide Inv, Reaches, GetStoreKey, RegionMap.Extracted;
      var resource := world.calls[w].resource;
      Interfere(w, env.others(k), start);
      k' := k + 1;
      if resource in accountConfigCache {
        r := Some(accountConfigCache[resource]);
        Advance(Act(w, env.document, env.created), start);
        return;
      }
      Advance(Act(w, env.document, env.created), start);
      r, k' := Download(w, env, k', world.calls[w], start, first);
    }

    /** The download, its parsing and the insertion into the cache. */
    method Download(w: nat, env: Env, k: nat, ghost c: Call, ghost start: State, ghost first: State)
      returns (r: Option<Config>, k': nat)
      requires Valid(start) && At(w, c) && c.pc.Fetching? && world == Turns(first, w, env, k)
      modifies this
      ensures Valid(start) && world == Turns(first, w, env, k')
      ensures r.Some? ==> At(w, c.(pc := Choosing(r.value)))
      ensures r.Some? ==> c.resource in accountConfigCache && accountConfigCache[c.resource] == r.value
      ensures r.None? ==> At(w, c.(pc := if c.kind.WantsStore? then Done(None) else Told(None)))
      ensures r.None? <==> env.document.None? || RegionMap.Extracted(env.document.value) == map[]
      ensures r.Some? ==> r.value == Config(RegionMap.Extracted(env.document.value), env.document.value)
    {
      hide Inv, Reaches, RegionMap.Extracted, Turn;
      r := Parse(w, env, k, c, start);
      k' := k + 1;
      if r.Some? {
        Remember(w, world.calls[w].resource, r.value, env, k', world.calls[w], start);
        k' := k' + 1;
      }
    }

    /** The downloaded text and the regions in it. */
    method Parse(w: nat, env: Env, k: nat, ghost c: Call, ghost start: State) returns (r: Option<Config>)
      requires Valid(start) && At(w, c) && c.pc.Fetching?
      modifies this
      ensures Valid(start) && world == Turn(old(world), w, env, k)
      ensures r.Some? ==> At(w, c.(pc := Caching(r.value)))
      ensures r.None? ==> At(w, c.(pc := if c.kind.WantsStore? then Done(None) else Told(None)))
      ensures r.None? <==> env.document.None? || RegionMap.Extracted(env.document.value) == map[]
      ensures r.Some? ==> r.value == Config(RegionMap.Extracted(env.document.value), env.document.value)
    {
      hide Inv, Reaches, GetStoreKey, RegionMap.Extracted;
      Interfere(w, env.others(k), start);
      if env.document.None? {
        Advance(Act(w, env.document, env.created), start);
        return None;
      }
      var ok, regions := RegionMap.ExtractRegionStorageMap(env.document.value);
      Advance(Act(w, env.document, env.created), start);
      return if ok then Some(Config(regions, env.document.value)) else None;
    }

    method Remember(w: nat, resource: string, config: Config, env: Env, k: nat, ghost c: Call, ghost start: State)
      requires Valid(start) && At(w, c) && c.pc == Caching(config) && c.resource == resource
      modifies this
      ensures Valid(start) && At(w, c.(pc := Choosing(config))) && world == Turn(old(world), w, env, k)
      ensures resource in accountConfigCache && accountConfigCache[resource] == config
    {
      hide Inv, Reaches;
      Interfere(w, env.others(k), start);
      accountConfigCache := accountConfigCache[resource := config];
      Advance(Act(w, env.document, env.created), start);
    }

    method GetStorageAccountForCurrentRegion(config: Config) returns (account: string)
      ensures account == CurrentAccount(world.settings, config.regions)
    {
      if world.settings.location !in config.regions { return ""; }
      if config.regions[world.settings.location] == [] { return ""; }
      return config.regions[world.settings.location][0];
    }

    /** The whole call, whatever other calls do before each of its steps. It gives no store only for
        an empty name, without a configuration or an account, or when the store does not initialize. */
    method ResolveStore(w: nat, resource: string, container: string, env: Env)
      returns (r: Option<Store>, ghost operations: nat)
      requires Valid(world) && w !in world.calls
      modifies this
      ensures Valid(old(world)) && At(w, Call(WantsStore, resource, container, Done(r)))
      ensures Enabled(old(world), Begin(w, WantsStore, resource, container))
      ensures world == Turns(Apply(old(world), Begin(w, WantsStore, resource, container)), w, env, operations)
      ensures resource == "" || container == "" ==>
                r == None && stores == old(stores) && accountConfigCache == old(accountConfigCache)
      ensures r.Some? ==>
                GetStoreKey(resource, container) in stores && stores[GetStoreKey(resource, container)] == r.value
      ensures r.None? && resource != "" && container != "" ==>
                !env.created || NoConfig(env) || NoAccount(world, resource)
      ensures && resource != "" && container != ""
              && (forall i: nat :: env.others(i) == []) && old(world).holder.None?
              && GetStoreKey(resource, container) !in old(stores) && resource !in old(accountConfigCache)
              ==> (r.Some? <==>
                     && env.created && !NoConfig(env)
                     && CurrentAccount(world.settings, RegionMap.Extracted(env.document.value)) != "")
    {
      hide Inv, Reaches, RegionMap.Extracted, GetStoreKey, Turn, CurrentAccount, NoAccount;
      ghost var start := world;
      Advance(Begin(w, WantsStore, resource, container), start);
      ghost var first := world;
      if resource == "" || container == "" {
        return None, 0;
      }
      var key := GetStoreKey(resource, container);
      r := FastPath(w, key, env, world.calls[w], start);
      assert world == Turns(first, w, env, 1) by {
        assert Turns(first, w, env, 0) == first;
      }
      if r.Some? { return r, 1; }
      var n;
      r, n := SlowPath(w, resource, container, key, env, world.calls[w], start, first);
      operations := n;
    }

    /** The look under the shared lock. */
    method FastPath(w: nat, key: string, env: Env, ghost c: Call, ghost start: State) returns (r: Option<Store>)
      requires Valid(start) && At(w, c) && c.kind.WantsStore? && c.pc.Looking? && key == KeyOf(c)
      modifies this
      ensures Valid(start) && world == Turn(old(world), w, env, 0)
      ensures At(w, c.(pc := if r.Some? then Done(r) else Waiting))
      ensures r == if key in stores then Some(stores[key]) else None
      ensures env.others(0) == [] && old(world).holder.None? ==>
                world.holder.None? && stores == old(stores) && accountConfigCache == old(accountConfigCache)
    {
      hide Inv, Reaches, GetStoreKey;
      Interfere(w, env.others(0), start);
      WaitForLock(w, env, start);
      r := if key in stores then Some(stores[key]) else None;
      Advance(Act(w, env.document, env.created), start);
    }

    /** The second look, the creation and the insertion under the exclusive lock. */
    method SlowPath(w: nat, resource: string, container: string, key: string, env: Env, ghost c: Call,
                    ghost start: State, ghost first: State)
      returns (r: Option<Store>, k: nat)
      requires Valid(start) && At(w, c) && c == Call(WantsStore, resource, container, Waiting) && key == KeyOf(c)
      requires world == Turns(first, w, env, 1)
      modifies this
      ensures Valid(start) && At(w, c.(pc := Done(r))) && world == Turns(first, w, env, k)
      ensures r.Some? ==> key in stores && stores[key] == r.value
      ensures r.None? ==> !env.created || NoConfig(env) || NoAccount(world, resource)
      ensures && (forall i: nat :: env.others(i) == []) && old(world).holder.None?
              && key !in old(stores) && resource !in old(accountConfigCache)
              ==> (r.Some? <==>
                     && env.created && !NoConfig(env)
                     && CurrentAccount(world.settings, RegionMap.Extracted(env.document.value)) != "")
    {
      hide Inv, Reaches, GetStoreKey, Turn, CurrentAccount, NoAccount, RegionMap.Extracted;
      var hit;
      r, hit := SecondLook(w, key, env, c, start);
      k := 2;
      if hit { return; }
      var accountConfig;
      accountConfig, k := FetchAccountConfig(w, env, k, world.calls[w], start, first);
      if accountConfig.None? { return None, k; }
      r := CreateAndInsert(w, container, key, accountConfig.value, env, k, world.calls[w], start);
      k := k + 1;
    }

    method SecondLook(w: nat, key: string, env: Env, ghost c: Call, ghost start: State)
      returns (r: Option<Store>, hit: bool)
      requires Valid(start) && At(w, c) && c.kind.WantsStore? && c.pc.Waiting? && key == KeyOf(c)
      modifies this
      ensures Valid(start) && world == Turn(old(world), w, env, 1)
      ensures hit == r.Some? && r == if key in stores then Some(stores[key]) else None
      ensures At(w, c.(pc := if hit then Done(r) else Checking))
      ensures env.others(1) == [] && old(world).holder.None? ==>
                stores == old(stores) && accountConfigCache == old(accountConfigCache)
    {
      hide Inv, Reaches, GetStoreKey;
      Interfere(w, env.others(1), start);
      WaitForLock(w, env, start);
      hit := key in stores;
      r := if hit then Some(stores[key]) else None;
      Advance(Act(w, env.document, env.created), start);
    }

    method CreateAndInsert(w: nat, container: string, key: string, config: Config, env: Env, k: nat, ghost c: Call,
                           ghost start: State)
      returns (r: Option<Store>)
      requires Valid(start) && At(w, c) && c.kind.WantsStore? && c.pc == Choosing(config)
      requires c.container == container && key == KeyOf(c)
      modifies this
      ensures Valid(start) && At(w, c.(pc := Done(r))) && world == Turn(old(world), w, env, k)
      ensures r.Some? ==> key in stores && stores[key] == r.value && r.value.container == container
      ensures r.None? <==> !env.created || CurrentAccount(world.settings, config.regions) == ""
      ensures r.None? ==> !env.created || NoAccount(world, c.resource)
    {
      hide Inv, Reaches, GetStoreKey, CurrentAccount, NoAccount, RegionMap.Extracted;
      Interfere(w, env.others(k), start);
      var account := GetStorageAccountForCurrentRegion(config);
      if account == "" || !env.created {
        ghost var was := world;
        if account == "" {
          ChosenIsDownloaded(world, w);
        }
        Advance(Act(w, env.document, env.created), start);
        SameDownloads(was, world, c.resource);
        return None;
      }
      var store := Store(|world.made|, AccountUrl(world.settings, account), container);
      stores := stores[key := store];
      Advance(Act(w, env.document, env.created), start);
      return Some(store);
    }

    /** The URL of the account for a pair, without a store. */
    method ResolveAccountInfo(w: nat, resource: string, container: string, env: Env)
      returns (url: Option<string>, ghost operations: nat)
      requires Valid(world) && w !in world.calls
      modifies this
      ensures Valid(old(world)) && At(w, Call(WantsAccount, resource, container, Told(url)))
      ensures Enabled(old(world), Begin(w, WantsAccount, resource, container))
      ensures world == Turns(Apply(old(world), Begin(w, WantsAccount, resource, container)), w, env, operations)
      ensures resource == "" || container == "" ==> url == None
      ensures url.Some? ==> UrlOk(world, resource, url.value)
      ensures url.None? && resource != "" && container != "" ==> NoConfig(env) || NoAccount(world, resource)
      ensures && resource != "" && container != "" && env.others(0) == [] && resource !in old(accountConfigCache)
              ==> (url.Some? <==>
                     !NoConfig(env) && CurrentAccount(world.settings, RegionMap.Extracted(env.document.value)) != "")
    {
      hide UrlOk, Inv, Reaches, RegionMap.Extracted, GetStoreKey, CurrentAccount, Turn, NoAccount;
      ghost var start := world;
      Advance(Begin(w, WantsAccount, resource, container), start);
      ghost var first := world;
      if resource == "" || container == "" {
        return None, 0;
      }
      var accountConfig, k;
      accountConfig, k := FetchAccountConfig(w, env, 0, world.calls[w], start, first);
      operations := k;
      if accountConfig.None? { return None, operations; }
      url := ChooseUrl(w, accountConfig.value, env, k, world.calls[w], start);
      operations := k + 1;
    }

    method ChooseUrl(w: nat, config: Config, env: Env, k: nat, ghost c: Call, ghost start: State)
      returns (url: Option<string>)
      requires Valid(start) && At(w, c) && c.kind.WantsAccount? && c.pc == Choosing(config)
      modifies this
      ensures Valid(start) && At(w, c.(pc := Told(url))) && world == Turn(old(world), w, env, k)
      ensures url.Some? ==> UrlOk(world, c.resource, url.value)
      ensures url.None? <==> CurrentAccount(world.settings, config.regions) == ""
      ensures url.None? ==> NoAccount(world, c.resource)
    {
      hide UrlOk, Inv, Reaches, RegionMap.Extracted, CurrentAccount, NoAccount;
      Interfere(w, env.others(k), start);
      var account := GetStorageAccountForCurrentRegion(config);
      url := if account == "" then None else Some(AccountUrl(world.settings, account));
      ghost var was := world;
      if account == "" {
        ChosenIsDownloaded(world, w);
      }
      Advance(Act(w, env.document, env.created), start);
      SameDownloads(was, world, c.resource);
      CallOf(world, w);
    }
  }

  lemma SameDownloads(s: State, t: State, resource: string)
    requires s.downloads == t.downloads && s.settings == t.settings
    ensures NoAccount(s, resource) ==> NoAccount(t, resource)
  {
  }
}
