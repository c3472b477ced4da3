/** The store cache of `StorageDatabaseResolver` as a step system: calls that want a store or an
    account URL, the shared and exclusive use of the stores lock, and the cache of account
    configurations, which has a lock of its own. */
module StoreCache {
  import opened Types
  import RegionMap

  /* ------------------------------- keys ----------------------------------------------------- */

  function GetStoreKey(resource: string, container: string): string {
    resource + "|" + container
  }

  /** The first name ends at a bar inside the second one; its container supplies the rest. */
  predicate Overlaps(r1: string, c1: string, r2: string, c2: string) {
    |r1| < |r2| && r1 + "|" <= r2 && c1 == r2[|r1| + 1..] + "|" + c2
  }

  predicate Collide(r1: string, c1: string, r2: string, c2: string) {
    Overlaps(r1, c1, r2, c2) || Overlaps(r2, c2, r1, c1)
  }

  lemma ShorterName(r1: string, c1: string, r2: string, c2: string)
    requires GetStoreKey(r1, c1) == GetStoreKey(r2, c2) && |r1| < |r2|
    ensures Overlaps(r1, c1, r2, c2)
  {
    var k := GetStoreKey(r1, c1);
    assert r1 == k[..|r1|] == r2[..|r1|];
    assert r2[|r1|] == k[|r1|] == '|';
    assert r1 + "|" == r2[..|r1| + 1];
    assert c1 == k[|r1| + 1..];
    assert k[|r1| + 1..] == r2[|r1| + 1..] + "|" + c2;
  }

  lemma OverlapCollides(r1: string, c1: string, r2: string, c2: string)
    requires Overlaps(r1, c1, r2, c2)
    ensures GetStoreKey(r1, c1) == GetStoreKey(r2, c2)
  {
    assert r2 == (r1 + "|") + r2[|r1| + 1..];
    assert r1 + "|" + (r2[|r1| + 1..] + "|" + c2) == (r1 + "|" + r2[|r1| + 1..]) + "|" + c2;
  }

  /** Exactly which pairs share a key. */
  lemma KeysCollide(r1: string, c1: string, r2: string, c2: string)
    ensures GetStoreKey(r1, c1) == GetStoreKey(r2, c2) <==> (r1 == r2 && c1 == c2) || Collide(r1, c1, r2, c2)
  {
    if GetStoreKey(r1, c1) == GetStoreKey(r2, c2) {
      if |r1| < |r2| {
        ShorterName(r1, c1, r2, c2);
      } else if |r2| < |r1| {
        ShorterName(r2, c2, r1, c1);
      } else {
        var k := GetStoreKey(r1, c1);
        assert r1 == k[..|r1|] == r2;
        assert c1 == k[|r1| + 1..] == c2;
      }
    } else if Overlaps(r1, c1, r2, c2) {
      OverlapCollides(r1, c1, r2, c2);
    } else if Overlaps(r2, c2, r1, c1) {
      OverlapCollides(r2, c2, r1, c1);
    }
  }

  lemma OverlapHasBar(r1: string, c1: string, r2: string, c2: string)
    requires Overlaps(r1, c1, r2, c2)
    ensures '|' in r2
  {
    assert r2[|r1|] == (r1 + "|")[|r1|];
  }

  /** Without bars in the resource names there is no collision. */
  lemma NoBarNoCollision(r1: string, c1: string, r2: string, c2: string)
    requires '|' !in r1 && '|' !in r2
    ensures !Collide(r1, c1, r2, c2)
  {
    if Overlaps(r1, c1, r2, c2) {
      OverlapHasBar(r1, c1, r2, c2);
    }
    if Overlaps(r2, c2, r1, c1) {
      OverlapHasBar(r2, c2, r1, c1);
    }
  }

  /* ------------------------------- the step system ------------------------------------------ */

  datatype Settings = Settings(scheme: string, suffix: string, location: string)

  /** A parsed account configuration, with the text it was read from. */
  datatype Config = Config(regions: RegionMap.Regions, document: string)

  /** `id` is the identity of the store object. */
  datatype Store = Store(id: nat, url: string, container: string)

  /** A successful creation: for which call and from which configuration. */
  datatype Made = Made(resource: string, container: string, config: Config, store: Store)

  datatype Kind = WantsStore | WantsAccount

  datatype Pc =
    | Looking                   // before the look under the shared lock
    | Waiting                   // before taking the exclusive lock
    | Checking                  // before the look into the configuration cache
    | Fetching                  // before the download of the configuration
    | Caching(config: Config)   // before the configuration is cached
    | Choosing(config: Config)  // before the account is chosen and the store created
    | Done(store: Option<Store>)
    | Told(url: Option<string>)

  datatype Call = Call(kind: Kind, resource: string, container: string, pc: Pc)

  /** `holder` has the exclusive lock. `made` and `downloads` record what happened; the program
      keeps neither. */
  datatype State = State(settings: Settings, stores: map<string, Store>, configs: map<string, Config>,
                         holder: Option<nat>, calls: map<nat, Call>, made: seq<Made>, downloads: set<(string, string)>)

  function Initial(settings: Settings): State {
    State(settings, map[], map[], None, map[], [], {})
  }

  /** `document` is what the download yields, `created` whether the new store initializes. */
  datatype Step =
    | Begin(w: nat, kind: Kind, resource: string, container: string)
    | Act(w: nat, document: Option<string>, created: bool)

  predicate Finished(pc: Pc) {
    pc.Done? || pc.Told?
  }

  /** Inside `FetchAccountConfig` and what follows it. */
  predicate Inside(pc: Pc) {
    pc.Checking? || pc.Fetching? || pc.Caching? || pc.Choosing?
  }

  predicate Enabled(s: State, st: Step) {
    match st
    case Begin(w, _, _, _) => w !in s.calls
    case Act(w, _, _) =>
      && w in s.calls
      && !Finished(s.calls[w].pc)
      && (s.calls[w].pc.Looking? || s.calls[w].pc.Waiting? ==> s.holder.None?)
  }

  function Set(s: State, w: nat, c: Call): State {
    s.(calls := s.calls[w := c])
  }

  /** The call ends; the exclusive lock is released if it had it. */
  function Answer(s: State, w: nat, c: Call, store: Option<Store>): State {
    Set(s, w, c.(pc := Done(store))).(holder := if s.holder == Some(w) then None else s.holder)
  }

  function Refuse(s: State, w: nat, c: Call): State {
    if c.kind.WantsStore? then Answer(s, w, c, None) else Set(s, w, c.(pc := Told(None)))
  }

  function Start(kind: Kind, resource: string, container: string): Call {
    Call(kind, resource, container,
         if resource == "" || container == "" then (if kind.WantsStore? then Done(None) else Told(None))
         else if kind.WantsStore? then Looking else Checking)
  }

  function KeyOf(c: Call): string {
    GetStoreKey(c.resource, c.container)
  }

  /** First account of the current region; the empty text when there is none. */
  function CurrentAccount(settings: Settings, regions: RegionMap.Regions): string {
    if settings.location !in regions || regions[settings.location] == [] then "" else regions[settings.location][0]
  }

  function AccountUrl(settings: Settings, account: string): string {
    settings.scheme + "://" + account + settings.suffix
  }

  function DoLook(s: State, w: nat, c: Call): State {
    if KeyOf(c) in s.stores then Answer(s, w, c, Some(s.stores[KeyOf(c)])) else Set(s, w, c.(pc := Waiting))
  }

  function DoLock(s: State, w: nat, c: Call): State {
    if KeyOf(c) in s.stores then Answer(s, w, c, Some(s.stores[KeyOf(c)]))
    else Set(s, w, c.(pc := Checking)).(holder := Some(w))
  }

  function DoCheck(s: State, w: nat, c: Call): State {
    Set(s, w, c.(pc := if c.resource in s.configs then Choosing(s.configs[c.resource]) else Fetching))
  }

  function DoFetch(s: State, w: nat, c: Call, document: Option<string>): State {
    if document.None? || RegionMap.Extracted(document.value) == map[] then Refuse(s, w, c)
    else
      Set(s.(downloads := s.downloads + {(c.resource, document.value)}), w,
          c.(pc := Caching(Config(RegionMap.Extracted(document.value), document.value))))
  }

  function DoCache(s: State, w: nat, c: Call, config: Config): State {
    Set(s.(configs := s.configs[c.resource := config]), w, c.(pc := Choosing(config)))
  }

  function DoChoose(s: State, w: nat, c: Call, config: Config, created: bool): State {
    var account := CurrentAccount(s.settings, config.regions);
    if account == "" then Refuse(s, w, c)
    else if c.kind.WantsAccount? then Set(s, w, c.(pc := Told(Some(AccountUrl(s.settings, account)))))
    else if !created then Refuse(s, w, c)
    else
      var store := Store(|s.made|, AccountUrl(s.settings, account), c.container);
      Answer(s.(stores := s.stores[KeyOf(c) := store], made := s.made + [Made(c.resource, c.container, config, store)]),
             w, c, Some(store))
  }

  function Apply(s: State, st: Step): State
    requires Enabled(s, st)
  {
    match st
    case Begin(w, kind, resource, container) => Set(s, w, Start(kind, resource, container))
    case Act(w, document, created) =>
      var c := s.calls[w];
      match c.pc
      case Looking => DoLook(s, w, c)
      case Waiting => DoLock(s, w, c)
      case Checking => DoCheck(s, w, c)
      case Fetching => DoFetch(s, w, c, document)
      case Caching(config) => DoCache(s, w, c, config)
      case Choosing(config) => DoChoose(s, w, c, config, created)
      case _ => assert false; s
  }

  ghost predicate Run(s: State, steps: seq<Step>, t: State)
    decreases |steps|
  {
    if steps == [] then s == t
    else Enabled(s, steps[0]) && Run(Apply(s, steps[0]), steps[1..], t)
  }

  ghost predicate Reaches(s: State, t: State) {
    exists steps :: Run(s, steps, t)
  }

  ghost predicate Reachable(s: State) {
    Reaches(Initial(s.settings), s)
  }

  lemma ReachesSelf(s: State)
    ensures Reaches(s, s)
  {
    assert Run(s, [], s);
  }

  lemma {:induction false} RunAppend(s: State, steps: seq<Step>, t: State, st: Step)
    requires Run(s, steps, t) && Enabled(t, st)
    ensures Run(s, steps + [st], Apply(t, st))
    decreases |steps|
  {
    hide Enabled, Apply;
    if steps == [] {
      assert [] + [st] == [st] && [st][1..] == [];
    } else {
      RunAppend(Apply(s, steps[0]), steps[1..], t, st);
      assert (steps + [st])[1..] == steps[1..] + [st];
    }
  }

  lemma ReachesStep(s: State, t: State, st: Step)
    requires Reaches(s, t) && Enabled(t, st)
    ensures Reaches(s, Apply(t, st))
  {
    hide Enabled, Apply, Run;
    var steps :| Run(s, steps, t);
    RunAppend(s, steps, t, st);
  }

  /* ------------------------------- the invariant -------------------------------------------- */

  predicate ConfigOk(s: State, resource: string, config: Config) {
    (resource, config.document) in s.downloads && config.regions == RegionMap.Extracted(config.document)
  }

  /** A store was made once, for its key, with the account of the current region. */
  predicate MadeOk(s: State, i: nat)
    requires i < |s.made|
  {
    var m := s.made[i];
    var key := GetStoreKey(m.resource, m.container);
    && key in s.stores && s.stores[key] == m.store && m.store.id == i
    && ConfigOk(s, m.resource, m.config)
    && m.resource != "" && m.container != "" && m.store.container == m.container
    && CurrentAccount(s.settings, m.config.regions) != ""
    && m.store.url == AccountUrl(s.settings, CurrentAccount(s.settings, m.config.regions))
  }

  predicate StoreOk(s: State, key: string)
    requires key in s.stores
  {
    var id := s.stores[key].id;
    && id < |s.made| && s.made[id].store == s.stores[key]
    && GetStoreKey(s.made[id].resource, s.made[id].container) == key
  }

  predicate GivesUrl(settings: Settings, document: string, url: string) {
    var account := CurrentAccount(settings, RegionMap.Extracted(document));
    account != "" && url == AccountUrl(settings, account)
  }

  /** The URL is that of the first account some configuration downloaded for the resource lists. */
  ghost predicate UrlOk(s: State, resource: string, url: string) {
    exists document :: (resource, document) in s.downloads && GivesUrl(s.settings, document, url)
  }

  ghost predicate CallOk(s: State, w: nat)
    requires w in s.calls
  {
    var c := s.calls[w];
    && (c.kind.WantsStore? ==> !c.pc.Told?)
    && (c.kind.WantsAccount? ==> !c.pc.Looking? && !c.pc.Waiting? && !c.pc.Done?)
    && (s.holder == Some(w) <==> c.kind.WantsStore? && Inside(c.pc))
    && (c.kind.WantsStore? && Inside(c.pc) ==> KeyOf(c) !in s.stores)
    && (Inside(c.pc) || c.pc.Looking? || c.pc.Waiting? ==> c.resource != "" && c.container != "")
    && (c.pc.Caching? || c.pc.Choosing? ==> ConfigOk(s, c.resource, c.pc.config))
    && (c.pc.Done? && c.pc.store.Some? ==> KeyOf(c) in s.stores && s.stores[KeyOf(c)] == c.pc.store.value)
    && (c.pc.Told? && c.pc.url.Some? ==> UrlOk(s, c.resource, c.pc.url.value))
  }

  ghost predicate Inv(s: State) {
    && (forall i: nat :: i < |s.made| ==> MadeOk(s, i))
    && (forall k :: k in s.stores ==> StoreOk(s, k))
    && (forall r :: r in s.configs ==> ConfigOk(s, r, s.configs[r]))
    && (forall w :: w in s.calls ==> CallOk(s, w))
    && (s.holder.Some? ==> s.holder.value in s.calls)
  }

  /** Nothing recorded is changed or lost. */
  predicate Grows(s: State, t: State) {
    && s.settings == t.settings
    && (forall k :: k in s.stores ==> k in t.stores && t.stores[k] == s.stores[k])
    && s.made <= t.made
    && s.downloads <= t.downloads
  }

  /* ------------------------------- every step keeps it -------------------------------------- */

  predicate LockMoves(s: State, t: State, w: nat) {
    && (t.holder == s.holder || (s.holder.None? && t.holder == Some(w)) || (s.holder == Some(w) && t.holder.None?))
    && (t.stores == s.stores || s.holder == Some(w))
  }

  lemma UrlKeeps(s: State, t: State, resource: string, url: string)
    requires UrlOk(s, resource, url) && Grows(s, t)
    ensures UrlOk(t, resource, url)
  {
    hide GivesUrl;
    var document :| (resource, document) in s.downloads && GivesUrl(s.settings, document, url);
    assert (resource, document) in t.downloads;
  }

  lemma CallKeeps(s: State, t: State, w: nat, u: nat)
    requires u != w && u in s.calls && u in t.calls && t.calls[u] == s.calls[u] && CallOk(s, u)
    requires Grows(s, t) && LockMoves(s, t, w)
    ensures CallOk(t, u)
  {
    hide GetStoreKey, RegionMap.Extracted, UrlOk;
    var pc := s.calls[u].pc;
    if pc.Told? && pc.url.Some? {
      UrlKeeps(s, t, s.calls[u].resource, pc.url.value);
    }
  }

  lemma MadeKeeps(s: State, t: State, i: nat)
    requires i < |s.made| && MadeOk(s, i) && Grows(s, t)
    ensures MadeOk(t, i)
  {
    hide GetStoreKey, RegionMap.Extracted, AccountUrl, CurrentAccount;
  }

  lemma CallOf(s: State, w: nat)
    requires Inv(s) && w in s.calls
    ensures CallOk(s, w)
  {
  }

  predicate OnlyMoves(s: State, t: State, w: nat) {
    && s.calls.Keys <= t.calls.Keys && w in t.calls
    && forall u :: u in t.calls && u != w ==> u in s.calls && t.calls[u] == s.calls[u]
  }

  lemma CallsKeep(s: State, t: State, w: nat)
    requires Inv(s) && Grows(s, t) && LockMoves(s, t, w) && OnlyMoves(s, t, w) && CallOk(t, w)
    ensures forall u :: u in t.calls ==> CallOk(t, u)
  {
    hide CallOk, Grows, LockMoves, MadeOk, StoreOk, ConfigOk;
    forall u | u in t.calls ensures CallOk(t, u) {
      if u != w { CallKeeps(s, t, w, u); }
    }
  }

  /** Cached configurations are those of before, except for one that was downloaded. */
  predicate ConfigsKeep(s: State, t: State) {
    forall r :: r in t.configs ==> (r in s.configs && t.configs[r] == s.configs[r]) || ConfigOk(t, r, t.configs[r])
  }

  lemma ConfigsOk(s: State, t: State)
    requires Inv(s) && Grows(s, t) && ConfigsKeep(s, t)
    ensures forall r :: r in t.configs ==> ConfigOk(t, r, t.configs[r])
  {
    hide CallOk, MadeOk, StoreOk, RegionMap.Extracted;
    forall r | r in t.configs ensures ConfigOk(t, r, t.configs[r]) {
      assert r in s.configs ==> ConfigOk(s, r, s.configs[r]);
    }
  }

  /** A step that creates no store keeps the invariant when its own call is good after it. */
  lemma NoStoreStep(s: State, t: State, w: nat)
    requires Inv(s) && Grows(s, t) && LockMoves(s, t, w) && t.stores == s.stores && t.made == s.made
    requires OnlyMoves(s, t, w) && CallOk(t, w) && ConfigsKeep(s, t)
    ensures Inv(t)
  {
    CallsKeep(s, t, w);
    ConfigsOk(s, t);
    hide CallOk, ConfigOk, MadeOk, GetStoreKey;
    forall i: nat | i < |t.made| ensures MadeOk(t, i) {
      MadeKeeps(s, t, i);
    }
    forall k | k in t.stores ensures StoreOk(t, k) {
      assert StoreOk(s, k);
    }
  }

  /** Creating the store for the key of the lock holder. */
  lemma NewStoreStep(s: State, w: nat, config: Config)
    requires Inv(s) && w in s.calls && s.calls[w].pc == Choosing(config) && s.calls[w].kind.WantsStore?
    requires CurrentAccount(s.settings, config.regions) != ""
    ensures Inv(DoChoose(s, w, s.calls[w], config, true)) && Grows(s, DoChoose(s, w, s.calls[w], config, true))
  {
    hide GetStoreKey, RegionMap.Extracted, AccountUrl, CurrentAccount, MadeOk, StoreOk, Inv;
    var c := s.calls[w];
    var t := DoChoose(s, w, c, config, true);
    CallOf(s, w);
    assert KeyOf(c) !in s.stores && s.holder == Some(w);
    assert Grows(s, t) && CallOk(t, w);
    CallsKeep(s, t, w);
    ConfigsOk(s, t);
    NewStoreOk(s, w, config, t);
    assert Inv(t) by { assert t.holder.None?; InvOf(t); }
  }

  lemma InvOf(t: State)
    requires forall i: nat :: i < |t.made| ==> MadeOk(t, i)
    requires forall k :: k in t.stores ==> StoreOk(t, k)
    requires forall r :: r in t.configs ==> ConfigOk(t, r, t.configs[r])
    requires forall w :: w in t.calls ==> CallOk(t, w)
    requires t.holder.None?
    ensures Inv(t)
  {
  }

  lemma NewStoreOk(s: State, w: nat, config: Config, t: State)
    requires Inv(s) && w in s.calls && s.calls[w].pc == Choosing(config) && s.calls[w].kind.WantsStore?
    requires CurrentAccount(s.settings, config.regions) != ""
    requires t == DoChoose(s, w, s.calls[w], config, true) && Grows(s, t)
    ensures forall i: nat :: i < |t.made| ==> MadeOk(t, i)
    ensures forall k :: k in t.stores ==> StoreOk(t, k)
  {
    hide GetStoreKey, RegionMap.Extracted, AccountUrl, CurrentAccount;
    CallOf(s, w);
    hide CallOk;
    forall i: nat | i < |t.made| ensures MadeOk(t, i) {
      if i < |s.made| { MadeKeeps(s, t, i); }
    }
    forall k | k in t.stores ensures StoreOk(t, k) {
      if k != KeyOf(s.calls[w]) { assert StoreOk(s, k); }
    }
  }

  lemma UrlIsOk(s: State, resource: string, config: Config)
    requires ConfigOk(s, resource, config) && CurrentAccount(s.settings, config.regions) != ""
    ensures UrlOk(s, resource, AccountUrl(s.settings, CurrentAccount(s.settings, config.regions)))
  {
    hide RegionMap.Extracted, AccountUrl, CurrentAccount;
    assert GivesUrl(s.settings, config.document, AccountUrl(s.settings, CurrentAccount(s.settings, config.regions)));
  }

  lemma ChooseKeeps(s: State, w: nat, config: Config, created: bool)
    requires Inv(s) && w in s.calls && s.calls[w].pc == Choosing(config)
    ensures Inv(DoChoose(s, w, s.calls[w], config, created)) && Grows(s, DoChoose(s, w, s.calls[w], config, created))
  {
    hide GetStoreKey, AccountUrl, CurrentAccount, Inv, ConfigOk, UrlOk;
    var c := s.calls[w];
    CallOf(s, w);
    if c.kind.WantsAccount? && CurrentAccount(s.settings, config.regions) != "" {
      UrlIsOk(s, c.resource, config);
      UrlKeeps(s, DoChoose(s, w, c, config, created), c.resource,
               AccountUrl(s.settings, CurrentAccount(s.settings, config.regions)));
    }
    if c.kind.WantsStore? && created && CurrentAccount(s.settings, config.regions) != "" {
      NewStoreStep(s, w, config);
    } else {
      NoStoreStep(s, DoChoose(s, w, c, config, created), w);
    }
  }

  lemma LookKeeps(s: State, w: nat)
    requires Inv(s) && w in s.calls && s.holder.None?
    ensures s.calls[w].pc.Looking? ==> Inv(DoLook(s, w, s.calls[w])) && Grows(s, DoLook(s, w, s.calls[w]))
    ensures s.calls[w].pc.Waiting? ==> Inv(DoLock(s, w, s.calls[w])) && Grows(s, DoLock(s, w, s.calls[w]))
  {
    hide GetStoreKey, Inv, ConfigOk;
    var c := s.calls[w];
    CallOf(s, w);
    if c.pc.Looking? {
      NoStoreStep(s, DoLook(s, w, c), w);
    } else if c.pc.Waiting? {
      NoStoreStep(s, DoLock(s, w, c), w);
    }
  }

  lemma CheckKeeps(s: State, w: nat)
    requires Inv(s) && w in s.calls && s.calls[w].pc.Checking?
    ensures Inv(DoCheck(s, w, s.calls[w])) && Grows(s, DoCheck(s, w, s.calls[w]))
  {
    hide GetStoreKey, RegionMap.Extracted, StoreOk, MadeOk;
    var c := s.calls[w];
    CallOf(s, w);
    assert c.resource in s.configs ==> ConfigOk(s, c.resource, s.configs[c.resource]);
    hide Inv;
    NoStoreStep(s, DoCheck(s, w, c), w);
  }

  lemma FetchKeeps(s: State, w: nat, document: Option<string>)
    requires Inv(s) && w in s.calls && s.calls[w].pc.Fetching?
    ensures Inv(DoFetch(s, w, s.calls[w], document)) && Grows(s, DoFetch(s, w, s.calls[w], document))
  {
    hide GetStoreKey, RegionMap.Extracted, Inv;
    var c := s.calls[w];
    CallOf(s, w);
    NoStoreStep(s, DoFetch(s, w, c, document), w);
  }

  lemma CacheKeeps(s: State, w: nat, config: Config)
    requires Inv(s) && w in s.calls && s.calls[w].pc == Caching(config)
    ensures Inv(DoCache(s, w, s.calls[w], config)) && Grows(s, DoCache(s, w, s.calls[w], config))
  {
    hide GetStoreKey, RegionMap.Extracted, Inv;
    var c := s.calls[w];
    CallOf(s, w);
    NoStoreStep(s, DoCache(s, w, c, config), w);
  }

  /** Every step keeps the invariant and everything recorded so far. */
  lemma StepKeeps(s: State, st: Step)
    requires Inv(s) && Enabled(s, st)
    ensures Inv(Apply(s, st)) && Grows(s, Apply(s, st))
  {
    hide Inv, Grows, DoLook, DoLock, DoCheck, DoFetch, DoCache, DoChoose;
    match st
    case Begin(w, kind, resource, container) =>
      BeginKeeps(s, w, kind, resource, container);
    case Act(w, document, created) =>
      match s.calls[w].pc {
        case Checking => CheckKeeps(s, w);
        case Fetching => FetchKeeps(s, w, document);
        case Caching(config) => CacheKeeps(s, w, config);
        case Choosing(config) => ChooseKeeps(s, w, config, created);
        case _ => LookKeeps(s, w);
      }
  }

  lemma BeginKeeps(s: State, w: nat, kind: Kind, resource: string, container: string)
    requires Inv(s) && w !in s.calls
    ensures var t := Set(s, w, Start(kind, resource, container));
            Inv(t) && Grows(s, t)
  {
    hide GetStoreKey, RegionMap.Extracted, MadeOk, StoreOk;
    assert s.holder != Some(w);
    hide Inv;
    NoStoreStep(s, Set(s, w, Start(kind, resource, container)), w);
  }

  lemma {:induction false} RunKeeps(s: State, steps: seq<Step>, t: State)
    requires Inv(s) && Run(s, steps, t)
    ensures Inv(t) && Grows(s, t)
    decreases |steps|
  {
    hide Inv, Enabled, Apply;
    if steps != [] {
      StepKeeps(s, steps[0]);
      RunKeeps(Apply(s, steps[0]), steps[1..], t);
    }
  }

  lemma ReachesKeeps(s: State, t: State)
    requires Inv(s) && Reaches(s, t)
    ensures Inv(t) && Grows(s, t)
  {
    hide Inv, Run, Grows;
    var steps :| Run(s, steps, t);
    RunKeeps(s, steps, t);
  }

  lemma ReachableInv(s: State)
    requires Reachable(s)
    ensures Inv(s)
  {
    assert Inv(Initial(s.settings));
    hide Inv, Run;
    ReachesKeeps(Initial(s.settings), s);
  }

  /* ------------------------------- theorems ------------------------------------------------- */

  /** At most one store is ever created for a key. */
  lemma OneStorePerKey(s: State, i: nat, j: nat)
    requires Reachable(s) && i < |s.made| && j < |s.made|
    requires GetStoreKey(s.made[i].resource, s.made[i].container) ==
            GetStoreKey(s.made[j].resource, s.made[j].container)
    ensures i == j
  {
    ReachableInv(s);
    hide GetStoreKey, ConfigOk, CurrentAccount, AccountUrl;
    assert MadeOk(s, i) && MadeOk(s, j);
  }

  /** A cached store is never replaced or dropped, and nor is an answer already given. */
  lemma EntriesStay(s: State, t: State, key: string)
    requires Reachable(s) && Reaches(s, t) && key in s.stores
    ensures key in t.stores && t.stores[key] == s.stores[key]
  {
    ReachableInv(s);
    hide Inv;
    ReachesKeeps(s, t);
  }

  predicate GotStore(s: State, w: nat) {
    w in s.calls && s.calls[w].pc.Done? && s.calls[w].pc.store.Some?
  }

  /** Two answered calls hold the same store exactly when their pairs are equal or collide. */
  lemma SameStore(s: State, u: nat, w: nat)
    requires Reachable(s) && GotStore(s, u) && GotStore(s, w)
    ensures var a, b := s.calls[u], s.calls[w];
            a.pc.store == b.pc.store <==>
              (a.resource == b.resource && a.container == b.container)
              || Collide(a.resource, a.container, b.resource, b.container)
  {
    ReachableInv(s);
    var a, b := s.calls[u], s.calls[w];
    assert CallOk(s, u) && CallOk(s, w);
    assert StoreOk(s, KeyOf(a)) && StoreOk(s, KeyOf(b));
    KeysCollide(a.resource, a.container, b.resource, b.container);
  }

  /** Calls whose resource names have no bar share a store only for the same pair. */
  lemma NoBarNoSharing(s: State, u: nat, w: nat)
    requires Reachable(s) && GotStore(s, u) && GotStore(s, w)
    requires '|' !in s.calls[u].resource && '|' !in s.calls[w].resource
    ensures s.calls[u].pc.store == s.calls[w].pc.store <==>
              s.calls[u].resource == s.calls[w].resource && s.calls[u].container == s.calls[w].container
  {
    SameStore(s, u, w);
    NoBarNoCollision(s.calls[u].resource, s.calls[u].container, s.calls[w].resource, s.calls[w].container);
  }

  /** Where an answer comes from: some call for the same key, a configuration downloaded for that
      call's resource, and the first account it lists for the current region. */
  lemma StoreIsGenuine(s: State, w: nat) returns (m: Made)
    requires Reachable(s) && GotStore(s, w)
    ensures m in s.made && m.store == s.calls[w].pc.store.value
    ensures GetStoreKey(m.resource, m.container) == KeyOf(s.calls[w])
    ensures (m.resource, m.config.document) in s.downloads
    ensures var regions := RegionMap.Extracted(m.config.document);
            && s.settings.location in regions && regions[s.settings.location] != []
            && m.store.url == s.settings.scheme + "://" + regions[s.settings.location][0] + s.settings.suffix
            && m.store.container == m.container
    ensures '|' !in m.resource && '|' !in s.calls[w].resource ==>
              m.resource == s.calls[w].resource && m.store.container == s.calls[w].container
  {
    ReachableInv(s);
    hide RegionMap.Extracted, GetStoreKey, Collide;
    var c := s.calls[w];
    assert CallOk(s, w) && StoreOk(s, KeyOf(c));
    var id := s.stores[KeyOf(c)].id;
    assert MadeOk(s, id);
    m := s.made[id];
    KeysCollide(m.resource, m.container, c.resource, c.container);
    if '|' !in m.resource && '|' !in c.resource {
      NoBarNoCollision(m.resource, m.container, c.resource, c.container);
    }
  }

  /** The same for an account URL: it comes from a configuration downloaded for the very resource. */
  lemma UrlIsGenuine(s: State, w: nat) returns (document: string)
    requires Reachable(s) && w in s.calls && s.calls[w].pc.Told? && s.calls[w].pc.url.Some?
    ensures (s.calls[w].resource, document) in s.downloads
    ensures var regions := RegionMap.Extracted(document);
            && s.settings.location in regions && regions[s.settings.location] != []
            && s.calls[w].pc.url.value
               == s.settings.scheme + "://" + regions[s.settings.location][0] + s.settings.suffix
  {
    ReachableInv(s);
    CallOf(s, w);
    hide Inv, RegionMap.Extracted;
    document :| (s.calls[w].resource, document) in s.downloads
                && GivesUrl(s.settings, document, s.calls[w].pc.url.value);
  }

  const WEST := Settings("https", ".net", "west")

  /** A configuration that names one account for the region. */
  lemma WestDocument(account: string) returns (document: string)
    requires RegionMap.Clean(account)
    ensures RegionMap.Extracted(document) == map["west" := [account]]
  {
    var q := RegionMap.Quoted("", account);
    var r := RegionMap.Region(RegionMap.Quoted("", "west"), "", [q], "");
    document := "" + RegionMap.KEY + "" + "{" + (RegionMap.PrintRegions([r]) + "") + "}" + "";
    assert document[0..|RegionMap.KEY|] == RegionMap.KEY;
    RegionMap.ReadsPrintedMap("", "", [r], "", "");
    assert RegionMap.AccountNames([q]) == [account];
    assert RegionMap.Meaning([r], map[]) == RegionMap.Meaning([r][1..], map["west" := [account]]);
  }

  /** A call that nothing delays, for a pair with nothing cached, comes to its download. */
  lemma ComesToFetching(s: State, w: nat, resource: string, container: string, act: Step) returns (t: State)
    requires s == Initial(WEST) && resource != "" && container != "" && act.Act? && act.w == w
    ensures Reaches(s, t)
    ensures t == s.(calls := map[w := Call(WantsStore, resource, container, Fetching)], holder := Some(w))
  {
    hide GetStoreKey, Run, Reaches;
    ReachesSelf(s);
    var s1 := Apply(s, Begin(w, WantsStore, resource, container));
    ReachesStep(s, s, Begin(w, WantsStore, resource, container));
    var s2 := Apply(s1, act);
    ReachesStep(s, s1, act);
    var s3 := Apply(s2, act);
    ReachesStep(s, s2, act);
    t := Apply(s3, act);
    ReachesStep(s, s3, act);
  }

  /** A download that yields regions is cached. */
  lemma ComesToChoosing(s: State, w: nat, resource: string, container: string, document: string) returns (t: State)
    requires s == Initial(WEST) && resource != "" && container != "" && "west" in RegionMap.Extracted(document)
    ensures Reaches(s, t)
    ensures var config := Config(RegionMap.Extracted(document), document);
            t == s.(calls := map[w := Call(WantsStore, resource, container, Choosing(config))], holder := Some(w),
                    configs := map[resource := config], downloads := {(resource, document)})
  {
    hide GetStoreKey, RegionMap.Extracted, Run, Reaches;
    var act := Act(w, Some(document), true);
    var s4 := ComesToFetching(s, w, resource, container, act);
    assert RegionMap.Extracted(document) != map[];
    var s5 := Apply(s4, act);
    ReachesStep(s, s4, act);
    t := Apply(s5, act);
    ReachesStep(s, s5, act);
  }

  lemma WestAccount()
    ensures CurrentAccount(WEST, map["west" := ["x"]]) == "x"
  {
  }

  lemma Chooses(s: State, w: nat)
    requires w in s.calls && s.calls[w].pc.Choosing? && s.calls[w].kind.WantsStore? && s.holder == Some(w)
    requires CurrentAccount(s.settings, s.calls[w].pc.config.regions) != ""
    ensures Enabled(s, Act(w, None, true))
    ensures var c, t := s.calls[w], Apply(s, Act(w, None, true));
            && t.holder.None? && t.calls.Keys == s.calls.Keys && GotStore(t, w)
            && t.calls[w].resource == c.resource && t.calls[w].container == c.container
            && KeyOf(c) in t.stores && t.stores[KeyOf(c)] == t.calls[w].pc.store.value
  {
    hide GetStoreKey, AccountUrl, CurrentAccount;
  }

  /** It ends with a new store when the download and the initialization succeed. */
  lemma CreatesStore(s: State, w: nat, resource: string, container: string, document: string) returns (t: State)
    requires s == Initial(WEST) && resource != "" && container != ""
    requires RegionMap.Extracted(document) == map["west" := ["x"]]
    ensures Reaches(s, t) && t.holder.None? && t.calls.Keys == {w}
    ensures GotStore(t, w) && t.calls[w].resource == resource && t.calls[w].container == container
    ensures GetStoreKey(resource, container) in t.stores &&
            t.stores[GetStoreKey(resource, container)] == t.calls[w].pc.store.value
  {
    assert "west" in RegionMap.Extracted(document);
    hide GetStoreKey, RegionMap.Extracted, AccountUrl, Run, Reaches, CurrentAccount, Enabled, Apply;
    var u := ComesToChoosing(s, w, resource, container, document);
    WestAccount();
    Chooses(u, w);
    t := Apply(u, Act(w, None, true));
    ReachesStep(s, u, Act(w, None, true));
  }

  /** A bar in a resource name does make two different pairs share one store: the call for the
      second pair is answered with the container of the first. */
  lemma DifferentPairsCanShare() returns (s: State)
    ensures Reachable(s) && GotStore(s, 0) && GotStore(s, 1)
    ensures s.calls[0].resource == "a" && s.calls[0].container == "b|c"
    ensures s.calls[1].resource == "a|b" && s.calls[1].container == "c"
    ensures s.calls[0].pc.store == s.calls[1].pc.store
  {
    var document := WestDocument("x");
    var t := CreatesStore(Initial(WEST), 0, "a", "b|c", document);
    assert GetStoreKey("a", "b|c") == GetStoreKey("a|b", "c");
    hide GetStoreKey, Run, Reaches;
    var u := Apply(t, Begin(1, WantsStore, "a|b", "c"));
    ReachesStep(Initial(WEST), t, Begin(1, WantsStore, "a|b", "c"));
    s := Apply(u, Act(1, None, false));
    ReachesStep(Initial(WEST), u, Act(1, None, false));
    ReachesKeeps(Initial(WEST), s);
  }

  /* ------------------------------- progress ------------------------------------------------- */

  function StepsLeft(pc: Pc): nat {
    match pc
    case Looking => 6
    case Waiting => 5
    case Checking => 4
    case Fetching => 3
    case Caching(_) => 2
    case Choosing(_) => 1
    case _ => 0
  }

  lemma HolderIsInside(s: State)
    requires Inv(s) && s.holder.Some?
    ensures s.holder.value in s.calls && Inside(s.calls[s.holder.value].pc)
  {
    assert CallOk(s, s.holder.value);
  }

  /** `t` is `s` with call `w` moved on. */
  predicate Moves(s: State, t: State, w: nat)
    requires w in s.calls
  {
    w in t.calls && t.calls == s.calls[w := s.calls[w].(pc := t.calls[w].pc)]
    && StepsLeft(t.calls[w].pc) < StepsLeft(s.calls[w].pc)
  }

  lemma EarlyMoves(s: State, w: nat)
    requires w in s.calls
    ensures s.calls[w].pc.Looking? ==> Moves(s, DoLook(s, w, s.calls[w]), w)
    ensures s.calls[w].pc.Waiting? ==> Moves(s, DoLock(s, w, s.calls[w]), w)
    ensures s.calls[w].pc.Checking? ==> Moves(s, DoCheck(s, w, s.calls[w]), w)
  {
    hide GetStoreKey;
  }

  lemma LateMoves(s: State, w: nat, document: Option<string>, created: bool)
    requires w in s.calls
    ensures s.calls[w].pc.Fetching? ==> Moves(s, DoFetch(s, w, s.calls[w], document), w)
    ensures s.calls[w].pc.Caching? ==> Moves(s, DoCache(s, w, s.calls[w], s.calls[w].pc.config), w)
    ensures s.calls[w].pc.Choosing? ==> Moves(s, DoChoose(s, w, s.calls[w], s.calls[w].pc.config, created), w)
  {
    hide GetStoreKey, RegionMap.Extracted, AccountUrl, CurrentAccount;
  }

  lemma ActMoves(s: State, w: nat, document: Option<string>, created: bool)
    requires Enabled(s, Act(w, document, created))
    ensures Moves(s, Apply(s, Act(w, document, created)), w)
  {
    hide Moves, DoLook, DoLock, DoCheck, DoFetch, DoCache, DoChoose;
    EarlyMoves(s, w);
    LateMoves(s, w, document, created);
  }

  /** No state is stuck: when a call is unfinished, it or the holder of the lock can move, and
      every step of a call brings its end nearer, within six steps of its beginning. */
  lemma SomeoneMoves(s: State, w: nat, document: Option<string>, created: bool) returns (u: nat)
    requires Reachable(s) && w in s.calls && !Finished(s.calls[w].pc)
    ensures u == w || s.holder == Some(u)
    ensures Enabled(s, Act(u, document, created)) && u in Apply(s, Act(u, document, created)).calls
    ensures StepsLeft(Apply(s, Act(u, document, created)).calls[u].pc) < StepsLeft(s.calls[u].pc) <= 6
  {
    ReachableInv(s);
    hide Inv, Apply;
    u := if s.holder.Some? then s.holder.value else w;
    if s.holder.Some? {
      HolderIsInside(s);
    }
    ActMoves(s, u, document, created);
  }

  /* ------------------------------- the configuration cache ---------------------------------- */

  /** Only calls that want a store. */
  predicate OnlyStores(s: State) {
    forall w :: w in s.calls ==> s.calls[w].kind.WantsStore?
  }

  /** The lock holder fetches only what is not cached. */
  predicate FetchesOnce(s: State) {
    s.holder.Some? && s.holder.value in s.calls &&
      (s.calls[s.holder.value].pc.Fetching? || s.calls[s.holder.value].pc.Caching?)
    ==> s.calls[s.holder.value].resource !in s.configs
  }

  lemma ConfigStep(s: State, st: Step)
    requires Inv(s) && FetchesOnce(s) && Enabled(s, st) && OnlyStores(s) && OnlyStores(Apply(s, st))
    ensures FetchesOnce(Apply(s, st))
    ensures forall r :: r in s.configs ==> r in Apply(s, st).configs && Apply(s, st).configs[r] == s.configs[r]
  {
    hide GetStoreKey, RegionMap.Extracted, AccountUrl, CurrentAccount, MadeOk, StoreOk, ConfigOk;
    if st.Act? {
      assert CallOk(s, st.w);
    }
  }

  lemma {:induction false} KindsStay(s: State, steps: seq<Step>, t: State)
    requires Run(s, steps, t) && OnlyStores(t)
    ensures OnlyStores(s)
    decreases |steps|
  {
    hide DoLook, DoLock, DoCheck, DoFetch, DoCache, DoChoose;
    if steps != [] {
      KindsStay(Apply(s, steps[0]), steps[1..], t);
      if steps[0].Act? {
        ActMoves(s, steps[0].w, steps[0].document, steps[0].created);
      }
      hide Apply;
      forall w | w in s.calls ensures s.calls[w].kind.WantsStore? {
        assert w in Apply(s, steps[0]).calls && Apply(s, steps[0]).calls[w].kind == s.calls[w].kind;
      }
    }
  }

  lemma {:induction false} ConfigRun(s: State, steps: seq<Step>, t: State)
    requires Inv(s) && FetchesOnce(s) && Run(s, steps, t) && OnlyStores(t)
    ensures FetchesOnce(t) && forall r :: r in s.configs ==> r in t.configs && t.configs[r] == s.configs[r]
    decreases |steps|
  {
    hide Inv, Enabled, Apply, FetchesOnce, OnlyStores;
    KindsStay(s, steps, t);
    if steps != [] {
      KindsStay(Apply(s, steps[0]), steps[1..], t);
      ConfigStep(s, steps[0]);
      StepKeeps(s, steps[0]);
      ConfigRun(Apply(s, steps[0]), steps[1..], t);
    }
  }

  /** While no call asks for an account URL, a cached configuration never changes either: the
      stores lock serializes the downloads. */
  lemma ConfigsStay(s: State, t: State, r: string)
    requires Reachable(s) && Reaches(s, t) && OnlyStores(t) && r in s.configs
    ensures r in t.configs && t.configs[r] == s.configs[r]
  {
    var first := Initial(s.settings);
    assert Inv(first) && FetchesOnce(first);
    hide Inv, FetchesOnce, OnlyStores, Run;
    var before :| Run(first, before, s);
    var after :| Run(s, after, t);
    KindsStay(s, after, t);
    RunKeeps(first, before, s);
    ConfigRun(first, before, s);
    ConfigRun(s, after, t);
  }
}
