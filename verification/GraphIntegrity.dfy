/** The integrity of the module's graph, kept by every operation in which switching streams succeeds. */
module GraphIntegrity {
  import opened GraphModel
  import opened GraphWiring
  import opened GraphStreams
  import opened GraphOperations
  import opened GraphIndex

  // ----- the invariant -----

  /** A config's port exists; ports and configs share ids only where a config has its own port's id. */
  predicate GoodConfig(g: Graph, c: Config) {
    && c.port in PortIds(g.wiring.ports)
    && (c.id in PortIds(g.wiring.ports) ==> c.port == c.id)
  }

  /** An initial config is there to stay, on a port that is there to stay. */
  predicate GoodInitial(g: Graph, c: Config) {
    c.id in ConfigIds(g.configs) && PortOf(g.configs, c.id) == c.port && c.port !in g.wiring.connected
  }

  ghost predicate Configured(g: Graph) {
    && Unique(ConfigIds(g.configs)) && FreshIds(ConfigIds(g.configs), g.wiring.nextPortId)
    && (forall i {:trigger GoodConfig(g, g.configs[i])} | 0 <= i < |g.configs| :: GoodConfig(g, g.configs[i]))
    && (forall i {:trigger GoodInitial(g, g.initials[i])} | 0 <= i < |g.initials| :: GoodInitial(g, g.initials[i]))
  }

  predicate GoodPatch(configs: seq<Config>, p: Patch) {
    p.sources != [] && p.sinks != [] && AllIn(p.sources, ConfigIds(configs)) && AllIn(p.sinks, ConfigIds(configs))
  }

  ghost predicate Patched(g: Graph) {
    && 0 < g.nextPatchId && Unique(PatchIds(g.patches)) && FreshIds(PatchIds(g.patches), g.nextPatchId)
    && (forall i {:trigger GoodPatch(g.configs, g.patches[i])} | 0 <= i < |g.patches| ::
        GoodPatch(g.configs, g.patches[i]))
  }

  predicate GoodStream(g: Graph, id: int)
    requires id in g.streams.open
  {
    id in ConfigIds(g.configs) && g.streams.open[id].port == PortOf(g.configs, id)
  }

  ghost predicate Streaming(g: Graph) {
    forall id {:trigger GoodStream(g, id)} | id in g.streams.open :: GoodStream(g, id)
  }

  ghost predicate Indexed(g: Graph) {
    g.index == IndexOf(g.configs, g.patches)
  }

  ghost predicate Integral(g: Graph) {
    Wired(g.wiring) && Configured(g) && Patched(g) && Streaming(g) && Indexed(g)
  }

  // ----- configs and their keys -----

  lemma PortOfUnique(configs: seq<Config>, i: nat)
    requires Unique(ConfigIds(configs)) && i < |configs|
    ensures configs[i].id in ConfigIds(configs) && PortOf(configs, configs[i].id) == configs[i].port
  {
    FindUnique(ConfigIds(configs), i);
    assert ConfigIds(configs)[i] == configs[i].id;
  }

  lemma NamedIsConfig(g: Graph, i: nat, config: int)
    requires Patched(g) && i < |g.patches| && Names(g.patches[i], config)
    ensures config in ConfigIds(g.configs)
  {
    var p := g.patches[i];
    assert GoodPatch(g.configs, p);
    if config in p.sources {
      var k :| 0 <= k < |p.sources| && p.sources[k] == config;
    } else {
      var k :| 0 <= k < |p.sinks| && p.sinks[k] == config;
    }
  }

  /** A config that a patch names is a key of the index, and so is its port. */
  lemma NamedIsUsed(g: Graph, i: nat, config: int)
    requires Patched(g) && Indexed(g) && i < |g.patches| && Names(g.patches[i], config)
    ensures config in ConfigIds(g.configs) && Uses(g.index, config) && Uses(g.index, PortOf(g.configs, config))
  {
    NamedIsConfig(g, i, config);
    KeyIsUsed(g, i, config, config);
    KeyIsUsed(g, i, config, PortOf(g.configs, config));
  }

  lemma KeyIsUsed(g: Graph, i: nat, config: int, key: int)
    requires Indexed(g) && i < |g.patches| && Names(g.patches[i], config) && KeyOf(g.configs, config, key)
    ensures Uses(g.index, key)
  {
    IndexIsExact(g.configs, g.patches, key, g.patches[i].id);
    assert (key, g.patches[i].id) in g.index;
  }

  /** Configs may change as long as those that patches and streams use keep their ports. */
  ghost predicate KeepsUsed(g: Graph, configs': seq<Config>) {
    && (forall i: nat, config {:trigger Names(g.patches[i], config)} | i < |g.patches| &&
        Names(g.patches[i], config) && config in ConfigIds(g.configs) ::
          config in ConfigIds(configs') && PortOf(configs', config) == PortOf(g.configs, config))
    && (forall id {:trigger GoodStream(g, id)} | id in g.streams.open && id in ConfigIds(g.configs) ::
          id in ConfigIds(configs') && PortOf(configs', id) == PortOf(g.configs, id))
  }

  lemma ConfigsChange(g: Graph, configs': seq<Config>)
    requires Patched(g) && Streaming(g) && Indexed(g) && KeepsUsed(g, configs')
    ensures var g' := g.(configs := configs'); Patched(g') && Streaming(g') && Indexed(g')
  {
    var g' := g.(configs := configs');
    forall i | 0 <= i < |g.patches|
      ensures SamePorts(g.configs, configs', g.patches[i].sources) && SamePorts(g.configs, configs', g.patches[i].sinks)
      ensures GoodPatch(configs', g.patches[i])
    {
      var p := g.patches[i];
      assert GoodPatch(g.configs, p);
      forall k | 0 <= k < |p.sources|
        ensures p.sources[k] in ConfigIds(configs') && PortOf(configs', p.sources[k]) == PortOf(g.configs, p.sources[k])
      {
        assert Names(p, p.sources[k]);
      }
      forall k | 0 <= k < |p.sinks|
        ensures p.sinks[k] in ConfigIds(configs') && PortOf(configs', p.sinks[k]) == PortOf(g.configs, p.sinks[k])
      {
        assert Names(p, p.sinks[k]);
      }
    }
    SameIndex(g.configs, configs', g.patches);
    forall id | id in g'.streams.open
      ensures GoodStream(g', id)
    {
      assert GoodStream(g, id);
    }
  }

  // ----- port configs -----

  lemma AppendedConfig(configs: seq<Config>, c: Config, id: int)
    requires c.id !in ConfigIds(configs)
    ensures ConfigIds(configs + [c]) == ConfigIds(configs) + [c.id]
    ensures id in ConfigIds(configs) ==>
        id in ConfigIds(configs + [c]) && PortOf(configs + [c], id) == PortOf(configs, id)
  {
    assert ConfigIds(configs + [c]) == ConfigIds(configs) + [c.id];
    FindAppend(ConfigIds(configs), c.id, id);
  }

  lemma NewConfigKeeps(g: Graph, c: Config)
    requires Integral(g) && c.id == g.wiring.nextPortId && c.port in PortIds(g.wiring.ports)
    ensures Integral(g.(configs := g.configs + [c], wiring := g.wiring.(nextPortId := c.id + 1)))
  {
    var configs' := g.configs + [c];
    FreshIsNew(g);
    assert c.id !in ConfigIds(g.configs) && c.id !in PortIds(g.wiring.ports);
    forall id | id in ConfigIds(g.configs)
      ensures id in ConfigIds(configs') && PortOf(configs', id) == PortOf(g.configs, id)
    {
      AppendedConfig(g.configs, c, id);
    }
    AppendedConfig(g.configs, c, c.id);
    ConfigsChange(g, configs');
    var g' := g.(configs := configs', wiring := g.wiring.(nextPortId := c.id + 1));
    WiredLater(g.wiring, c.id + 1);
    NewIsConfigured(g, c, g');
    StreamsAside(g.(configs := configs'), g');
  }

  lemma FreshIsNew(g: Graph)
    requires Wired(g.wiring) && Configured(g)
    ensures g.wiring.nextPortId !in ConfigIds(g.configs) && g.wiring.nextPortId !in PortIds(g.wiring.ports)
  {
  }

  lemma NewIsConfigured(g: Graph, c: Config, g': Graph)
    requires Configured(g) && c.id == g.wiring.nextPortId && 0 < c.id && c.port in PortIds(g.wiring.ports)
    requires c.id !in PortIds(g.wiring.ports)
    requires g' == g.(configs := g.configs + [c], wiring := g.wiring.(nextPortId := c.id + 1))
    ensures Configured(g')
  {
    AppendedConfig(g.configs, c, c.id);
    forall i | 0 <= i < |g'.configs|
      ensures GoodConfig(g', g'.configs[i])
    {
      assert i < |g.configs| ==> GoodConfig(g, g.configs[i]);
    }
    forall i | 0 <= i < |g.initials|
      ensures GoodInitial(g', g.initials[i])
    {
      assert GoodInitial(g, g.initials[i]);
      AppendedConfig(g.configs, c, g.initials[i].id);
    }
  }

  lemma WiredLater(w: Wiring, next: int)
    requires Wired(w) && w.nextPortId <= next
    ensures Wired(w.(nextPortId := next))
  {
    var w' := w.(nextPortId := next);
    forall i | 0 <= i < |w.routes|
      ensures GoodRoute(w', w.routes[i])
    {
      assert GoodRoute(w, w.routes[i]);
    }
    forall c | c in w.connected
      ensures GoodHold(w', c)
    {
      assert GoodHold(w, c);
    }
  }

  lemma StreamsAside(g: Graph, g': Graph)
    requires Streaming(g) && g'.streams.open == g.streams.open && g'.configs == g.configs
    ensures Streaming(g')
  {
    forall id | id in g'.streams.open
      ensures GoodStream(g', id)
    {
      assert GoodStream(g, id);
    }
  }

  lemma ReplacedConfig(configs: seq<Config>, k: nat, c: Config, id: int)
    requires k < |configs| && c.id == configs[k].id && c.port == configs[k].port
    ensures ConfigIds(configs[k := c]) == ConfigIds(configs)
    ensures id in ConfigIds(configs) ==> PortOf(configs[k := c], id) == PortOf(configs, id)
  {
    assert ConfigIds(configs[k := c]) == ConfigIds(configs);
  }

  lemma ChangedIsConfigured(g: Graph, k: nat, c: Config)
    requires Configured(g) && k < |g.configs| && c.id == g.configs[k].id && c.port == g.configs[k].port
    ensures Configured(g.(configs := g.configs[k := c]))
  {
    var configs' := g.configs[k := c];
    var g' := g.(configs := configs');
    ReplacedConfig(g.configs, k, c, c.id);
    forall i | 0 <= i < |configs'|
      ensures GoodConfig(g', configs'[i])
    {
      assert GoodConfig(g, g.configs[i]);
    }
    forall i | 0 <= i < |g.initials|
      ensures GoodInitial(g', g.initials[i])
    {
      assert GoodInitial(g, g.initials[i]);
      ReplacedConfig(g.configs, k, c, g.initials[i].id);
    }
  }

  lemma ChangedConfigKeeps(g: Graph, k: nat, c: Config)
    requires Integral(g) && k < |g.configs| && c.id == g.configs[k].id && c.port == g.configs[k].port
    ensures Integral(g.(configs := g.configs[k := c]))
  {
    var configs' := g.configs[k := c];
    forall id | id in ConfigIds(g.configs)
      ensures id in ConfigIds(configs') && PortOf(configs', id) == PortOf(g.configs, id)
    {
      ReplacedConfig(g.configs, k, c, id);
    }
    ConfigsChange(g, configs');
    ChangedIsConfigured(g, k, c);
  }

  lemma ConfigWithout(configs: seq<Config>, k: nat, id: int)
    requires k < |configs| && Unique(ConfigIds(configs)) && id in ConfigIds(configs) && id != configs[k].id
    ensures ConfigIds(Without(configs, k)) == Without(ConfigIds(configs), k)
    ensures id in ConfigIds(Without(configs, k)) && PortOf(Without(configs, k), id) == PortOf(configs, id)
  {
    var rest := Without(configs, k);
    var i := Find(ConfigIds(configs), id);
    ConfigIdsWithout(configs, k);
    assert id in ConfigIds(rest) && Find(ConfigIds(rest), id) == (if i < k then i else i - 1) by {
      FindWithout(ConfigIds(configs), k, id);
    }
    ElementStays(configs, k, i);
  }

  lemma ConfigIdsWithout(configs: seq<Config>, k: nat)
    requires k < |configs|
    ensures ConfigIds(Without(configs, k)) == Without(ConfigIds(configs), k)
  {
  }

  lemma ElementStays<T>(s: seq<T>, k: nat, i: nat)
    requires k < |s| && i < |s| && i != k
    ensures Without(s, k)[if i < k then i else i - 1] == s[i]
  {
  }

  lemma RemovedConfigKeeps(g: Graph, k: nat)
    requires Integral(g) && k < |g.configs|
    requires g.configs[k].id !in g.streams.open && !Uses(g.index, g.configs[k].id)
    requires g.configs[k].id !in ConfigIds(g.initials)
    ensures Integral(g.(configs := Without(g.configs, k)))
  {
    var (id, configs') := (g.configs[k].id, Without(g.configs, k));
    assert ConfigIds(configs') == Without(ConfigIds(g.configs), k);
    FindWithout(ConfigIds(g.configs), k, id);
    forall other | other in ConfigIds(g.configs) && other != id
      ensures other in ConfigIds(configs') && PortOf(configs', other) == PortOf(g.configs, other)
    {
      ConfigWithout(g.configs, k, other);
    }
    assert KeepsUsed(g, configs') by {
      forall i: nat | i < |g.patches| && Names(g.patches[i], id)
        ensures false
      {
        NamedIsUsed(g, i, id);
      }
    }
    ConfigsChange(g, configs');
    RemovedIsConfigured(g, k);
  }

  lemma RemovedIsConfigured(g: Graph, k: nat)
    requires Configured(g) && k < |g.configs| && g.configs[k].id !in ConfigIds(g.initials)
    ensures Configured(g.(configs := Without(g.configs, k)))
  {
    var (id, configs') := (g.configs[k].id, Without(g.configs, k));
    var g' := g.(configs := configs');
    assert ConfigIds(configs') == Without(ConfigIds(g.configs), k);
    FindWithout(ConfigIds(g.configs), k, id);
    forall i | 0 <= i < |configs'|
      ensures GoodConfig(g', configs'[i])
    {
      assert GoodConfig(g, g.configs[if i < k then i else i + 1]);
    }
    forall i | 0 <= i < |g.initials|
      ensures GoodInitial(g', g.initials[i])
    {
      assert GoodInitial(g, g.initials[i]) && ConfigIds(g.initials)[i] != id;
      ConfigWithout(g.configs, k, g.initials[i].id);
    }
  }

  // ----- patches -----

  /** Streams that switched between patches are still those of existing configs. */
  lemma SwitchedStreams(g: Graph, was: Connections, wanted: Connections)
    requires Streaming(g)
    ensures Streaming(g.(streams := Switch(g.streams, was, wanted).0))
  {
    SwitchFollows(g.streams, was, wanted);
    var g' := g.(streams := Switch(g.streams, was, wanted).0);
    forall id | id in g'.streams.open
      ensures GoodStream(g', id)
    {
      assert GoodStream(g, id);
    }
  }

  lemma SwitchFollows(s: Streams, was: Connections, wanted: Connections)
    ensures Follows(s, Switch(s, was, wanted).0)
  {
    var d := DisconnectPass(s, Ascending(was.Keys), wanted);
    DisconnectPassIs(s, Ascending(was.Keys), wanted);
    FollowsRestored(d.streams, Ascending(d.touched), was, false);
    var c := ConnectPass(d.streams, Ascending(wanted.Keys), was, wanted);
    ConnectPassIs(d.streams, Ascending(wanted.Keys), was, wanted);
    FollowsRestored(c.streams, Ascending(d.touched), was, false);
    FollowsRestored(Restored(c.streams, Ascending(d.touched), was, false), Ascending(c.touched), was, true);
  }

  lemma CreatedKeeps(g: Graph, p: Patch)
    requires Integral(g) && p.id == g.nextPatchId && GoodPatch(g.configs, p) && Created(g, p).1 == Done
    ensures Integral(Created(g, p).0)
  {
    AddingOne(g.configs, g.patches, p);
    var g' := Created(g, p).0;
    PatchAdded(g, p, g');
    SwitchedStreams(g, ConnectionsOf(g.streams, NO_PATCH), ConnectionsOf(g.streams, p));
    StreamsAside(g.(streams := g'.streams), g');
    ConfigsAside(g, g');
  }

  lemma PatchAdded(g: Graph, p: Patch, g': Graph)
    requires Patched(g) && p.id == g.nextPatchId && GoodPatch(g.configs, p)
    requires g'.patches == g.patches + [p] && g'.nextPatchId == p.id + 1 && g'.configs == g.configs
    ensures Patched(g')
  {
    assert PatchIds(g'.patches) == PatchIds(g.patches) + [p.id];
    forall i | 0 <= i < |g'.patches|
      ensures GoodPatch(g'.configs, g'.patches[i])
    {
      assert i < |g.patches| ==> GoodPatch(g.configs, g.patches[i]);
    }
  }

  lemma PatchRemoved(g: Graph, k: nat, g': Graph)
    requires Patched(g) && k < |g.patches|
    requires g'.patches == Without(g.patches, k) && g'.nextPatchId == g.nextPatchId && g'.configs == g.configs
    ensures Patched(g')
  {
    WithoutIds(g.patches, k);
    forall i | 0 <= i < |g'.patches|
      ensures GoodPatch(g'.configs, g'.patches[i])
    {
      assert GoodPatch(g.configs, g.patches[if i < k then i else i + 1]);
    }
  }

  /** Nothing about configs and ports depends on patches and streams. */
  lemma ConfigsAside(g: Graph, g': Graph)
    requires Configured(g) && g'.wiring == g.wiring && g'.configs == g.configs && g'.initials == g.initials
    ensures Configured(g')
  {
    forall i | 0 <= i < |g'.configs|
      ensures GoodConfig(g', g'.configs[i])
    {
      assert GoodConfig(g, g.configs[i]);
    }
    forall i | 0 <= i < |g'.initials|
      ensures GoodInitial(g', g'.initials[i])
    {
      assert GoodInitial(g, g.initials[i]);
    }
  }

  lemma UpdatedKeeps(g: Graph, k: nat, p: Patch)
    requires Integral(g) && k < |g.patches| && p.id == g.patches[k].id && GoodPatch(g.configs, p)
    requires Updated(g, k, p).1 == Done
    ensures Integral(Updated(g, k, p).0)
  {
    ReplacingOne(g.configs, g.patches, k, p);
    var g' := Updated(g, k, p).0;
    assert PatchIds(g'.patches) == PatchIds(g.patches);
    SwitchedStreams(g, ConnectionsOf(g.streams, g.patches[k]), ConnectionsOf(g.streams, p));
    StreamsAside(g.(streams := g'.streams), g');
    ConfigsAside(g, g');
  }

  lemma SetPatchKeeps(g: Graph, p: Patch, matches: bool, sized: bool)
    requires Integral(g) && SetPatch(g, p, matches, sized).1 != Refused && SetPatch(g, p, matches, sized).1 != Undefined
    ensures Integral(SetPatch(g, p, matches, sized).0)
  {
    if SetPatch(g, p, matches, sized).1 == Done {
      assert GoodPatch(g.configs, p);
      if p.id == 0 {
        CreatedKeeps(g, p.(id := g.nextPatchId));
      } else {
        UpdatedKeeps(g, Find(PatchIds(g.patches), p.id), p);
      }
    }
  }

  lemma ResetPatchKeeps(g: Graph, id: int)
    requires Integral(g)
    ensures Integral(ResetPatch(g, id).0)
  {
    var (g', outcome) := ResetPatch(g, id);
    var k := Find(PatchIds(g.patches), id);
    if k >= 0 {
      assert g.patches[k].id == id;
      SwitchedStreams(g, ConnectionsOf(g.streams, g.patches[k]), ConnectionsOf(g.streams, NO_PATCH));
      StreamsAside(g.(streams := g'.streams), g');
      ConfigsAside(g, g');
      if outcome == Done {
        CleaningRemovesOne(g.configs, g.patches, k);
        PatchRemoved(g, k, g');
      }
    }
  }

  // ----- port configs, by request -----

  lemma SetConfigKeeps(g: Graph, r: Request)
    requires Integral(g)
    ensures Integral(SetConfig(g, r).0)
  {
    var (g', outcome, applied) := SetConfig(g, r);
    if applied {
      var k := Find(ConfigIds(g.configs), r.id);
      var port := if r.id != 0 then g.configs[k].port else r.port;
      var p := g.wiring.ports[Find(PortIds(g.wiring.ports), port)];
      if r.id != 0 {
        ChangedConfigKeeps(g, k, Suggested(p, g.configs[k], r));
      } else {
        DefaultIsOfPort(p, p.profiles);
        NewConfigKeeps(g, Suggested(p, DefaultConfig(p).value, r).(id := g.wiring.nextPortId));
      }
    }
  }

  /** Ports and configs stay in order whatever became of patches and streams. */
  lemma SetConfigKeepsGround(g: Graph, r: Request)
    requires Wired(g.wiring) && Configured(g)
    ensures var g' := SetConfig(g, r).0; Wired(g'.wiring) && Configured(g')
  {
    var (g', outcome, applied) := SetConfig(g, r);
    if applied {
      var k := Find(ConfigIds(g.configs), r.id);
      var port := if r.id != 0 then g.configs[k].port else r.port;
      var p := g.wiring.ports[Find(PortIds(g.wiring.ports), port)];
      if r.id != 0 {
        ChangedIsConfigured(g, k, Suggested(p, g.configs[k], r));
      } else {
        DefaultIsOfPort(p, p.profiles);
        FreshIsNew(g);
        WiredLater(g.wiring, g.wiring.nextPortId + 1);
        NewIsConfigured(g, Suggested(p, DefaultConfig(p).value, r).(id := g.wiring.nextPortId), g');
      }
    }
  }

  lemma ResetConfigKeepsGround(g: Graph, id: int)
    requires Wired(g.wiring) && Configured(g)
    ensures var g' := ResetConfig(g, id).0; Wired(g'.wiring) && Configured(g')
  {
    var k := Find(ConfigIds(g.configs), id);
    if ResetConfig(g, id).1 == Done {
      assert g.configs[k].id == id;
      var i := Find(ConfigIds(g.initials), id);
      if i < 0 {
        RemovedIsConfigured(g, k);
      } else {
        assert GoodInitial(g, g.initials[i]);
        PortOfUnique(g.configs, k);
        ChangedIsConfigured(g, k, g.initials[i]);
      }
    }
  }

  lemma {:induction false} DefaultIsOfPort(p: Port, profiles: seq<Profile>)
    ensures DefaultFrom(p, profiles).Some? ==> DefaultFrom(p, profiles).value.port == p.id
  {
    if profiles != [] {
      DefaultIsOfPort(p, profiles[1..]);
    }
  }

  lemma ResetConfigKeeps(g: Graph, id: int)
    requires Integral(g)
    ensures Integral(ResetConfig(g, id).0)
  {
    var k := Find(ConfigIds(g.configs), id);
    if ResetConfig(g, id).1 == Done {
      assert g.configs[k].id == id;
      var i := Find(ConfigIds(g.initials), id);
      if i < 0 {
        RemovedConfigKeeps(g, k);
      } else {
        assert GoodInitial(g, g.initials[i]);
        PortOfUnique(g.configs, k);
        ChangedConfigKeeps(g, k, g.initials[i]);
      }
    }
  }

  // ----- devices -----

  /** Configs survive a change of the wiring that keeps the ports they are on. */
  lemma WiringKeepsConfigured(g: Graph, w': Wiring)
    requires Wired(g.wiring) && Configured(g) && g.wiring.nextPortId <= w'.nextPortId
    requires forall i | 0 <= i < |g.configs| :: g.configs[i].port in PortIds(w'.ports)
    requires forall id | id in PortIds(w'.ports) :: id in PortIds(g.wiring.ports) || id >= g.wiring.nextPortId
    requires forall c | c in w'.connected :: c in g.wiring.connected || c >= g.wiring.nextPortId
    ensures Configured(g.(wiring := w'))
  {
    var g' := g.(wiring := w');
    forall i | 0 <= i < |g.configs|
      ensures GoodConfig(g', g.configs[i])
    {
      assert GoodConfig(g, g.configs[i]) && ConfigIds(g.configs)[i] < g.wiring.nextPortId;
    }
    forall i | 0 <= i < |g.initials|
      ensures GoodInitial(g', g.initials[i])
    {
      assert GoodInitial(g, g.initials[i]);
      var k := Find(ConfigIds(g.configs), g.initials[i].id);
      assert GoodConfig(g, g.configs[k]);
      PortsAreOld(g.wiring, g.configs[k].port);
    }
  }

  /** Patches, streams and the index do not depend on the wiring. */
  lemma WiringChanges(g: Graph, w': Wiring)
    requires Integral(g) && Wired(w') && Configured(g.(wiring := w'))
    ensures Integral(g.(wiring := w'))
  {
    StreamsAside(g, g.(wiring := w'));
  }

  lemma PortsAreOld(w: Wiring, id: int)
    requires Wired(w) && id in PortIds(w.ports)
    ensures 0 < id < w.nextPortId
  {
    var k :| 0 <= k < |w.ports| && PortIds(w.ports)[k] == id;
  }

  lemma AttachableIsPluggable(w: Wiring, template: int, descriptors: seq<int>, address: string, profiles: seq<Profile>)
    requires Wired(w) && Attachable(w, template)
    ensures Pluggable(w.(nextPortId := w.nextPortId + 1), template,
        Connecting(w, template, descriptors, address, profiles))
    ensures w.nextPortId !in w.connected
  {
    WiredLater(w, w.nextPortId + 1);
    if w.nextPortId in PortIds(w.ports) {
      PortsAreOld(w, w.nextPortId);
    }
    if w.nextPortId in w.connected && GoodHold(w, w.nextPortId) {
      assert false;
    }
  }

  lemma ConnectKeepsWired(
      w: Wiring, template: int, descriptors: seq<int>, address: string, populated: Option<seq<Profile>>)
    requires Wired(w)
    ensures Wired(Connect(w, template, descriptors, address, populated).0)
  {
    var w1 := w.(nextPortId := w.nextPortId + 1);
    WiredLater(w, w.nextPortId + 1);
    if Connect(w, template, descriptors, address, populated).1.Ok? {
      AttachableIsPluggable(w, template, descriptors, address, populated.value);
      PluggedIsWired(w1, template, Connecting(w, template, descriptors, address, populated.value));
    }
  }

  lemma ConnectKeepsGround(
      g: Graph, template: int, descriptors: seq<int>, address: string, populated: Option<seq<Profile>>)
    requires Wired(g.wiring) && Configured(g)
    ensures var w' := Connect(g.wiring, template, descriptors, address, populated).0;
            Wired(w') && Configured(g.(wiring := w'))
  {
    var w := g.wiring;
    var (w', status) := Connect(w, template, descriptors, address, populated);
    ConnectKeepsWired(w, template, descriptors, address, populated);
    forall i | 0 <= i < |g.configs|
      ensures g.configs[i].port in PortIds(w.ports)
    {
      assert GoodConfig(g, g.configs[i]);
    }
    if status.Ok? {
      AttachableIsPluggable(w, template, descriptors, address, populated.value);
      PluggedPorts(w.(nextPortId := w.nextPortId + 1), template,
                   Connecting(w, template, descriptors, address, populated.value));
    }
    WiringKeepsConfigured(g, w');
  }

  lemma ConnectKeeps(g: Graph, template: int, descriptors: seq<int>, address: string, populated: Option<seq<Profile>>)
    requires Integral(g)
    ensures Integral(g.(wiring := Connect(g.wiring, template, descriptors, address, populated).0))
  {
    ConnectKeepsGround(g, template, descriptors, address, populated);
    WiringChanges(g, Connect(g.wiring, template, descriptors, address, populated).0);
  }

  /** No config is left on a connected device that a client could not have put there. */
  lemma ClientConfigs(g: Graph, port: int)
    requires Configured(g) && port in g.wiring.connected && !HasClientConfig(g.configs, g.initials, port)
    ensures forall i | 0 <= i < |g.configs| :: g.configs[i].port != port
  {
    forall i | 0 <= i < |g.configs|
      ensures g.configs[i].port != port
    {
      if g.configs[i].port == port {
        var k := Find(ConfigIds(g.initials), g.configs[i].id);
        if GoodInitial(g, g.initials[k]) {
          assert false;
        }
      }
    }
  }

  lemma DisconnectKeepsGround(g: Graph, port: int)
    requires Wired(g.wiring) && Configured(g)
    ensures var w' := Disconnect(g.wiring, g.configs, g.initials, port).0; Wired(w') && Configured(g.(wiring := w'))
  {
    var (w', status) := Disconnect(g.wiring, g.configs, g.initials, port);
    if status.Ok? {
      UnpluggedIsWired(g.wiring, port);
      UnpluggedPorts(g.wiring, port);
      ClientConfigs(g, port);
      forall i | 0 <= i < |g.configs|
        ensures g.configs[i].port in PortIds(w'.ports)
      {
        assert GoodConfig(g, g.configs[i]);
      }
      WiringKeepsConfigured(g, w');
    }
  }

  lemma DisconnectKeeps(g: Graph, port: int)
    requires Integral(g)
    ensures Integral(g.(wiring := Disconnect(g.wiring, g.configs, g.initials, port).0))
  {
    DisconnectKeepsGround(g, port);
    WiringChanges(g, Disconnect(g.wiring, g.configs, g.initials, port).0);
  }

  // ----- streams -----

  lemma OpenStreamKeeps(g: Graph, config: int, takes: bool)
    requires Integral(g)
    ensures Integral(OpenStream(g, config, takes).0)
  {
    var g' := OpenStream(g, config, takes).0;
    ConfigsAside(g, g');
    forall id | id in g'.streams.open
      ensures GoodStream(g', id)
    {
      assert id in g.streams.open ==> GoodStream(g, id);
    }
  }

  lemma CloseStreamKeeps(g: Graph, config: int)
    requires Integral(g)
    ensures Integral(CloseStream(g, config))
  {
    var g' := CloseStream(g, config);
    ConfigsAside(g, g');
    forall id | id in g'.streams.open
      ensures GoodStream(g', id)
    {
      assert GoodStream(g, id);
    }
  }
}
