/** Runs of the module: what holds after any operations, and what a refused update breaks. */
module GraphRuns {
  import opened GraphModel
  import opened GraphWiring
  import opened GraphOperations
  import opened GraphIndex
  import opened GraphIntegrity
  import opened GraphExclusive

  // ----- runs -----

  datatype Event =
    | ConnectDevice(template: int, descriptors: seq<int>, address: string, populated: Option<seq<Profile>>)
    | DisconnectDevice(port: int)
    | SetAudioPatch(patch: Patch, matches: bool, sized: bool)
    | ResetAudioPatch(patchId: int)
    | SetAudioPortConfig(request: Request)
    | ResetAudioPortConfig(configId: int)
    | OpenOnConfig(config: int, takes: bool)
    | CloseOnConfig(config: int)

  ghost function Step(g: Graph, e: Event): Graph {
    match e
    case ConnectDevice(template, descriptors, address, populated) =>
      g.(wiring := Connect(g.wiring, template, descriptors, address, populated).0)
    case DisconnectDevice(port) => g.(wiring := Disconnect(g.wiring, g.configs, g.initials, port).0)
    case SetAudioPatch(patch, matches, sized) => SetPatch(g, patch, matches, sized).0
    case ResetAudioPatch(patchId) => ResetPatch(g, patchId).0
    case SetAudioPortConfig(request) => SetConfig(g, request).0
    case ResetAudioPortConfig(configId) => ResetConfig(g, configId).0
    case OpenOnConfig(config, takes) => OpenStream(g, config, takes).0
    case CloseOnConfig(config) => CloseStream(g, config)
  }

  /** No stream refuses its devices while a patch is being set. */
  ghost predicate Smooth(g: Graph, e: Event) {
    e.SetAudioPatch? ==> var r := SetPatch(g, e.patch, e.matches, e.sized).1; r != Refused && r != Undefined
  }

  ghost function Run(g: Graph, es: seq<Event>): Graph
    decreases |es|
  {
    if es == [] then g else Run(Step(g, es[0]), es[1..])
  }

  ghost predicate AllSmooth(g: Graph, es: seq<Event>)
    decreases |es|
  {
    es == [] || (Smooth(g, es[0]) && AllSmooth(Step(g, es[0]), es[1..]))
  }

  /** The module before any device was connected. */
  ghost predicate Initial(g: Graph) {
    Integral(g) && Unshared(g) && g.wiring.connected == map[]
  }

  /** What holds of ports and configs even when streams refuse. */
  ghost predicate Grounded(g: Graph, origin: seq<Port>) {
    Wired(g.wiring) && Configured(g) && Counted(g.wiring, origin) && FreshIds(PortIds(origin), g.wiring.nextPortId)
  }

  lemma StepKeepsIntegrity(g: Graph, e: Event)
    requires Integral(g) && Smooth(g, e)
    ensures Integral(Step(g, e))
  {
    match e
    case ConnectDevice(template, descriptors, address, populated) =>
      ConnectKeeps(g, template, descriptors, address, populated);
    case DisconnectDevice(port) => DisconnectKeeps(g, port);
    case SetAudioPatch(patch, matches, sized) => SetPatchKeeps(g, patch, matches, sized);
    case ResetAudioPatch(patchId) => ResetPatchKeeps(g, patchId);
    case SetAudioPortConfig(request) => SetConfigKeeps(g, request);
    case ResetAudioPortConfig(configId) => ResetConfigKeeps(g, configId);
    case OpenOnConfig(config, takes) => OpenStreamKeeps(g, config, takes);
    case CloseOnConfig(config) => CloseStreamKeeps(g, config);
  }

  lemma StepKeepsUnshared(g: Graph, e: Event)
    requires Integral(g) && Unshared(g) && Smooth(g, e)
    ensures Unshared(Step(g, e))
  {
    match e
    case ConnectDevice(template, descriptors, address, populated) =>
      ConnectUnshared(g, template, descriptors, address, populated);
    case DisconnectDevice(port) => DisconnectUnshared(g, port);
    case SetAudioPatch(patch, matches, sized) => SetPatchUnshared(g, patch, matches, sized);
    case ResetAudioPatch(patchId) => ResetPatchUnshared(g, patchId);
    case SetAudioPortConfig(request) => SetConfigUnshared(g, request);
    case ResetAudioPortConfig(configId) => ResetConfigUnshared(g, configId);
    case OpenOnConfig(config, takes) => StreamsUnshared(g, OpenStream(g, config, takes).0);
    case CloseOnConfig(config) => StreamsUnshared(g, CloseStream(g, config));
  }

  lemma StreamsUnshared(g: Graph, g': Graph)
    requires Unshared(g) && g'.wiring == g.wiring && g'.configs == g.configs && g'.patches == g.patches
    ensures Unshared(g')
  {
    forall i: nat, j: nat | i < |g'.patches| && j < |g'.patches| && i != j
      ensures ApartAt(g', i, j)
    {
      assert ApartAt(g, i, j);
    }
  }

  lemma ResetPatchUnshared(g: Graph, id: int)
    requires Unshared(g)
    ensures Unshared(ResetPatch(g, id).0)
  {
    var (g', outcome) := ResetPatch(g, id);
    if outcome == Done {
      FewerUnshared(g, Find(PatchIds(g.patches), id), g');
    } else {
      StreamsUnshared(g, g');
    }
  }

  lemma ConnectKeepsCount(w: Wiring, origin: seq<Port>, e: Event)
    requires Wired(w) && Counted(w, origin) && FreshIds(PortIds(origin), w.nextPortId) && e.ConnectDevice?
    ensures Counted(Connect(w, e.template, e.descriptors, e.address, e.populated).0, origin)
  {
    var (w', status) := Connect(w, e.template, e.descriptors, e.address, e.populated);
    var w1 := w.(nextPortId := w.nextPortId + 1);
    CountedLater(w, w1, origin);
    if status.Ok? {
      AttachableIsPluggable(w, e.template, e.descriptors, e.address, e.populated.value);
      PluggedKeepsCount(w1, origin, e.template, Connecting(w, e.template, e.descriptors, e.address, e.populated.value));
    }
  }

  lemma CountedLater(w: Wiring, w': Wiring, origin: seq<Port>)
    requires Counted(w, origin) && w'.ports == w.ports && w'.connected == w.connected
    ensures Counted(w', origin)
  {
    forall i | 0 <= i < |w'.ports|
      ensures CountedAt(w', origin, i)
    {
      assert CountedAt(w, origin, i);
    }
  }

  lemma StepKeepsCount(g: Graph, e: Event, origin: seq<Port>)
    requires Wired(g.wiring) && Counted(g.wiring, origin) && FreshIds(PortIds(origin), g.wiring.nextPortId)
    ensures Counted(Step(g, e).wiring, origin)
  {
    match e
    case ConnectDevice(_, _, _, _) => ConnectKeepsCount(g.wiring, origin, e);
    case DisconnectDevice(port) =>
      if Disconnect(g.wiring, g.configs, g.initials, port).1.Ok? {
        UnpluggedKeepsCount(g.wiring, origin, port);
      }
    case _ =>
      OthersKeepWiring(g, e);
      CountedLater(g.wiring, Step(g, e).wiring, origin);
  }

  lemma OthersKeepWiring(g: Graph, e: Event)
    requires !e.ConnectDevice? && !e.DisconnectDevice?
    ensures Step(g, e).wiring == g.wiring.(nextPortId := Step(g, e).wiring.nextPortId)
  {
    match e
    case SetAudioPatch(patch, matches, sized) => SetPatchSpendsIds(g, patch, matches, sized);
    case ResetAudioPatch(patchId) => ResetPatchSpendsIds(g, patchId);
    case _ =>
  }

  /** Every operation leaves ids spent, and gives out at most the next one. */
  lemma StepSpendsIds(g: Graph, e: Event)
    ensures g.wiring.nextPortId <= Step(g, e).wiring.nextPortId && g.nextPatchId <= Step(g, e).nextPatchId
  {
    match e
    case SetAudioPatch(patch, matches, sized) => SetPatchSpendsIds(g, patch, matches, sized);
    case ResetAudioPatch(patchId) => ResetPatchSpendsIds(g, patchId);
    case _ =>
  }

  lemma SetPatchSpendsIds(g: Graph, p: Patch, matches: bool, sized: bool)
    ensures var g' := SetPatch(g, p, matches, sized).0;
            && g'.wiring == g.wiring && g'.configs == g.configs && g'.initials == g.initials
            && g.nextPatchId <= g'.nextPatchId
  {
  }

  lemma ResetPatchSpendsIds(g: Graph, id: int)
    ensures var g' := ResetPatch(g, id).0;
            && g'.wiring == g.wiring && g'.configs == g.configs && g'.initials == g.initials
            && g'.nextPatchId == g.nextPatchId
  {
  }

  lemma {:induction false} RunKeepsIntegrity(g: Graph, es: seq<Event>)
    requires Integral(g) && Unshared(g) && AllSmooth(g, es)
    ensures Integral(Run(g, es)) && Unshared(Run(g, es))
    decreases |es|
  {
    if es != [] {
      StepKeepsIntegrity(g, es[0]);
      StepKeepsUnshared(g, es[0]);
      RunKeepsIntegrity(Step(g, es[0]), es[1..]);
    }
  }

  /**
  Integrity over whole runs: ids are unique, every reference has its target, the index holds exactly what
  patches and configs imply, and no two patches share a port that is reached only exclusively.
  */
  lemma GraphKeepsIntegrity(g: Graph, es: seq<Event>)
    requires Initial(g) && AllSmooth(g, es)
    ensures Integral(Run(g, es)) && Unshared(Run(g, es))
  {
    RunKeepsIntegrity(g, es);
  }

  lemma StepKeepsGround(g: Graph, e: Event)
    requires Wired(g.wiring) && Configured(g)
    ensures Wired(Step(g, e).wiring) && Configured(Step(g, e))
  {
    match e
    case ConnectDevice(template, descriptors, address, populated) =>
      ConnectKeepsGround(g, template, descriptors, address, populated);
    case DisconnectDevice(port) => DisconnectKeepsGround(g, port);
    case SetAudioPatch(patch, matches, sized) =>
      SetPatchSpendsIds(g, patch, matches, sized);
      ConfigsAside(g, SetPatch(g, patch, matches, sized).0);
    case ResetAudioPatch(patchId) =>
      ResetPatchSpendsIds(g, patchId);
      ConfigsAside(g, ResetPatch(g, patchId).0);
    case SetAudioPortConfig(request) => SetConfigKeepsGround(g, request);
    case ResetAudioPortConfig(configId) => ResetConfigKeepsGround(g, configId);
    case OpenOnConfig(config, takes) => ConfigsAside(g, OpenStream(g, config, takes).0);
    case CloseOnConfig(config) => ConfigsAside(g, CloseStream(g, config));
  }

  /** Over all runs, refused updates included, ports, routes and configs keep their order. */
  lemma {:induction false} RunKeepsGround(g: Graph, es: seq<Event>)
    requires Wired(g.wiring) && Configured(g)
    ensures Wired(Run(g, es).wiring) && Configured(Run(g, es))
    decreases |es|
  {
    if es != [] {
      StepKeepsGround(g, es[0]);
      RunKeepsGround(Step(g, es[0]), es[1..]);
    }
  }

  lemma StepKeepsWired(g: Graph, e: Event)
    requires Wired(g.wiring)
    ensures Wired(Step(g, e).wiring)
  {
    match e
    case ConnectDevice(template, descriptors, address, populated) =>
      ConnectKeepsWired(g.wiring, template, descriptors, address, populated);
    case DisconnectDevice(port) =>
      if Disconnect(g.wiring, g.configs, g.initials, port).1.Ok? {
        UnpluggedIsWired(g.wiring, port);
      }
    case _ =>
      OthersKeepWiring(g, e);
      StepSpendsIds(g, e);
      WiredLater(g.wiring, Step(g, e).wiring.nextPortId);
  }

  /** Over all runs the wiring keeps its order, and mix profiles are counted. */
  lemma {:induction false} RunKeepsWiring(g: Graph, es: seq<Event>, origin: seq<Port>)
    requires Wired(g.wiring) && Counted(g.wiring, origin) && FreshIds(PortIds(origin), g.wiring.nextPortId)
    ensures Wired(Run(g, es).wiring) && Counted(Run(g, es).wiring, origin)
    decreases |es|
  {
    if es != [] {
      StepKeepsWired(g, es[0]);
      StepKeepsCount(g, es[0], origin);
      StepSpendsIds(g, es[0]);
      RunKeepsWiring(Step(g, es[0]), es[1..], origin);
    }
  }

  lemma UnconnectedIsCounted(w: Wiring)
    requires Wired(w) && w.connected == map[]
    ensures Counted(w, w.ports)
  {
    forall i | 0 <= i < |w.ports|
      ensures CountedAt(w, w.ports, i)
    {
      FindUnique(PortIds(w.ports), i);
    }
  }

  /**
  Mix profiles over all runs: a mix port whose profiles were dynamic at the start has concrete ones exactly
  while a connected device holds it, and every other port is as it was at the start.
  */
  lemma MixProfilesAreCounted(g: Graph, es: seq<Event>, i: nat)
    requires Wired(g.wiring) && g.wiring.connected == map[] && i < |Run(g, es).wiring.ports|
    requires Run(g, es).wiring.ports[i].id !in Run(g, es).wiring.connected
    ensures var (w, p, origin) := (Run(g, es).wiring, Run(g, es).wiring.ports[i], g.wiring.ports);
            && p.id in PortIds(origin)
            && var o := origin[Find(PortIds(origin), p.id)];
               if !o.ext.External? && DynamicOnly(o.profiles) then
                 p == o.(profiles := p.profiles) && (!DynamicOnly(p.profiles) <==> Held(w.connected, p.id))
               else p == o
  {
    UnconnectedIsCounted(g.wiring);
    RunKeepsWiring(g, es, g.wiring.ports);
    assert CountedAt(Run(g, es).wiring, g.wiring.ports, i);
  }

  /**
  Connecting a device and then disconnecting it succeeds and undoes itself: connections and routes are as
  before, and so are the ports, but for dynamic mix ports that were filled and are left without profiles.
  */
  lemma ConnectThenDisconnect(
      g: Graph, origin: seq<Port>, template: int, descriptors: seq<int>, address: string,
      populated: Option<seq<Profile>>)
    requires Grounded(g, origin) && Connect(g.wiring, template, descriptors, address, populated).1.Ok?
    ensures var (w, id) := (g.wiring, g.wiring.nextPortId);
            var w' := Connect(w, template, descriptors, address, populated).0;
            var (w'', status) := Disconnect(w', g.configs, g.initials, id);
            && status.Ok? && id in PortIds(w'.ports)
            && w''.routes == w.routes && w''.connected == w.connected && |w''.ports| == |w.ports|
            && forall i | 0 <= i < |w.ports| ::
                 w''.ports[i] == w.ports[i] ||
                     (DynamicOnly(w.ports[i].profiles) && w''.ports[i] == w.ports[i].(profiles := []))
  {
    var w := g.wiring;
    var w1 := w.(nextPortId := w.nextPortId + 1);
    var port := Connecting(w, template, descriptors, address, populated.value);
    AttachableIsPluggable(w, template, descriptors, address, populated.value);
    CountedLater(w, w1, origin);
    DisconnectUndoesConnect(w1, origin, template, port);
    PluggedIds(w1, template, port);
    NoConfigYet(g);
  }

  lemma NoConfigYet(g: Graph)
    requires Wired(g.wiring) && Configured(g)
    ensures !HasClientConfig(g.configs, g.initials, g.wiring.nextPortId)
  {
    FreshIsNew(g);
    forall i | 0 <= i < |g.configs|
      ensures g.configs[i].port != g.wiring.nextPortId
    {
      assert GoodConfig(g, g.configs[i]);
    }
  }

  // ----- ids are never given out twice -----

  predicate Live(g: Graph, id: int) {
    id in PortIds(g.wiring.ports) || id in ConfigIds(g.configs)
  }

  lemma StepBringsNextId(g: Graph, e: Event, id: int)
    requires Wired(g.wiring) && Live(Step(g, e), id) && !Live(g, id)
    ensures id == g.wiring.nextPortId
  {
    match e
    case ConnectDevice(template, descriptors, address, populated) =>
      ConnectBringsNextId(g.wiring, template, descriptors, address, populated, id);
    case DisconnectDevice(port) =>
      if Disconnect(g.wiring, g.configs, g.initials, port).1.Ok? {
        UnpluggedPorts(g.wiring, port);
      }
    case SetAudioPatch(patch, matches, sized) => SetPatchSpendsIds(g, patch, matches, sized);
    case ResetAudioPatch(patchId) => ResetPatchSpendsIds(g, patchId);
    case SetAudioPortConfig(r) =>
      if id in ConfigIds(SetConfig(g, r).0.configs) {
        ConfigsBringNextId(g, r, id);
      } else {
        ConfigsBringNoPort(g, r);
      }
    case ResetAudioPortConfig(configId) =>
      if id in ConfigIds(ResetConfig(g, configId).0.configs) {
        ResetBringsNoId(g, configId, id);
      }
    case _ =>
  }

  lemma ConfigsBringNoPort(g: Graph, r: Request)
    ensures SetConfig(g, r).0.wiring.ports == g.wiring.ports
  {
  }

  lemma ConnectBringsNextId(
      w: Wiring, template: int, descriptors: seq<int>, address: string, populated: Option<seq<Profile>>, id: int)
    requires Wired(w) && id in PortIds(Connect(w, template, descriptors, address, populated).0.ports)
    ensures id in PortIds(w.ports) || id == w.nextPortId
  {
    if Connect(w, template, descriptors, address, populated).1.Ok? {
      var w1 := w.(nextPortId := w.nextPortId + 1);
      var port := Connecting(w, template, descriptors, address, populated.value);
      AttachableIsPluggable(w, template, descriptors, address, populated.value);
      PluggedIds(w1, template, port);
      assert id in PortIds(w1.ports) + [port.id];
    }
  }

  lemma ConfigsBringNextId(g: Graph, r: Request, id: int)
    requires id in ConfigIds(SetConfig(g, r).0.configs)
    ensures id in ConfigIds(g.configs) || id == g.wiring.nextPortId
  {
    var (g', outcome, applied) := SetConfig(g, r);
    var i := Find(ConfigIds(g'.configs), id);
    if i < |g.configs| {
      assert ConfigIds(g'.configs)[i] == ConfigIds(g.configs)[i];
    }
  }

  lemma ResetBringsNoId(g: Graph, configId: int, id: int)
    requires id in ConfigIds(ResetConfig(g, configId).0.configs)
    ensures id in ConfigIds(g.configs)
  {
    var g' := ResetConfig(g, configId).0;
    var k := Find(ConfigIds(g.configs), configId);
    var i := Find(ConfigIds(g'.configs), id);
    if g' != g {
      var same := |g'.configs| == |g.configs|;
      assert ConfigIds(g'.configs)[i] == ConfigIds(g.configs)[if same || i < k then i else i + 1];
    }
  }

  /** In all runs, an id of a port or config that has been given out is not given out again, even once free. */
  lemma {:induction false} IdsNeverReturn(g: Graph, es: seq<Event>, id: int)
    requires Wired(g.wiring) && id < g.wiring.nextPortId && !Live(g, id)
    ensures !Live(Run(g, es), id)
    decreases |es|
  {
    if es != [] {
      StepKeepsWired(g, es[0]);
      StepSpendsIds(g, es[0]);
      if Live(Step(g, es[0]), id) {
        StepBringsNextId(g, es[0], id);
      }
      IdsNeverReturn(Step(g, es[0]), es[1..], id);
    }
  }

  // ----- the index and the patches -----

  lemma EntryOfNamed(g: Graph, k: nat, config: int)
    requires Integral(g) && k < |g.patches| && Names(g.patches[k], config)
    ensures (config, g.patches[k].id) in IndexOf(g.configs, g.patches)
  {
    NamedIsConfig(g, k, config);
    assert KeyOf(g.configs, config, config);
    IndexIsExact(g.configs, g.patches, config, g.patches[k].id);
  }

  /** An entry under the id of a mix port config is of a patch that names the config. */
  lemma EntryNamesConfig(g: Graph, config: int, q: int)
    requires Integral(g) && config in ConfigIds(g.configs) && PortOf(g.configs, config) != config
    requires (config, q) in g.index
    ensures exists i: nat | i < |g.patches| :: g.patches[i].id == q && Names(g.patches[i], config)
  {
    IndexIsExact(g.configs, g.patches, config, q);
    var i: nat, c :| i < |g.patches| && g.patches[i].id == q && Names(g.patches[i], c) && KeyOf(g.configs, c, config);
    if c != config {
      PortIdIsOwn(g, c);
    }
  }

  /** A config with the id of a port is on that port. */
  lemma PortIdIsOwn(g: Graph, c: int)
    requires Configured(g) && c in ConfigIds(g.configs) && PortOf(g.configs, c) in ConfigIds(g.configs)
    ensures PortOf(g.configs, PortOf(g.configs, c)) == PortOf(g.configs, c)
  {
    var (k, k') := (Find(ConfigIds(g.configs), c), Find(ConfigIds(g.configs), PortOf(g.configs, c)));
    assert GoodConfig(g, g.configs[k]) && GoodConfig(g, g.configs[k']);
  }

  // ----- streams -----

  /** When the index is exact, every patch it names is found, which the code takes for granted. */
  lemma IndexedPatchExists(g: Graph, pair: (int, int))
    requires Indexed(g) && pair in g.index
    ensures pair.1 in PatchIds(g.patches) && Named(g, pair.1) in g.patches && Named(g, pair.1).id == pair.1
  {
    IndexIsExact(g.configs, g.patches, pair.0, pair.1);
    var i: nat, c :| i < |g.patches| && g.patches[i].id == pair.1 && Names(g.patches[i], c) &&
        KeyOf(g.configs, c, pair.0);
    assert PatchIds(g.patches)[i] == pair.1;
  }

  /**
  A stream opened on a mix port config starts connected to the configs at the other end of exactly the
  patches that name its config; looking up these patches never fails.
  */
  lemma OpenedStreamFollowsPatches(g: Graph, config: int, x: int)
    requires Integral(g) && config in ConfigIds(g.configs) && PortOf(g.configs, config) != config
    ensures forall pair | pair in g.index && pair.0 == config ::
              Named(g, pair.1) in g.patches && Named(g, pair.1).id == pair.1
    ensures x in ConnectedConfigs(g, config) <==>
      exists i: nat | i < |g.patches| :: Names(g.patches[i], config) && x in Opposite(g.patches[i], config)
  {
    forall pair | pair in g.index && pair.0 == config
      ensures Named(g, pair.1) in g.patches && Named(g, pair.1).id == pair.1
    {
      IndexedPatchExists(g, pair);
    }
    if x in ConnectedConfigs(g, config) {
      var pair :| pair in g.index && pair.0 == config && x in Opposite(Named(g, pair.1), config);
      EntryNamesConfig(g, config, pair.1);
      var i: nat :| i < |g.patches| && g.patches[i].id == pair.1 && Names(g.patches[i], config);
      FindUnique(PatchIds(g.patches), i);
    }
    if i: nat :| i < |g.patches| && Names(g.patches[i], config) && x in Opposite(g.patches[i], config) {
      EntryOfNamed(g, i, config);
      FindUnique(PatchIds(g.patches), i);
      assert (config, g.patches[i].id) in g.index;
      assert Named(g, g.patches[i].id) == g.patches[i];
    }
  }
}
