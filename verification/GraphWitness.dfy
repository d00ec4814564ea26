/**
A run in which a stream refuses: from a module with one mix port and one device port to a patch whose config
is gone.
*/
module GraphWitness {
  import opened GraphModel
  import opened GraphWiring
  import opened GraphStreams
  import opened GraphOperations
  import opened GraphIndex
  import opened GraphIntegrity
  import opened GraphRuns
  import opened GraphRefusals

  // ----- the module -----

  const PROFILES := [Profile(1, [1], [1])]
  const MIX_PORT := Port(1, Mix(0, 0, 0), 0, PROFILES, [])
  const DEVICE_PORT := Port(2, External(Device(0, "", "")), 0, PROFILES, [])

  /** Streams that refuse all devices. */
  function Stubborn(open: map<int, Stream>): Streams {
    Streams((n: nat) => Answer(false, {}), 0, open)
  }

  /** The module with the configs 3, 4, ... on the given ports. */
  function Equipped(configs: seq<Config>, patches: seq<Patch>, index: Index, open: map<int, Stream>): Graph {
    Graph(Wiring([MIX_PORT, DEVICE_PORT], [Route([1], 2, false)], map[], 3 + |configs|), configs, [],
          patches, 1 + |patches|, index, Stubborn(open))
  }

  function ConfigOn(p: Port, id: int): Config {
    Config(id, p.id, 1, 1, 1, 0, p.ext)
  }

  const ON_MIX := ConfigOn(MIX_PORT, 3)
  const ON_DEVICE := ConfigOn(DEVICE_PORT, 4)
  const ALSO_ON_DEVICE := ConfigOn(DEVICE_PORT, 5)

  function Asking(port: int): Request {
    Request(0, port, Some(1), Some(1), Some(1), Some(0), Unspecified)
  }

  const FIRST := Patch(0, [3], [4])
  const SECOND := Patch(1, [3], [5])

  /** Three configs, a patch, a stream on it, and an update of the patch to the other device config. */
  function Start(): Graph {
    Equipped([], [], multiset{}, map[])
  }

  const SETTING_UP := [SetAudioPortConfig(Asking(1)), SetAudioPortConfig(Asking(2)), SetAudioPortConfig(Asking(2)),
                       SetAudioPatch(FIRST, true, true)]

  const EVENTS := SETTING_UP + [OpenOnConfig(3, true)]

  // ----- the steps -----

  lemma StartIsInitial()
    ensures Initial(Start())
  {
    var g := Start();
    var w := g.wiring;
    assert PortIds(w.ports) == [1, 2];
    assert GoodRoute(w, w.routes[0]) by {
      assert w.routes[0].sources[0] !in w.connected;
    }
  }

  lemma Configures(configs: seq<Config>, p: Port)
    requires p == MIX_PORT || p == DEVICE_PORT
    ensures Step(Equipped(configs, [], multiset{}, map[]), SetAudioPortConfig(Asking(p.id)))
         == Equipped(configs + [ConfigOn(p, 3 + |configs|)], [], multiset{}, map[])
  {
    var g := Equipped(configs, [], multiset{}, map[]);
    var r := Asking(p.id);
    assert PortIds(g.wiring.ports) == [1, 2];
    assert g.wiring.ports[Find([1, 2], p.id)] == p;
    assert !DynamicProfile(PROFILES[0]);
    var c := Config(0, p.id, 1, 1, 1, 0, p.ext);
    assert DefaultConfig(p) == Some(c);
    assert FindProfile(p.profiles, 1) == Some(PROFILES[0]);
    assert Chosen(p, c, r) == 1 && Suggested(p, c, r) == c && Requestable(p, c, r);
  }

  const CONFIGS := [ON_MIX, ON_DEVICE, ALSO_ON_DEVICE]

  lemma ConfigsAre()
    ensures ConfigIds(CONFIGS) == [3, 4, 5]
    ensures PortOf(CONFIGS, 3) == 1 && PortOf(CONFIGS, 4) == 2 && PortOf(CONFIGS, 5) == 2
  {
    assert ConfigIds(CONFIGS) == [3, 4, 5];
    assert Find([3, 4, 5], 3) == 0 && Find([3, 4, 5], 4) == 1 && Find([3, 4, 5], 5) == 2;
  }

  /** A patch from the mix config to a device config passes every check. */
  lemma Addresses(g: Graph, p: Patch)
    requires g.wiring.routes == [Route([1], 2, false)] && g.configs == CONFIGS
    requires p.sources == [3] && (p.sinks == [4] || p.sinks == [5])
    ensures WellAddressed(g, p) && forall index :: !Excluded(g, index, p)
  {
    ConfigsAre();
    var r := g.wiring.routes[0];
    assert Elements(p.sources) == {3} && Elements(p.sinks) == {p.sinks[0]};
    assert PortOf(g.configs, p.sources[0]) in r.sources;
    assert Reaches(r, g.configs, p.sources);
    assert Leads(g.wiring.routes, g.configs, p.sources, 2, true) &&
        Leads(g.wiring.routes, g.configs, p.sources, 2, false);
  }

  function Patching(): Graph {
    Equipped(CONFIGS, [FIRST.(id := 1)], Registered(CONFIGS, FIRST.(id := 1)), map[])
  }

  lemma Patches()
    ensures Step(Equipped(CONFIGS, [], multiset{}, map[]), SetAudioPatch(FIRST, true, true)) == Patching()
    ensures Smooth(Equipped(CONFIGS, [], multiset{}, map[]), SetAudioPatch(FIRST, true, true))
  {
    var g := Equipped(CONFIGS, [], multiset{}, map[]);
    Addresses(g, FIRST);
    var p := FIRST.(id := 1);
    PatchesConnectSome(g.streams, NO_PATCH);
    PatchesConnectSome(g.streams, p);
    SwitchAsks(g.streams, ConnectionsOf(g.streams, NO_PATCH), ConnectionsOf(g.streams, p));
    NothingOpen(g.streams, ConnectionsOf(g.streams, NO_PATCH), ConnectionsOf(g.streams, p));
    assert multiset{} + Registered(CONFIGS, p) == Registered(CONFIGS, p);
  }

  lemma NothingOpen(s: Streams, was: Connections, wanted: Connections)
    requires s.open == map[]
    ensures Switch(s, was, wanted) == (s, true)
  {
    DisconnectAsks(s, Ascending(was.Keys), wanted);
    ConnectAsks(s, Ascending(wanted.Keys), was, wanted);
  }

  function Opened(): Graph {
    Equipped(CONFIGS, [FIRST.(id := 1)], Registered(CONFIGS, FIRST.(id := 1)), map[3 := Stream(1, {4})])
  }

  lemma Opens()
    requires Integral(Patching())
    ensures Step(Patching(), OpenOnConfig(3, true)) == Opened()
  {
    var g := Patching();
    ConfigsAre();
    assert NewStreamPort(g, 3) == Done by {
      assert PortIds(g.wiring.ports) == [1, 2] && Find([1, 2], 1) == 0;
    }
    ConnectsToDevice(g);
  }

  lemma ConnectsToDevice(g: Graph)
    requires g == Patching() && Integral(g)
    ensures ConnectedConfigs(g, 3) == {4}
  {
    ConfigsAre();
    assert Names(g.patches[0], 3) && Opposite(g.patches[0], 3) == {4};
    forall x
      ensures x in ConnectedConfigs(g, 3) <==> x == 4
    {
      OpenedStreamFollowsPatches(g, 3, x);
    }
  }

  lemma {:induction false} OneMoreEvent(g: Graph, es: seq<Event>, e: Event)
    requires AllSmooth(g, es) && Smooth(Run(g, es), e)
    ensures Run(g, es + [e]) == Step(Run(g, es), e) && AllSmooth(g, es + [e])
    decreases |es|
  {
    if es == [] {
      assert [e][1..] == [];
    } else {
      assert (es + [e])[1..] == es[1..] + [e];
      OneMoreEvent(Step(g, es[0]), es[1..], e);
    }
  }

  /** The run so far, and what it has come to. */
  ghost predicate Comes(es: seq<Event>, g: Graph) {
    AllSmooth(Start(), es) && Run(Start(), es) == g
  }

  lemma Goes(es: seq<Event>, g: Graph, e: Event, g': Graph)
    requires Comes(es, g) && Smooth(g, e) && Step(g, e) == g'
    ensures Comes(es + [e], g')
  {
    OneMoreEvent(Start(), es, e);
  }

  lemma RunsToConfigured(e1: Event, e2: Event)
    requires e1 == SetAudioPortConfig(Asking(1)) && e2 == SetAudioPortConfig(Asking(2))
    ensures Comes([e1, e2, e2], Equipped(CONFIGS, [], multiset{}, map[]))
  {
    var (a, b) := ([ON_MIX], [ON_MIX, ON_DEVICE]);
    var (g1, g2) := (Equipped(a, [], multiset{}, map[]), Equipped(b, [], multiset{}, map[]));
    Configures([], MIX_PORT);
    assert [] + [ON_MIX] == a;
    Goes([], Start(), e1, g1);
    assert [] + [e1] == [e1] && a + [ON_DEVICE] == b;
    Configures(a, DEVICE_PORT);
    Goes([e1], g1, e2, g2);
    assert [e1] + [e2] == [e1, e2] && b + [ALSO_ON_DEVICE] == CONFIGS;
    Configures(b, DEVICE_PORT);
    Goes([e1, e2], g2, e2, Equipped(CONFIGS, [], multiset{}, map[]));
    assert [e1, e2] + [e2] == [e1, e2, e2];
  }

  lemma RunsToPatched()
    ensures Comes(SETTING_UP, Patching())
  {
    var (e1, e2, e3) := (SETTING_UP[0], SETTING_UP[1], SETTING_UP[3]);
    RunsToConfigured(e1, e2);
    Patches();
    Goes([e1, e2, e2], Equipped(CONFIGS, [], multiset{}, map[]), e3, Patching());
    assert [e1, e2, e2] + [e3] == SETTING_UP;
  }

  lemma RunsToOpened()
    ensures Run(Start(), EVENTS) == Opened() && AllSmooth(Start(), EVENTS)
  {
    RunsToPatched();
    StartIsInitial();
    GraphKeepsIntegrity(Start(), SETTING_UP);
    Opens();
    OneMoreEvent(Start(), SETTING_UP, OpenOnConfig(3, true));
  }

  /**
  From the start, clients configure the ports, make a patch, open a stream on it and update the patch; the
  stream refuses; and now the device config can be reset from under the patch.
  */
  lemma RefusalLosesConfig()
    ensures Initial(Start()) && AllSmooth(Start(), EVENTS)
    ensures var g := Run(Start(), EVENTS);
            var (g', outcome) := SetPatch(g, SECOND, true, true);
            var (g'', reset) := ResetConfig(g', 4);
            && outcome == Refused && !Indexed(g')
            && reset == Done && 4 !in ConfigIds(g''.configs) && |g''.patches| == 1 && Names(g''.patches[0], 4)
  {
    StartIsInitial();
    RunsToOpened();
    GraphKeepsIntegrity(Start(), EVENTS);
    var g := Opened();
    ConfigsAre();
    Addresses(g, SECOND);
    assert PatchIds(g.patches) == [1];
    AsksTheStream(g);
    OutcomeOfAsking(g, SECOND, true, true);
    RefusedUpdateBreaksIndex(g, SECOND, true, true);
    RefusedUpdateLosesConfig(g, SECOND, true, true, 0, 4);
  }

  /** In the same state, creating another patch on the stream's config ends undefined. */
  lemma RefusalLeavesCreationUndefined()
    ensures Initial(Start()) && AllSmooth(Start(), EVENTS)
    ensures SetPatch(Run(Start(), EVENTS), SECOND.(id := 0), true, true).1 == Undefined
  {
    StartIsInitial();
    RunsToOpened();
    GraphKeepsIntegrity(Start(), EVENTS);
    var g := Opened();
    var p := SECOND.(id := 0);
    Addresses(g, p);
    AsksTheStreamAnew(g, p);
    OutcomeOfAsking(g, p, true, true);
  }

  lemma AsksTheStreamAnew(g: Graph, p: Patch)
    requires g == Opened() && p == SECOND.(id := 0)
    ensures !NoneAsked(g, NO_PATCH, p)
  {
    var (was, wanted) := (ConnectionsOf(g.streams, NO_PATCH), ConnectionsOf(g.streams, p));
    assert p.sources[0] in g.streams.open && 3 in g.streams.open && 3 in wanted && 3 !in was;
    assert 5 in DevicesOf(wanted, 3) && 5 !in DevicesOf(was, 3);
  }

  lemma AsksTheStream(g: Graph)
    requires g == Opened()
    ensures !NoneAsked(g, Named(g, 1), SECOND)
  {
    assert PatchIds(g.patches) == [1] && Find([1], 1) == 0;
    var (was, wanted) := (ConnectionsOf(g.streams, g.patches[0]), ConnectionsOf(g.streams, SECOND));
    assert g.patches[0].sources[0] in g.streams.open && SECOND.sources[0] in g.streams.open;
    assert 3 in g.streams.open && 3 in was && 3 in wanted;
    assert 4 in DevicesOf(was, 3) && 4 !in DevicesOf(wanted, 3);
  }
}
