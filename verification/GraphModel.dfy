/**
The audio module's graph of ports, routes, port configs and patches, and what the module's operations do
to it. A multimap from config or port ids to patch ids says what patches use; it is modelled as a multiset
of pairs. What the hardware decides is a parameter: the profiles of a connected device, whether the
endpoints of a patch match, whether a buffer size can be found, whether a stream takes its new devices.
*/
module GraphModel {

  datatype Option<T> = None | Some(value: T)

  // ----- entities -----

  datatype Profile = Profile(format: int, masks: seq<int>, rates: seq<int>)

  datatype Device = Device(kind: int, connection: string, address: string)

  datatype Ext = Unspecified | Mix(maxOpen: nat, handle: int, usecase: int) | External(device: Device)

  datatype Port = Port(id: int, ext: Ext, flags: int, profiles: seq<Profile>, descriptors: seq<int>)

  datatype Route = Route(sources: seq<int>, sink: int, exclusive: bool)

  datatype Config = Config(id: int, port: int, format: int, mask: int, rate: int, flags: int, ext: Ext)

  datatype Patch = Patch(id: int, sources: seq<int>, sinks: seq<int>)

  datatype Configuration = Configuration(
    ports: seq<Port>, configs: seq<Config>, initials: seq<Config>, connectedProfiles: map<int, seq<Profile>>,
    routes: seq<Route>, patches: seq<Patch>, nextPortId: int, nextPatchId: int)

  datatype Status = Ok | IllegalArgument | IllegalState

  // ----- lookup -----

  /** The first position of an id, or -1. */
  function Find(ids: seq<int>, id: int): (r: int)
    ensures -1 <= r < |ids|
    ensures r >= 0 ==> ids[r] == id && forall i | 0 <= i < r :: ids[i] != id
    ensures r == -1 <==> id !in ids
  {
    if ids == [] then -1
    else if ids[0] == id then 0
    else
      var r := Find(ids[1..], id);
      if r < 0 then -1 else r + 1
  }

  function PortIds(ports: seq<Port>): (ids: seq<int>)
    ensures |ids| == |ports| && forall i | 0 <= i < |ids| :: ids[i] == ports[i].id
  {
    seq(|ports|, i requires 0 <= i < |ports| => ports[i].id)
  }

  function ConfigIds(configs: seq<Config>): (ids: seq<int>)
    ensures |ids| == |configs| && forall i | 0 <= i < |ids| :: ids[i] == configs[i].id
  {
    seq(|configs|, i requires 0 <= i < |configs| => configs[i].id)
  }

  function PatchIds(patches: seq<Patch>): (ids: seq<int>)
    ensures |ids| == |patches| && forall i | 0 <= i < |ids| :: ids[i] == patches[i].id
  {
    seq(|patches|, i requires 0 <= i < |patches| => patches[i].id)
  }

  ghost predicate Unique(ids: seq<int>) {
    forall i, j | 0 <= i < j < |ids| :: ids[i] != ids[j]
  }

  function Without<T>(s: seq<T>, i: nat): seq<T>
    requires i < |s|
  {
    s[..i] + s[i + 1..]
  }

  function Elements(ids: seq<int>): set<int> {
    set id | id in ids
  }

  // ----- profiles -----

  predicate AllZero(s: seq<int>) {
    forall i | 0 <= i < |s| :: s[i] == 0
  }

  predicate DynamicProfile(p: Profile) {
    p.format == 0 || AllZero(p.masks) || AllZero(p.rates)
  }

  predicate DynamicOnly(profiles: seq<Profile>) {
    forall i | 0 <= i < |profiles| :: DynamicProfile(profiles[i])
  }

  // ----- routes -----

  /** The ports at the other end of a route. */
  function Peers(r: Route, port: int): set<int> {
    if r.sink == port then Elements(r.sources)
    else if port in r.sources then {r.sink}
    else {}
  }

  function Routable(routes: seq<Route>, port: int): set<int> {
    if routes == [] then {} else Routable(routes[..|routes| - 1], port) + Peers(routes[|routes| - 1], port)
  }

  /** A route after `port` was connected from `template`. */
  function Extended(r: Route, template: int, port: int): Route {
    if r.sink != template && template in r.sources then r.(sources := r.sources + [port]) else r
  }

  function ExtendedRoutes(routes: seq<Route>, template: int, port: int): (rs: seq<Route>)
    ensures |rs| == |routes| && forall i | 0 <= i < |rs| :: rs[i] == Extended(routes[i], template, port)
  {
    seq(|routes|, i requires 0 <= i < |routes| => Extended(routes[i], template, port))
  }

  /** The routes to a port connected from `template`. */
  function Copies(routes: seq<Route>, template: int, port: int): seq<Route> {
    if routes == [] then []
    else
      var last := routes[|routes| - 1];
      Copies(routes[..|routes| - 1], template, port) + if last.sink == template then [last.(sink := port)] else []
  }

  function Dropped(ids: seq<int>, id: int): seq<int> {
    if ids == [] then []
    else Dropped(ids[..|ids| - 1], id) + if ids[|ids| - 1] == id then [] else [ids[|ids| - 1]]
  }

  /** The routes once a port is gone. */
  function Unrouted(routes: seq<Route>, port: int): seq<Route> {
    if routes == [] then []
    else
      var last := routes[|routes| - 1];
      Unrouted(routes[..|routes| - 1], port)
      + if last.sink == port then [] else [last.(sources := Dropped(last.sources, port))]
  }

  // ----- connected devices -----

  /** Some connected device holds the mix port. */
  predicate Held(connected: map<int, set<int>>, mix: int) {
    exists c | c in connected :: mix in connected[c]
  }

  predicate Filled(p: Port, routable: set<int>) {
    p.id in routable && DynamicOnly(p.profiles)
  }

  function FilledPort(p: Port, routable: set<int>, profiles: seq<Profile>): Port {
    if Filled(p, routable) then p.(profiles := profiles) else p
  }

  function FilledPorts(ports: seq<Port>, routable: set<int>, profiles: seq<Profile>): (ps: seq<Port>)
    ensures |ps| == |ports|
    ensures forall i | 0 <= i < |ps| :: ps[i] == FilledPort(ports[i], routable, profiles)
  {
    seq(|ports|, i requires 0 <= i < |ports| => FilledPort(ports[i], routable, profiles))
  }

  predicate Holding(p: Port, routable: set<int>, connected: map<int, set<int>>) {
    p.id in routable && (DynamicOnly(p.profiles) || Held(connected, p.id))
  }

  /** The mix ports a newly connected device comes to hold: those it fills, and those others have filled. */
  function Holds(ports: seq<Port>, routable: set<int>, connected: map<int, set<int>>): (h: set<int>)
    ensures forall mix :: mix in h <==>
      exists i | 0 <= i < |ports| :: ports[i].id == mix && Holding(ports[i], routable, connected)
  {
    if ports == [] then {}
    else
      var last := ports[|ports| - 1];
      Holds(ports[..|ports| - 1], routable, connected)
      + if Holding(last, routable, connected) then {last.id} else {}
  }

  function ClearedPorts(ports: seq<Port>, mixes: set<int>): (ps: seq<Port>)
    ensures |ps| == |ports|
    ensures forall i | 0 <= i < |ps| :: ps[i] == if ports[i].id in mixes then ports[i].(profiles := []) else ports[i]
  {
    seq(|ports|, i requires 0 <= i < |ports| => if ports[i].id in mixes then ports[i].(profiles := []) else ports[i])
  }

  /** Ports, routes and connections: the part of the state that connecting and disconnecting devices changes. */
  datatype Wiring = Wiring(ports: seq<Port>, routes: seq<Route>, connected: map<int, set<int>>, nextPortId: int)

  predicate Attachable(w: Wiring, template: int) {
    var i := Find(PortIds(w.ports), template);
    i >= 0 && w.ports[i].ext.External? && w.ports[i].ext.device.connection != "" && template !in w.connected
  }

  /** Another port already represents the device. */
  predicate AlreadyConnected(w: Wiring, device: Device) {
    exists c | c in w.connected ::
      var i := Find(PortIds(w.ports), c); i >= 0 && w.ports[i].ext == External(device)
  }

  predicate HasDynamicPeer(ports: seq<Port>, routable: set<int>) {
    exists i | 0 <= i < |ports| :: ports[i].id in routable && DynamicOnly(ports[i].profiles)
  }

  /** Connects the port, once nothing stands against it. */
  function Plugged(w: Wiring, template: int, port: Port): Wiring {
    var routable := Routable(w.routes, template);
    var connects := !DynamicOnly(port.profiles);
    var ports := w.ports + [port];
    Wiring(
      if connects then FilledPorts(ports, routable, port.profiles) else ports,
      ExtendedRoutes(w.routes, template, port.id) + Copies(w.routes, template, port.id),
      w.connected[port.id := if connects then Holds(ports, routable, w.connected) else {}],
      w.nextPortId)
  }

  /** The port that will represent the device. */
  function Connecting(w: Wiring, template: int, descriptors: seq<int>, address: string, profiles: seq<Profile>): Port
    requires Attachable(w, template)
  {
    var t := w.ports[Find(PortIds(w.ports), template)];
    t.(id := w.nextPortId, descriptors := descriptors, ext := External(t.ext.device.(address := address)),
        profiles := profiles)
  }

  /** `populated` is what the hardware makes of the profiles; None when it refuses the device. */
  function Connect(
      w: Wiring, template: int, descriptors: seq<int>, address: string, populated: Option<seq<Profile>>):
    (Wiring, Status)
  {
    if !Attachable(w, template) then (w, IllegalArgument)
    else
      var device := Connecting(w, template, descriptors, address, []).ext.device;
      if AlreadyConnected(w, device) then (w, IllegalState)
      else
        var w1 := w.(nextPortId := w.nextPortId + 1);
        if populated.None? then (w1, IllegalArgument)
        else
          var port := Connecting(w, template, descriptors, address, populated.value);
          if DynamicOnly(port.profiles) && HasDynamicPeer(w.ports, Routable(w.routes, template)) then (w1, IllegalState)
          else (Plugged(w1, template, port), Ok)
  }

  /** A client made or changed a config of the port. */
  predicate HasClientConfig(configs: seq<Config>, initials: seq<Config>, port: int) {
    exists i | 0 <= i < |configs| ::
      configs[i].port == port && var k := Find(ConfigIds(initials), configs[i].id); k < 0 || configs[i] != initials[k]
  }

  function Unplugged(w: Wiring, port: int): Wiring
    requires port in PortIds(w.ports) && port in w.connected
  {
    var connected := w.connected - {port};
    var ports := Without(w.ports, Find(PortIds(w.ports), port));
    Wiring(ClearedPorts(ports, set mix | mix in w.connected[port] && !Held(connected, mix)),
           Unrouted(w.routes, port), connected, w.nextPortId)
  }

  function Disconnect(w: Wiring, configs: seq<Config>, initials: seq<Config>, port: int): (Wiring, Status)
  {
    var i := Find(PortIds(w.ports), port);
    if i < 0 || !w.ports[i].ext.External? || port !in w.connected then (w, IllegalArgument)
    else if HasClientConfig(configs, initials, port) then (w, IllegalState)
    else (Unplugged(w, port), Ok)
  }

  // ----- the patch index -----

  type Index = multiset<(int, int)>

  /** What a patch registers for one of its configs: the config, and its port unless they share an id. */
  function PairsOf(configs: seq<Config>, config: int, patch: int): Index {
    var i := Find(ConfigIds(configs), config);
    if i < 0 then multiset{}
    else if configs[i].port != config then multiset{(config, patch), (configs[i].port, patch)}
    else multiset{(config, patch)}
  }

  function AllPairs(configs: seq<Config>, ids: seq<int>, patch: int): Index {
    if ids == [] then multiset{}
    else AllPairs(configs, ids[..|ids| - 1], patch) + PairsOf(configs, ids[|ids| - 1], patch)
  }

  function Registered(configs: seq<Config>, p: Patch): Index {
    AllPairs(configs, p.sources, p.id) + AllPairs(configs, p.sinks, p.id)
  }

  /** The index as the patches imply it. */
  function IndexOf(configs: seq<Config>, patches: seq<Patch>): Index {
    if patches == [] then multiset{}
    else IndexOf(configs, patches[..|patches| - 1]) + Registered(configs, patches[|patches| - 1])
  }

  /** The index without the entries of a patch. */
  ghost function CleanedUp(index: Index, patch: int): (r: Index)
    ensures forall pair: (int, int) :: r[pair] == if pair.1 == patch then 0 else index[pair]
    decreases |index|
  {
    if index == multiset{} then multiset{}
    else
      var pair :| pair in index;
      var rest := CleanedUp(index - multiset{pair}, patch);
      if pair.1 == patch then rest else rest + multiset{pair}
  }

  predicate Uses(index: Index, key: int) {
    exists pair | pair in index :: pair.0 == key
  }

  // ----- streams -----

  /** Open streams by mix port config, with the device port configs each is connected to. */
  datatype Stream = Stream(port: int, devices: set<int>)

  /** A stream's answer to being connected: it may refuse, and a refusal may leave any devices. */
  datatype Answer = Answer(ok: bool, left: set<int>)

  datatype Streams = Streams(script: nat -> Answer, calls: nat, open: map<int, Stream>)

  type Connections = map<int, set<int>>

  predicate AnyOpen(s: Streams, ids: seq<int>) {
    exists i | 0 <= i < |ids| :: ids[i] in s.open
  }

  /** Which devices a patch connects to which mix port configs. */
  function ConnectionsOf(s: Streams, p: Patch): Connections {
    if AnyOpen(s, p.sources) then map id | id in Elements(p.sources) :: Elements(p.sinks)
    else if AnyOpen(s, p.sinks) then map id | id in Elements(p.sinks) :: Elements(p.sources)
    else map[]
  }

  function SetDevices(s: Streams, id: int, devices: set<int>): (Streams, bool) {
    if id !in s.open then (s, true)
    else
      var a := s.script(s.calls);
      (s.(calls := s.calls + 1, open := s.open[id := s.open[id].(devices := if a.ok then devices else a.left)]), a.ok)
  }

  lemma LeastExists(s: set<int>)
    requires s != {}
    ensures exists x :: IsLeast(s, x)
  {
    var x := SomeElement(s);
    var rest := s - {x};
    if rest == {} {
      assert forall w | w in s :: w == x || w in rest;
      assert IsLeast(s, x);
    } else {
      LeastExists(rest);
      var z :| IsLeast(rest, z);
      assert forall w | w in s :: w == x || w in rest;
      assert IsLeast(s, if x < z then x else z);
    }
  }

  lemma SomeElement(s: set<int>) returns (x: int)
    requires s != {}
    ensures x in s
  {
    if forall y: int :: y !in s {
      assert false;
    }
    x :| x in s;
  }

  predicate IsLeast(s: set<int>, x: int) {
    x in s && forall y | y in s :: x <= y
  }

  function Least(s: set<int>): (x: int)
    requires s != {}
    ensures x in s && forall y | y in s :: x <= y
  {
    LeastExists(s);
    var x :| IsLeast(s, x);
    x
  }

  /** The elements of a set in the order a map iterates over its keys. */
  function Ascending(s: set<int>): (r: seq<int>)
    ensures forall x :: x in r <==> x in s
  {
    if s == {} then [] else [Least(s)] + Ascending(s - {Least(s)})
  }

  /** A pass over some streams, ending at the first refusal, with the ids it got to. */
  datatype Pass = Pass(streams: Streams, ok: bool, touched: set<int>)

  /** Disconnects the streams that are only in the old connections. */
  function DisconnectPass(s: Streams, ids: seq<int>, wanted: Connections): Pass {
    if ids == [] then Pass(s, true, {})
    else
      var before := DisconnectPass(s, ids[..|ids| - 1], wanted);
      var id := ids[|ids| - 1];
      if !before.ok || id in wanted then before
      else
        var (s', ok) := SetDevices(before.streams, id, {});
        Pass(s', ok, before.touched + {id})
  }

  /** Connects the streams whose devices are new. */
  function ConnectPass(s: Streams, ids: seq<int>, was: Connections, wanted: Connections): Pass
    requires forall id | id in ids :: id in wanted
  {
    if ids == [] then Pass(s, true, {})
    else
      assert forall id | id in ids[..|ids| - 1] :: id in ids;
      var before := ConnectPass(s, ids[..|ids| - 1], was, wanted);
      var id := ids[|ids| - 1];
      if !before.ok || (id in was && was[id] == wanted[id]) then before
      else
        var (s', ok) := SetDevices(before.streams, id, wanted[id]);
        Pass(s', ok, before.touched + {id})
  }

  /** Connects streams back to their old devices, ignoring refusals. */
  function Restored(s: Streams, ids: seq<int>, was: Connections, emptyToo: bool): Streams {
    if ids == [] then s
    else
      var s1 := Restored(s, ids[..|ids| - 1], was, emptyToo);
      var id := ids[|ids| - 1];
      if id in was then SetDevices(s1, id, was[id]).0
      else if emptyToo then SetDevices(s1, id, {}).0
      else s1
  }

  function Switch(s: Streams, was: Connections, wanted: Connections): (Streams, bool) {
    var d := DisconnectPass(s, Ascending(was.Keys), wanted);
    if !d.ok then (Restored(d.streams, Ascending(d.touched), was, false), false)
    else
      var c := ConnectPass(d.streams, Ascending(wanted.Keys), was, wanted);
      if c.ok then (c.streams, true)
      else (Restored(Restored(c.streams, Ascending(d.touched), was, false), Ascending(c.touched), was, true), false)
  }
}
