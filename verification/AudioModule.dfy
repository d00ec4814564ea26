/** The audio module: an object whose methods change its ports, routes, configs, patches and streams in place. */
module AudioModules {
  import opened GraphModel
  import opened GraphWiring
  import opened GraphOperations

  // ----- stopping early -----

  lemma {:induction false} DisconnectStops(s: Streams, ids: seq<int>, wanted: Connections, i: nat)
    requires i <= |ids| && !DisconnectPass(s, ids[..i], wanted).ok
    ensures DisconnectPass(s, ids, wanted) == DisconnectPass(s, ids[..i], wanted)
  {
    if i < |ids| {
      assert ids[..|ids| - 1][..i] == ids[..i];
      DisconnectStops(s, ids[..|ids| - 1], wanted, i);
    } else {
      assert ids[..i] == ids;
    }
  }

  lemma {:induction false} ConnectStops(s: Streams, ids: seq<int>, was: Connections, wanted: Connections, i: nat)
    requires i <= |ids| && forall id | id in ids :: id in wanted
    requires forall id | id in ids[..i] :: id in wanted
    requires !ConnectPass(s, ids[..i], was, wanted).ok
    ensures ConnectPass(s, ids, was, wanted) == ConnectPass(s, ids[..i], was, wanted)
  {
    if i < |ids| {
      assert ids[..|ids| - 1][..i] == ids[..i];
      assert forall id | id in ids[..|ids| - 1] :: id in ids;
      ConnectStops(s, ids[..|ids| - 1], was, wanted, i);
    } else {
      assert ids[..i] == ids;
    }
  }

  // ----- patches, seen from their parts -----

  lemma CreatedIs(g: Graph, p: Patch, streams: Streams, ok: bool, index: Index)
    requires (streams, ok) == Switch(g.streams, ConnectionsOf(g.streams, NO_PATCH), ConnectionsOf(g.streams, p))
    requires index == if ok then g.index + Registered(g.configs, p) else g.index
    ensures Created(g, p) ==
              (g.(patches := g.patches + [p], nextPatchId := g.nextPatchId + 1, index := index, streams := streams),
               if ok then Done else Undefined)
  {
  }

  lemma UpdatedIs(g: Graph, k: nat, p: Patch, streams: Streams, ok: bool, index: Index)
    requires k < |g.patches|
    requires (streams, ok) == Switch(g.streams, ConnectionsOf(g.streams, g.patches[k]), ConnectionsOf(g.streams, p))
    requires index == if ok then g.index + Registered(g.configs, p) else g.index
    ensures UpdatedFrom(g, k, p, g.index) ==
              (g.(patches := if ok then g.patches[k := p] else g.patches, index := index, streams := streams),
               if ok then Done else Refused)
  {
  }

  class AudioModule {
    var ports: seq<Port>
    var routes: seq<Route>
    var configs: seq<Config>
    var initials: seq<Config>
    var connectedProfiles: map<int, seq<Profile>>
    var patches: seq<Patch>
    var nextPortId: int
    var nextPatchId: int
    var connected: map<int, set<int>>
    var index: Index
    var streams: Streams
    var simulate: bool

    ghost function W(): Wiring
      reads this
    {
      Wiring(ports, routes, connected, nextPortId)
    }

    ghost function State(): Graph
      reads this
    {
      Graph(W(), configs, initials, patches, nextPatchId, index, streams)
    }

    // ----- devices -----

    /** Extends the routes from the template, and copies those to it. */
    method AddRoutes(template: int, port: int)
      modifies this`routes
      ensures routes == ExtendedRoutes(old(routes), template, port) + Copies(old(routes), template, port)
    {
      ghost var before := routes;
      var copies: seq<Route> := [];
      for i := 0 to |routes|
        invariant |routes| == |before|
        invariant forall k | 0 <= k < i :: routes[k] == Extended(before[k], template, port)
        invariant forall k | i <= k < |before| :: routes[k] == before[k]
        invariant copies == Copies(before[..i], template, port)
      {
        assert before[..i + 1][..i] == before[..i];
        if routes[i].sink == template {
          copies := copies + [routes[i].(sink := port)];
        } else if template in routes[i].sources {
          routes := routes[i := routes[i].(sources := routes[i].sources + [port])];
        }
      }
      assert before[..|before|] == before;
      assert routes == ExtendedRoutes(before, template, port);
      routes := routes + copies;
    }

    /** Fills the dynamic mix ports among the routable ones, and notes all those the device now holds. */
    method FillPorts(routable: set<int>, profiles: seq<Profile>, port: int)
      requires Unique(PortIds(ports)) && port in connected && connected[port] == {}
      modifies this`ports, this`connected
      ensures ports == FilledPorts(old(ports), routable, profiles)
      ensures connected == old(connected)[port := Holds(old(ports), routable, old(connected) - {port})]
    {
      ghost var (before, others) := (ports, connected - {port});
      assert connected == others[port := {}];
      for i := 0 to |ports|
        invariant |ports| == |before|
        invariant forall k | 0 <= k < i :: ports[k] == FilledPort(before[k], routable, profiles)
        invariant forall k | i <= k < |before| :: ports[k] == before[k]
        invariant connected == others[port := Holds(before[..i], routable, others)]
      {
        HeldByOthers(before, i, routable, others, connected, port);
        HoldsNext(before, i, routable, others);
        SetTwice(others, port, Holds(before[..i], routable, others), Holds(before[..i + 1], routable, others));
        FillPort(i, routable, profiles, port);
      }
      assert before[..|before|] == before && ports == FilledPorts(before, routable, profiles);
      assert connected == old(connected)[port := Holds(before, routable, others)];
    }

    method FillPort(i: nat, routable: set<int>, profiles: seq<Profile>, port: int)
      requires i < |ports| && port in connected
      modifies this`ports, this`connected
      ensures ports == old(ports)[i := FilledPort(old(ports[i]), routable, profiles)]
      ensures connected ==
                if Holding(old(ports[i]), routable, old(connected))
                then old(connected)[port := old(connected)[port] + {old(ports[i]).id}]
                else old(connected)
    {
      var p := ports[i];
      if p.id in routable {
        if DynamicOnly(p.profiles) {
          ports := ports[i := p.(profiles := profiles)];
          connected := connected[port := connected[port] + {p.id}];
        } else if Held(connected, p.id) {
          connected := connected[port := connected[port] + {p.id}];
        }
      }
    }

    static lemma SetTwice(m: map<int, set<int>>, key: int, a: set<int>, b: set<int>)
      ensures m[key := a][key := b] == m[key := b]
    {
    }

    static lemma HoldsNext(ports: seq<Port>, i: nat, routable: set<int>, others: map<int, set<int>>)
      requires i < |ports|
      ensures Holds(ports[..i + 1], routable, others) ==
                (if Holding(ports[i], routable, others) then Holds(ports[..i], routable, others) + {ports[i].id}
                 else Holds(ports[..i], routable, others))
    {
      assert ports[..i + 1][..i] == ports[..i];
    }

    /** A port not yet visited is held by others or by none. */
    static lemma HeldByOthers(
        ports: seq<Port>, i: nat, routable: set<int>, others: map<int, set<int>>, connected: map<int, set<int>>,
        port: int)
      requires Unique(PortIds(ports)) && i < |ports| && port !in others
      requires connected == others[port := Holds(ports[..i], routable, others)]
      ensures Held(connected, ports[i].id) <==> Held(others, ports[i].id)
    {
      assert PortIds(ports)[i] == ports[i].id && forall k | 0 <= k < i :: PortIds(ports)[k] == ports[..i][k].id;
      if Held(others, ports[i].id) {
        var c :| c in others && ports[i].id in others[c];
        assert c in connected && ports[i].id in connected[c];
      }
    }

    /** What becomes of the profiles of a device: the hardware's answer, or a simulated one. */
    static function Populated(
        simulate: bool, simulated: map<int, seq<Profile>>, template: int, profiles: seq<Profile>,
        hardware: Option<seq<Profile>>): Option<seq<Profile>>
    {
      if !simulate then hardware
      else if DynamicOnly(profiles) && template in simulated then Some(simulated[template])
      else Some(profiles)
    }

    method ConnectExternalDevice(template: int, descriptors: seq<int>, address: string, hardware: Option<seq<Profile>>)
      returns (status: Status)
      requires Unique(PortIds(ports)) && nextPortId !in PortIds(ports) && nextPortId !in connected
      modifies this`ports, this`routes, this`connected, this`nextPortId
      ensures Attachable(old(W()), template) ==>
        var t := old(ports)[Find(PortIds(old(ports)), template)];
        (W(), status) == Connect(old(W()), template, descriptors, address,
                                   Populated(simulate, connectedProfiles, template, t.profiles, hardware))
      ensures !Attachable(old(W()), template) ==> W() == old(W()) && status == IllegalArgument
    {
      ghost var w := W();
      var at := Find(PortIds(ports), template);
      if at < 0 || !ports[at].ext.External? || ports[at].ext.device.connection == "" || template in connected {
        return IllegalArgument;
      }
      var port := ports[at].(descriptors := descriptors, ext := External(ports[at].ext.device.(address := address)));
      var already := exists c | c in connected :: var i := Find(PortIds(ports), c); i >= 0 && ports[i].ext == port.ext;
      assert already == AlreadyConnected(w, port.ext.device);
      if already {
        return IllegalState;
      }
      var routable := Routable(routes, template);
      var id := nextPortId;
      nextPortId := nextPortId + 1;
      var populated := Populated(simulate, connectedProfiles, template, port.profiles, hardware);
      if populated.None? {
        return IllegalArgument;
      }
      port := port.(profiles := populated.value);
      if DynamicOnly(port.profiles) && HasDynamicPeer(ports, routable) {
        return IllegalState;
      }
      port := port.(id := id);
      assert port == Connecting(w, template, descriptors, address, populated.value);
      Plug(template, port, routable);
      return Ok;
    }

    method Plug(template: int, port: Port, routable: set<int>)
      requires routable == Routable(routes, template)
      requires Unique(PortIds(ports)) && port.id !in PortIds(ports) && port.id !in connected
      modifies this`ports, this`routes, this`connected
      ensures W() == Plugged(old(W()), template, port)
    {
      connected := connected[port.id := {}];
      ports := ports + [port];
      assert PortIds(ports) == PortIds(old(ports)) + [port.id];
      AddRoutes(template, port.id);
      if !DynamicOnly(port.profiles) {
        assert connected - {port.id} == old(connected);
        FillPorts(routable, port.profiles, port.id);
      }
    }

    method DropRoutes(port: int)
      modifies this`routes
      ensures routes == Unrouted(old(routes), port)
    {
      ghost var before := routes;
      var i := 0;
      ghost var seen := 0;
      while i < |routes|
        invariant 0 <= i <= |routes| && 0 <= seen <= |before|
        invariant routes[..i] == Unrouted(before[..seen], port) && routes[i..] == before[seen..]
        decreases |routes| - i
      {
        assert before[..seen + 1][..seen] == before[..seen] && routes[i] == before[seen];
        if routes[i].sink == port {
          routes := routes[..i] + routes[i + 1..];
        } else {
          routes := routes[i := routes[i].(sources := Dropped(routes[i].sources, port))];
          assert routes[..i + 1] == routes[..i] + [routes[i]];
          i := i + 1;
        }
        seen := seen + 1;
      }
      assert before[..seen] == before && routes[..i] == routes;
    }

    /** The mix ports of `mixes` that no connected device holds. */
    method Released(mixes: set<int>) returns (free: set<int>)
      ensures free == set mix | mix in mixes && !Held(connected, mix)
    {
      free := mixes;
      var ids := Ascending(connected.Keys);
      for i := 0 to |ids|
        invariant free <= mixes
        invariant forall mix | mix in mixes :: mix in free <==> forall k | 0 <= k < i :: mix !in connected[ids[k]]
      {
        free := free - connected[ids[i]];
      }
      forall mix | mix in mixes
        ensures mix in free <==> !Held(connected, mix)
      {
        if c :| c in connected && mix in connected[c] {
          var k :| 0 <= k < |ids| && ids[k] == c;
        }
        if mix !in free {
          var k :| 0 <= k < |ids| && mix in connected[ids[k]];
        }
      }
    }

    method ClearPorts(mixes: set<int>)
      requires Unique(PortIds(ports))
      modifies this`ports
      ensures ports == ClearedPorts(old(ports), mixes)
    {
      var ids := Ascending(mixes);
      for i := 0 to |ids|
        invariant ports == ClearedPorts(old(ports), Elements(ids[..i]))
      {
        assert Elements(ids[..i + 1]) == Elements(ids[..i]) + {ids[i]};
        assert PortIds(ports) == PortIds(old(ports));
        var at := Find(PortIds(ports), ids[i]);
        assert forall k | 0 <= k < |ports| && k != at :: PortIds(ports)[k] != ids[i];
        if at >= 0 {
          ports := ports[at := ports[at].(profiles := [])];
        }
        assert ports == ClearedPorts(old(ports), Elements(ids[..i + 1]));
      }
      assert Elements(ids[..|ids|]) == mixes;
    }

    method DisconnectExternalDevice(port: int) returns (status: Status)
      requires Unique(PortIds(ports))
      modifies this`ports, this`routes, this`connected
      ensures (W(), status) == Disconnect(old(W()), configs, initials, port)
    {
      var at := Find(PortIds(ports), port);
      if at < 0 || !ports[at].ext.External? || port !in connected {
        return IllegalArgument;
      }
      if exists i | 0 <= i < |configs| ::
           && configs[i].port == port
           && var k := Find(ConfigIds(initials), configs[i].id); k < 0 || configs[i] != initials[k] {
        return IllegalState;
      }
      ports := Without(ports, at);
      assert Unique(PortIds(ports)) by {
        assert PortIds(ports) == Without(PortIds(old(ports)), at);
        FindWithout(PortIds(old(ports)), at, port);
      }
      DropRoutes(port);
      var mixes := connected[port];
      connected := connected - {port};
      mixes := Released(mixes);
      ClearPorts(mixes);
      return Ok;
    }

    // ----- the patch index -----

    method CleanUpPatch(patch: int)
      modifies this`index
      ensures index == CleanedUp(old(index), patch)
    {
      var (rest, kept) := (index, multiset{});
      while rest != multiset{}
        invariant rest <= old(index)
        invariant forall pair: (int, int) :: kept[pair] == if pair.1 == patch then 0 else old(index)[pair] - rest[pair]
        decreases |rest|
      {
        var pair :| pair in rest;
        rest := rest - multiset{pair};
        if pair.1 != patch {
          kept := kept + multiset{pair};
        }
      }
      index := kept;
    }

    method RegisterId(id: int, patch: int)
      modifies this`index
      ensures index == old(index) + PairsOf(configs, id, patch)
    {
      var at := Find(ConfigIds(configs), id);
      if at >= 0 {
        index := index + multiset{(id, patch)};
        if configs[at].port != id {
          index := index + multiset{(configs[at].port, patch)};
        }
      }
    }

    method RegisterIds(ids: seq<int>, patch: int)
      modifies this`index
      ensures index == old(index) + AllPairs(configs, ids, patch)
    {
      for i := 0 to |ids|
        invariant index == old(index) + AllPairs(configs, ids[..i], patch)
      {
        assert ids[..i + 1][..i] == ids[..i];
        RegisterId(ids[i], patch);
      }
      assert ids[..|ids|] == ids;
    }

    method RegisterPatch(p: Patch)
      modifies this`index
      ensures index == old(index) + Registered(configs, p)
    {
      RegisterIds(p.sources, p.id);
      RegisterIds(p.sinks, p.id);
    }

    // ----- streams -----

    method SetStreamConnectedDevices(id: int, devices: set<int>) returns (ok: bool)
      modifies this`streams
      ensures (streams, ok) == SetDevices(old(streams), id, devices)
    {
      if id !in streams.open {
        return true;
      }
      var a := streams.script(streams.calls);
      var stream := streams.open[id].(devices := if a.ok then devices else a.left);
      streams := streams.(calls := streams.calls + 1, open := streams.open[id := stream]);
      return a.ok;
    }

    method RestoreConnections(touched: set<int>, was: Connections, emptyToo: bool)
      modifies this`streams
      ensures streams == Restored(old(streams), Ascending(touched), was, emptyToo)
    {
      var ids := Ascending(touched);
      for i := 0 to |ids|
        invariant streams == Restored(old(streams), ids[..i], was, emptyToo)
      {
        assert ids[..i + 1][..i] == ids[..i];
        if ids[i] in was || emptyToo {
          var _ := SetStreamConnectedDevices(ids[i], if ids[i] in was then was[ids[i]] else {});
        }
      }
      assert ids[..|ids|] == ids;
    }

    method DisconnectStreams(was: Connections, wanted: Connections) returns (ok: bool, touched: set<int>)
      modifies this`streams
      ensures Pass(streams, ok, touched) == DisconnectPass(old(streams), Ascending(was.Keys), wanted)
    {
      var ids := Ascending(was.Keys);
      ok, touched := true, {};
      var i := 0;
      while i < |ids| && ok
        invariant 0 <= i <= |ids| && Pass(streams, ok, touched) == DisconnectPass(old(streams), ids[..i], wanted)
        decreases |ids| - i
      {
        assert ids[..i + 1][..i] == ids[..i];
        if ids[i] !in wanted {
          touched := touched + {ids[i]};
          ok := SetStreamConnectedDevices(ids[i], {});
        }
        i := i + 1;
      }
      if ok {
        assert ids[..i] == ids;
      } else {
        DisconnectStops(old(streams), ids, wanted, i);
      }
    }

    method ConnectStreams(was: Connections, wanted: Connections) returns (ok: bool, touched: set<int>)
      modifies this`streams
      ensures Pass(streams, ok, touched) == ConnectPass(old(streams), Ascending(wanted.Keys), was, wanted)
    {
      var ids := Ascending(wanted.Keys);
      ok, touched := true, {};
      var i := 0;
      while i < |ids| && ok
        invariant 0 <= i <= |ids| && Pass(streams, ok, touched) == ConnectPass(old(streams), ids[..i], was, wanted)
        decreases |ids| - i
      {
        assert ids[..i + 1][..i] == ids[..i] && ids[i] in ids;
        if !(ids[i] in was && was[ids[i]] == wanted[ids[i]]) {
          touched := touched + {ids[i]};
          ok := SetStreamConnectedDevices(ids[i], wanted[ids[i]]);
        }
        i := i + 1;
      }
      if ok {
        assert ids[..i] == ids;
      } else {
        ConnectStops(old(streams), ids, was, wanted, i);
      }
    }

    method UpdateStreamsConnectedState(oldPatch: Patch, newPatch: Patch) returns (ok: bool)
      modifies this`streams
      ensures (streams, ok) ==
          Switch(old(streams), ConnectionsOf(old(streams), oldPatch), ConnectionsOf(old(streams), newPatch))
    {
      var was, wanted := ConnectionsOf(streams, oldPatch), ConnectionsOf(streams, newPatch);
      var toConnectBack, toRollBack;
      ok, toConnectBack := DisconnectStreams(was, wanted);
      if !ok {
        RestoreConnections(toConnectBack, was, false);
        return false;
      }
      ok, toRollBack := ConnectStreams(was, wanted);
      if !ok {
        RestoreConnections(toConnectBack, was, false);
        RestoreConnections(toRollBack, was, true);
        return false;
      }
    }

    // ----- patches -----

    /** The map has the sink ports the sources lead to, with whether some route there is not exclusive. */
    static ghost predicate Charts(routes: seq<Route>, configs: seq<Config>, sources: seq<int>, allowed: map<int, bool>)
      requires AllIn(sources, ConfigIds(configs))
    {
      && (forall sink :: sink in allowed <==> Leads(routes, configs, sources, sink, false))
      && (forall sink | sink in allowed :: allowed[sink] == Leads(routes, configs, sources, sink, true))
    }

    /** The sink ports the sources lead to, with whether some route there is not exclusive. */
    method AllowedSinkPorts(sources: seq<int>) returns (allowed: map<int, bool>)
      requires AllIn(sources, ConfigIds(configs))
      ensures Charts(routes, configs, sources, allowed)
    {
      allowed := map[];
      for k := 0 to |routes|
        invariant Charts(routes[..k], configs, sources, allowed)
      {
        var r := routes[k];
        var reached := false;
        for i := 0 to |sources|
          invariant reached <==> exists j | 0 <= j < i :: PortOf(configs, sources[j]) in r.sources
        {
          reached := reached || PortOf(configs, sources[i]) in r.sources;
        }
        assert reached <==> Reaches(r, configs, sources);
        ghost var before := allowed;
        if reached && !(r.sink in allowed && allowed[r.sink]) {
          allowed := allowed[r.sink := !r.exclusive];
        }
        forall sink
          ensures sink in allowed <==> Leads(routes[..k + 1], configs, sources, sink, false)
          ensures sink in allowed ==> allowed[sink] == Leads(routes[..k + 1], configs, sources, sink, true)
        {
          LeadsNext(routes, k, configs, sources, sink, false);
          LeadsNext(routes, k, configs, sources, sink, true);
        }
      }
      assert routes[..|routes|] == routes;
    }

    static lemma LeadsNext(routes: seq<Route>, k: nat, configs: seq<Config>, sources: seq<int>, sink: int, openly: bool)
      requires k < |routes| && AllIn(sources, ConfigIds(configs))
      ensures Leads(routes[..k + 1], configs, sources, sink, openly) <==>
                (|| Leads(routes[..k], configs, sources, sink, openly)
                 || (&& routes[k].sink == sink && Reaches(routes[k], configs, sources)
                     && (openly ==> !routes[k].exclusive)))
    {
      var (a, b) := (routes[..k], routes[..k + 1]);
      if i :| 0 <= i < k && a[i].sink == sink && Reaches(a[i], configs, sources) && (openly ==> !a[i].exclusive) {
        assert b[i] == a[i];
      }
      if i :| 0 <= i < k + 1 && b[i].sink == sink && Reaches(b[i], configs, sources) && (openly ==> !b[i].exclusive) {
        assert i < k ==> a[i] == b[i];
      }
      assert b[k] == routes[k];
    }

    method SetAudioPatch(requested: Patch, matches: bool, sized: bool) returns (outcome: Outcome)
      modifies this`patches, this`nextPatchId, this`index, this`streams
      ensures (State(), outcome) == SetPatch(old(State()), requested, matches, sized)
    {
      if requested.sources == [] || !AllUnique(requested.sources)
        || requested.sinks == [] || !AllUnique(requested.sinks)
        || !AllIn(requested.sources, ConfigIds(configs)) || !AllIn(requested.sinks, ConfigIds(configs)) {
        return Invalid;
      }
      var allowed := AllowedSinkPorts(requested.sources);
      if exists i | 0 <= i < |requested.sinks| :: PortOf(configs, requested.sinks[i]) !in allowed {
        return Invalid;
      }
      assert WellAddressed(old(State()), requested);
      if !matches {
        return Invalid;
      }
      var at := Find(PatchIds(patches), requested.id);
      var backup := index;
      if requested.id != 0 {
        if at < 0 {
          return Invalid;
        }
        CleanUpPatch(requested.id);
      }
      var excluded := ExcludedSink(requested, allowed);
      assert excluded == Excluded(old(State()), index, requested);
      if excluded || !sized {
        index := backup;
        return Conflict;
      }
      if requested.id == 0 {
        outcome := CreatePatch(requested.(id := nextPatchId));
      } else {
        outcome := UpdatePatch(at, requested);
      }
    }

    /** Looks for a sink that is only reached exclusively and is in use. */
    method FindBusySink(allowed: map<int, bool>) returns (busy: bool, sink: int)
      ensures busy ==> sink in allowed && !allowed[sink] && Uses(index, sink)
      ensures !busy ==> forall s | s in allowed :: allowed[s] || !Uses(index, s)
    {
      var sinks := Ascending(allowed.Keys);
      for k := 0 to |sinks|
        invariant forall j | 0 <= j < k :: sinks[j] in allowed && (allowed[sinks[j]] || !Uses(index, sinks[j]))
      {
        sink := sinks[k];
        assert sink in allowed;
        if !allowed[sink] && Uses(index, sink) {
          return true, sink;
        }
      }
      forall s | s in allowed
        ensures allowed[s] || !Uses(index, s)
      {
        var j :| 0 <= j < |sinks| && sinks[j] == s;
      }
      return false, 0;
    }

    method ExcludedSink(p: Patch, allowed: map<int, bool>) returns (excluded: bool)
      requires AllIn(p.sources, ConfigIds(configs)) && Charts(routes, configs, p.sources, allowed)
      ensures excluded == Excluded(State(), index, p)
    {
      var sink;
      excluded, sink := FindBusySink(allowed);
      if excluded {
        UsedIsExcluded(State(), p, allowed, sink);
      } else {
        NotExcluded(State(), p, allowed);
      }
    }

    static lemma UsedIsExcluded(g: Graph, p: Patch, allowed: map<int, bool>, sink: int)
      requires AllIn(p.sources, ConfigIds(g.configs)) && Charts(g.wiring.routes, g.configs, p.sources, allowed)
      requires sink in allowed && !allowed[sink] && Uses(g.index, sink)
      ensures Excluded(g, g.index, p)
    {
      assert Leads(g.wiring.routes, g.configs, p.sources, sink, false);
    }

    static lemma NotExcluded(g: Graph, p: Patch, allowed: map<int, bool>)
      requires AllIn(p.sources, ConfigIds(g.configs)) && Charts(g.wiring.routes, g.configs, p.sources, allowed)
      requires forall sink | sink in allowed :: allowed[sink] || !Uses(g.index, sink)
      ensures !Excluded(g, g.index, p)
    {
      var routes := g.wiring.routes;
      forall i | 0 <= i < |routes| && Reaches(routes[i], g.configs, p.sources) &&
          !Leads(routes, g.configs, p.sources, routes[i].sink, true)
        ensures !Uses(g.index, routes[i].sink)
      {
        assert Leads(routes, g.configs, p.sources, routes[i].sink, false);
      }
    }

    /** Registers the patch and switches its streams; a refusal takes the index back to the backup. */
    method RegisterAndSwitch(oldPatch: Patch, p: Patch) returns (ok: bool)
      modifies this`index, this`streams
      ensures (streams, ok) ==
          Switch(old(streams), ConnectionsOf(old(streams), oldPatch), ConnectionsOf(old(streams), p))
      ensures index == if ok then old(index) + Registered(configs, p) else old(index)
    {
      var backup := index;
      RegisterPatch(p);
      ok := UpdateStreamsConnectedState(oldPatch, p);
      if !ok {
        index := backup;
      }
    }

    method CreatePatch(p: Patch) returns (outcome: Outcome)
      requires p.id == nextPatchId
      modifies this`patches, this`nextPatchId, this`index, this`streams
      ensures (State(), outcome) == Created(old(State()), p)
    {
      nextPatchId := nextPatchId + 1;
      patches := patches + [p];
      var ok := RegisterAndSwitch(NO_PATCH, p);
      CreatedIs(old(State()), p, streams, ok, index);
      outcome := if ok then Done else Undefined;
    }

    /** The index was cleaned up before, and the backup is only taken now. */
    method UpdatePatch(at: nat, p: Patch) returns (outcome: Outcome)
      requires at < |patches|
      modifies this`patches, this`index, this`streams
      ensures (State(), outcome) == UpdatedFrom(old(State()), at, p, old(index))
    {
      var oldPatch := patches[at];
      patches := patches[at := p];
      var ok := RegisterAndSwitch(oldPatch, p);
      if !ok {
        patches := patches[at := oldPatch];
        assert patches == old(patches);
      }
      UpdatedIs(old(State()), at, p, streams, ok, index);
      outcome := if ok then Done else Refused;
    }

    /** Cleans up after the patch and disconnects its streams; a refusal takes the index back to the backup. */
    method CleanUpAndSwitch(oldPatch: Patch) returns (ok: bool)
      modifies this`index, this`streams
      ensures (streams, ok) ==
          Switch(old(streams), ConnectionsOf(old(streams), oldPatch), ConnectionsOf(old(streams), NO_PATCH))
      ensures index == if ok then CleanedUp(old(index), oldPatch.id) else old(index)
    {
      var backup := index;
      CleanUpPatch(oldPatch.id);
      ok := UpdateStreamsConnectedState(oldPatch, NO_PATCH);
      if !ok {
        index := backup;
      }
    }

    method ResetAudioPatch(id: int) returns (outcome: Outcome)
      modifies this`patches, this`index, this`streams
      ensures (State(), outcome) == ResetPatch(old(State()), id)
    {
      var at := Find(PatchIds(patches), id);
      if at < 0 {
        return Invalid;
      }
      var ok := CleanUpAndSwitch(patches[at]);
      if ok {
        patches := Without(patches, at);
      }
      outcome := if ok then Done else Refused;
    }

    // ----- port configs -----

    method SetAudioPortConfig(r: Request) returns (outcome: Outcome, applied: bool)
      modifies this`configs, this`nextPortId
      ensures (State(), outcome, applied) == SetConfig(old(State()), r)
    {
      var existing := Find(ConfigIds(configs), r.id);
      if r.id != 0 && existing < 0 {
        return Invalid, false;
      }
      var portId := if r.id != 0 then configs[existing].port else r.port;
      var at := Find(PortIds(ports), portId);
      if portId == 0 || at < 0
        || (ports[at].ext.External? && ports[at].ext.device.connection != "" && portId !in connected) {
        return Invalid, false;
      }
      var start := if r.id != 0 then Some(configs[existing]) else DefaultConfig(ports[at]);
      if start.None? {
        return Invalid, false;
      }
      var supported, suggested, valid, full := Suggest(ports[at], start.value, r);
      if !supported {
        return Invalid, false;
      }
      if r.id == 0 && valid && full {
        suggested := suggested.(id := nextPortId);
        nextPortId := nextPortId + 1;
        configs := configs + [suggested];
        return Done, true;
      } else if r.id != 0 && valid {
        configs := configs[existing := suggested];
        return Done, true;
      }
      return Done, false;
    }

    /** The requested format if the port has it, else the one of the config. */
    static method ChooseFormat(port: Port, start: Config, r: Request) returns (format: int, granted: bool)
      ensures format == Chosen(port, start, r)
      ensures Supported(port, format) ==> (granted <==> (r.format.Some? ==> r.format.value == format))
    {
      format, granted := start.format, true;
      if r.format.Some? {
        if (r.format.value == 0 && SelfConfiguring(port)) || FindProfile(port.profiles, r.format.value).Some? {
          format := r.format.value;
        } else {
          granted := false;
        }
      }
    }

    /** Updates a config field by field according to what is requested. */
    static method Suggest(port: Port, start: Config, r: Request)
      returns (supported: bool, suggested: Config, valid: bool, full: bool)
      ensures supported == Supported(port, Chosen(port, start, r))
      ensures supported ==> suggested == Suggested(port, start, r)
      ensures supported ==> valid == Requestable(port, start, r) && full == FullySpecified(r)
    {
      var selfConfiguring := SelfConfiguring(port);
      var format, granted := ChooseFormat(port, start, r);
      suggested := start.(format := format);
      valid := granted && (r.flags.Some? ==> r.flags.value == port.flags);
      full := r.flags.Some? && r.format.Some?;
      var found := FindProfile(port.profiles, format);
      if !(format == 0 && selfConfiguring) && found.None? {
        return false, start, false, false;
      }
      var profile := if format == 0 && selfConfiguring then Profile(0, [], []) else found.value;
      assert profile == ProfileFor(port, format);
      if r.mask.Some? {
        if (r.mask.value == 0 && selfConfiguring) || r.mask.value in profile.masks {
          suggested := suggested.(mask := r.mask.value);
        } else {
          valid := false;
        }
      } else {
        full := false;
      }
      if r.rate.Some? {
        if (r.rate.value == 0 && selfConfiguring) || r.rate.value in profile.rates {
          suggested := suggested.(rate := r.rate.value);
        } else {
          valid := false;
        }
      } else {
        full := false;
      }
      if !r.ext.Unspecified? {
        if (r.ext.Mix? && suggested.ext.Mix?) || (r.ext.External? && suggested.ext.External?) {
          if suggested.ext.Mix? {
            suggested := suggested.(ext := suggested.ext.(handle := r.ext.handle, usecase := r.ext.usecase));
          }
        } else {
          valid := false;
        }
      }
      supported := true;
    }

    method ResetAudioPortConfig(id: int) returns (outcome: Outcome)
      modifies this`configs
      ensures (State(), outcome) == ResetConfig(old(State()), id)
    {
      var at := Find(ConfigIds(configs), id);
      if at < 0 {
        return Invalid;
      }
      if id in streams.open || Uses(index, id) {
        return Conflict;
      }
      var initial := Find(ConfigIds(initials), id);
      if initial < 0 {
        configs := Without(configs, at);
      } else if configs[at] != initials[initial] {
        configs := configs[at := initials[initial]];
      } else {
        assert configs[at := initials[initial]] == configs;
      }
      return Done;
    }

    // ----- opening streams -----

    method FindPortIdForNewStream(config: int) returns (outcome: Outcome)
      ensures outcome == NewStreamPort(State(), config)
    {
      var at := Find(ConfigIds(configs), config);
      if at < 0 {
        return Invalid;
      }
      var portId := configs[at].port;
      if portId == config {
        return Undefined;
      }
      var portAt := Find(PortIds(ports), portId);
      if portAt < 0 {
        return Invalid;
      }
      if config in streams.open {
        return Conflict;
      }
      if !ports[portAt].ext.Mix? {
        return Invalid;
      }
      var most := ports[portAt].ext.maxOpen;
      assert PortIds(ports)[portAt] == ports[portAt].id;
      var count := OpenOn(streams, portId);
      return if most != 0 && count >= most then Conflict else Done;
    }
  }
}
