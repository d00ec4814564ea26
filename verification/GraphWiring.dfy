/**
Connecting and disconnecting devices: ids stay fresh and references valid, mix ports are filled exactly
while some connected device holds them, and disconnecting undoes connecting.
*/
module GraphWiring {
  import opened GraphModel

  // ----- the invariant -----

  predicate DeviceAt(ports: seq<Port>, id: int) {
    var i := Find(PortIds(ports), id);
    i >= 0 && ports[i].ext.External?
  }

  predicate FreshIds(ids: seq<int>, next: int) {
    forall i | 0 <= i < |ids| :: 0 < ids[i] < next
  }

  /** A route joins existing ports, devices to mixes, and has a source that is there to stay. */
  predicate GoodRoute(w: Wiring, r: Route) {
    && r.sink in PortIds(w.ports)
    && (forall k | 0 <= k < |r.sources| ::
          r.sources[k] in PortIds(w.ports) && DeviceAt(w.ports, r.sources[k]) != DeviceAt(w.ports, r.sink))
    && exists k | 0 <= k < |r.sources| :: r.sources[k] !in w.connected
  }

  predicate GoodHold(w: Wiring, c: int)
    requires c in w.connected
  {
    DeviceAt(w.ports, c) && forall mix | mix in w.connected[c] :: mix in PortIds(w.ports) && !DeviceAt(w.ports, mix)
  }

  ghost predicate Wired(w: Wiring) {
    && 0 < w.nextPortId && Unique(PortIds(w.ports)) && FreshIds(PortIds(w.ports), w.nextPortId)
    && (forall i {:trigger GoodRoute(w, w.routes[i])} | 0 <= i < |w.routes| :: GoodRoute(w, w.routes[i]))
    && (forall c {:trigger GoodHold(w, c)} | c in w.connected :: GoodHold(w, c))
  }

  /**
  A port against what it was at the start: one that is no device has changed at most its profiles, and
  those only if they were dynamic; it has concrete ones exactly while a connected device holds it.
  */
  predicate CountedAt(w: Wiring, origin: seq<Port>, i: nat)
    requires i < |w.ports|
  {
    var p, k := w.ports[i], Find(PortIds(origin), w.ports[i].id);
    if k < 0 then p.id in w.connected
    else
      var o := origin[k];
      && p == o.(profiles := p.profiles)
      && (if !p.ext.External? && DynamicOnly(o.profiles) then Held(w.connected, p.id) <==> !DynamicOnly(p.profiles)
          else p == o && !Held(w.connected, p.id))
  }

  ghost predicate Counted(w: Wiring, origin: seq<Port>) {
    forall i {:trigger CountedAt(w, origin, i)} | 0 <= i < |w.ports| :: CountedAt(w, origin, i)
  }

  // ----- lookup -----

  lemma FindUnique(ids: seq<int>, i: nat)
    requires Unique(ids) && i < |ids|
    ensures Find(ids, ids[i]) == i
  {
    var r := Find(ids, ids[i]);
    assert ids[i] in ids;
  }

  lemma FindAppend(ids: seq<int>, more: int, id: int)
    ensures Find(ids + [more], id) == if id in ids then Find(ids, id) else if id == more then |ids| else -1
  {
    var r := Find(ids, id);
    var r' := Find(ids + [more], id);
    if id in ids {
      assert (ids + [more])[r] == id;
    } else if id == more {
      assert (ids + [more])[|ids|] == id;
      assert forall i | 0 <= i < |ids| :: (ids + [more])[i] != id;
    }
  }

  lemma FindWithout(ids: seq<int>, i: nat, id: int)
    requires Unique(ids) && i < |ids|
    ensures Unique(Without(ids, i))
    ensures id in Without(ids, i) <==> id in ids && id != ids[i]
    ensures id in ids && id != ids[i] ==>
      var k := Find(ids, id); Find(Without(ids, i), id) == if k < i then k else k - 1
  {
    var rest := Without(ids, i);
    assert forall k | 0 <= k < |rest| :: rest[k] == ids[if k < i then k else k + 1];
    if id in ids && id != ids[i] {
      var k := Find(ids, id);
      var j := if k < i then k else k - 1;
      assert rest[j] == id;
      FindUnique(rest, j);
    }
  }

  lemma {:induction false} RoutableIff(routes: seq<Route>, port: int, x: int)
    ensures x in Routable(routes, port) <==> exists i | 0 <= i < |routes| :: x in Peers(routes[i], port)
  {
    if routes != [] {
      var n := |routes| - 1;
      RoutableIff(routes[..n], port, x);
      assert routes[..n] + [routes[n]] == routes;
      if i :| 0 <= i < |routes| && x in Peers(routes[i], port) {
        assert i == n || x in Peers(routes[..n][i], port);
      }
      if j :| 0 <= j < n && x in Peers(routes[..n][j], port) {
        assert x in Peers(routes[j], port);
      }
    }
  }

  /** A device's peers are mix ports. */
  lemma RoutableAreMixes(w: Wiring, template: int, x: int)
    requires Wired(w) && DeviceAt(w.ports, template) && x in Routable(w.routes, template)
    ensures x in PortIds(w.ports) && !DeviceAt(w.ports, x)
  {
    RoutableIff(w.routes, template, x);
    var i :| 0 <= i < |w.routes| && x in Peers(w.routes[i], template);
    assert GoodRoute(w, w.routes[i]);
    var r := w.routes[i];
    if r.sink == template {
      var k :| 0 <= k < |r.sources| && r.sources[k] == x;
    } else {
      var k :| 0 <= k < |r.sources| && r.sources[k] == template;
      assert DeviceAt(w.ports, r.sources[k]) != DeviceAt(w.ports, r.sink);
    }
  }

  // ----- connecting keeps the invariant -----

  /** The new port has a fresh id and stands for a device. */
  ghost predicate Pluggable(w: Wiring, template: int, port: Port) {
    && Wired(w) && DeviceAt(w.ports, template) && template !in w.connected
    && port.id == w.nextPortId - 1 && port.id > 0 && port.id !in PortIds(w.ports) && port.ext.External?
  }

  lemma PluggedPorts(w: Wiring, template: int, port: Port)
    requires Pluggable(w, template, port)
    ensures var w' := Plugged(w, template, port);
            && PortIds(w'.ports) == PortIds(w.ports) + [port.id]
            && Unique(PortIds(w'.ports)) && FreshIds(PortIds(w'.ports), w'.nextPortId)
            && (forall id :: DeviceAt(w'.ports, id) <==> id == port.id || DeviceAt(w.ports, id))
  {
    PluggedIds(w, template, port);
    forall id
      ensures DeviceAt(Plugged(w, template, port).ports, id) <==> id == port.id || DeviceAt(w.ports, id)
    {
      PluggedDevice(w, template, port, id);
    }
  }

  lemma PluggedIds(w: Wiring, template: int, port: Port)
    requires Pluggable(w, template, port)
    ensures var w' := Plugged(w, template, port);
            && PortIds(w'.ports) == PortIds(w.ports) + [port.id]
            && Unique(PortIds(w'.ports)) && FreshIds(PortIds(w'.ports), w'.nextPortId)
  {
    assert PortIds(Plugged(w, template, port).ports) == PortIds(w.ports) + [port.id];
  }

  lemma PluggedDevice(w: Wiring, template: int, port: Port, id: int)
    requires Pluggable(w, template, port)
    ensures DeviceAt(Plugged(w, template, port).ports, id) <==> id == port.id || DeviceAt(w.ports, id)
  {
    PluggedIds(w, template, port);
    FindAppend(PortIds(w.ports), port.id, id);
  }

  lemma {:induction false} CopiesAre(routes: seq<Route>, template: int, port: int, j: nat)
    requires j < |Copies(routes, template, port)|
    ensures exists i | 0 <= i < |routes| ::
        routes[i].sink == template && Copies(routes, template, port)[j] == routes[i].(sink := port)
  {
    var n := |routes| - 1;
    var before := Copies(routes[..n], template, port);
    if j < |before| {
      CopiesAre(routes[..n], template, port, j);
      var i :| 0 <= i < n && routes[..n][i].sink == template && before[j] == routes[..n][i].(sink := port);
      assert routes[i].sink == template;
    } else {
      assert routes[n].sink == template;
    }
  }

  /** Ports stay what they are, and nothing but the new port becomes connected. */
  ghost predicate Grown(w: Wiring, w': Wiring, id: int) {
    && (forall x :: x in PortIds(w'.ports) <==> x == id || x in PortIds(w.ports))
    && (forall x :: DeviceAt(w'.ports, x) <==> x == id || DeviceAt(w.ports, x))
    && w'.connected.Keys == w.connected.Keys + {id} && id !in PortIds(w.ports)
  }

  lemma StaysGood(w: Wiring, w': Wiring, id: int, r: Route)
    requires Grown(w, w', id) && GoodRoute(w, r)
    ensures GoodRoute(w', r)
  {
    var k :| 0 <= k < |r.sources| && r.sources[k] !in w.connected;
    assert r.sources[k] in PortIds(w.ports) && r.sources[k] !in w'.connected;
  }

  lemma ExtendedIsGood(w: Wiring, w': Wiring, id: int, template: int, r: Route)
    requires Grown(w, w', id) && GoodRoute(w, r) && DeviceAt(w.ports, template)
    ensures GoodRoute(w', Extended(r, template, id))
  {
    StaysGood(w, w', id, r);
    var r' := Extended(r, template, id);
    if r' != r {
      var t :| 0 <= t < |r.sources| && r.sources[t] == template;
      assert DeviceAt(w'.ports, r.sources[t]) != DeviceAt(w'.ports, r.sink);
      var k :| 0 <= k < |r.sources| && r.sources[k] !in w'.connected;
      assert r'.sources[k] !in w'.connected;
    }
  }

  lemma CopyIsGood(w: Wiring, w': Wiring, id: int, template: int, r: Route)
    requires Grown(w, w', id) && GoodRoute(w, r) && DeviceAt(w.ports, template) && r.sink == template
    ensures GoodRoute(w', r.(sink := id))
  {
    StaysGood(w, w', id, r);
    var k :| 0 <= k < |r.sources| && r.sources[k] !in w'.connected;
    assert r.(sink := id).sources[k] !in w'.connected;
  }

  lemma PluggedHolds(w: Wiring, template: int, port: Port, c: int)
    requires Pluggable(w, template, port) && c in Plugged(w, template, port).connected
    ensures GoodHold(Plugged(w, template, port), c)
  {
    var w' := Plugged(w, template, port);
    PluggedPorts(w, template, port);
    if c == port.id {
      forall mix | mix in w'.connected[c]
        ensures mix in PortIds(w'.ports) && !DeviceAt(w'.ports, mix)
      {
        RoutableAreMixes(w, template, mix);
      }
    } else {
      assert GoodHold(w, c);
    }
  }

  lemma PluggedRoutes(w: Wiring, template: int, port: Port, i: nat)
    requires Pluggable(w, template, port) && Grown(w, Plugged(w, template, port), port.id)
    requires i < |Plugged(w, template, port).routes|
    ensures GoodRoute(Plugged(w, template, port), Plugged(w, template, port).routes[i])
  {
    var (w', n) := (Plugged(w, template, port), |w.routes|);
    if i < n {
      assert GoodRoute(w, w.routes[i]);
      ExtendedIsGood(w, w', port.id, template, w.routes[i]);
    } else {
      CopiesAre(w.routes, template, port.id, i - n);
      var k :| 0 <= k < n && w.routes[k].sink == template && w'.routes[i] == w.routes[k].(sink := port.id);
      assert GoodRoute(w, w.routes[k]);
      CopyIsGood(w, w', port.id, template, w.routes[k]);
    }
  }

  lemma PluggedIsWired(w: Wiring, template: int, port: Port)
    requires Pluggable(w, template, port)
    ensures Wired(Plugged(w, template, port))
  {
    var w' := Plugged(w, template, port);
    PluggedPorts(w, template, port);
    assert Grown(w, w', port.id);
    forall i | 0 <= i < |w'.routes|
      ensures GoodRoute(w', w'.routes[i])
    {
      PluggedRoutes(w, template, port, i);
    }
    forall c | c in w'.connected
      ensures GoodHold(w', c)
    {
      PluggedHolds(w, template, port, c);
    }
  }

  // ----- connecting counts -----

  lemma PluggedHeld(w: Wiring, template: int, port: Port, mix: int)
    requires Pluggable(w, template, port) && port.id !in w.connected
    ensures var w' := Plugged(w, template, port);
            Held(w'.connected, mix) <==> Held(w.connected, mix) || mix in w'.connected[port.id]
  {
    var w' := Plugged(w, template, port);
    if Held(w.connected, mix) {
      var c :| c in w.connected && mix in w.connected[c];
      assert c in w'.connected && mix in w'.connected[c];
    }
  }

  lemma PluggedKeepsCount(w: Wiring, origin: seq<Port>, template: int, port: Port)
    requires Pluggable(w, template, port) && Counted(w, origin) && port.id !in w.connected
    requires port.id !in PortIds(origin)
    ensures Counted(Plugged(w, template, port), origin)
  {
    var w' := Plugged(w, template, port);
    forall i | 0 <= i < |w'.ports|
      ensures CountedAt(w', origin, i)
    {
      if i < |w.ports| {
        assert CountedAt(w, origin, i);
        PluggedHeld(w, template, port, w.ports[i].id);
        MixIsFilled(w, template, port, i);
      }
    }
  }

  /** What connecting does to one port, and whether the new device holds it. */
  lemma MixIsFilled(w: Wiring, template: int, port: Port, i: nat)
    requires Pluggable(w, template, port) && i < |w.ports|
    ensures var (w', p) := (Plugged(w, template, port), w.ports[i]);
            && (p.id in w'.connected[port.id] ==> !p.ext.External?)
            && if p.id in Routable(w.routes, template) && !DynamicOnly(port.profiles) then
                 && w'.ports[i] == (if DynamicOnly(p.profiles) then p.(profiles := port.profiles) else p)
                 && (p.id in w'.connected[port.id] <==> DynamicOnly(p.profiles) || Held(w.connected, p.id))
                 && !p.ext.External?
               else w'.ports[i] == p && p.id !in w'.connected[port.id]
  {
    var (w', p, ports) := (Plugged(w, template, port), w.ports[i], w.ports + [port]);
    var ids := PortIds(w.ports);
    FindUnique(ids, i);
    if p.id in Routable(w.routes, template) {
      RoutableAreMixes(w, template, p.id);
    }
    assert ports[i] == p;
    if p.id in w'.connected[port.id] {
      var k :| 0 <= k < |ports| && ports[k].id == p.id && Holding(ports[k], Routable(w.routes, template), w.connected);
      assert k == i by {
        assert k < |w.ports| ==> ids[k] == p.id;
        assert k == |w.ports| ==> p.id == port.id && p.id in ids;
      }
    }
  }

  // ----- disconnecting -----

  ghost predicate Unpluggable(w: Wiring, port: int) {
    Wired(w) && DeviceAt(w.ports, port) && port in w.connected
  }

  lemma UnpluggedIds(w: Wiring, port: int)
    requires Unpluggable(w, port)
    ensures var w' := Unplugged(w, port);
            && PortIds(w'.ports) == Without(PortIds(w.ports), Find(PortIds(w.ports), port))
            && Unique(PortIds(w'.ports)) && FreshIds(PortIds(w'.ports), w'.nextPortId)
            && (forall id :: id in PortIds(w'.ports) <==> id in PortIds(w.ports) && id != port)
  {
    var (w', ids) := (Unplugged(w, port), PortIds(w.ports));
    var i := Find(ids, port);
    assert PortIds(w'.ports) == Without(ids, i);
    FindWithout(ids, i, port);
    forall id
      ensures id in PortIds(w'.ports) <==> id in ids && id != port
    {
      FindWithout(ids, i, id);
    }
  }

  lemma UnpluggedDevices(w: Wiring, port: int, id: int)
    requires Unpluggable(w, port)
    ensures DeviceAt(Unplugged(w, port).ports, id) <==> id != port && DeviceAt(w.ports, id)
  {
    var ids := PortIds(w.ports);
    UnpluggedIds(w, port);
    FindWithout(ids, Find(ids, port), id);
    if id in ids && id != port {
      UnpluggedPort(w, port, Find(ids, id));
    }
  }

  lemma UnpluggedPorts(w: Wiring, port: int)
    requires Unpluggable(w, port)
    ensures var w' := Unplugged(w, port);
            && Unique(PortIds(w'.ports)) && FreshIds(PortIds(w'.ports), w'.nextPortId)
            && (forall id :: id in PortIds(w'.ports) <==> id in PortIds(w.ports) && id != port)
            && (forall id :: DeviceAt(w'.ports, id) <==> id != port && DeviceAt(w.ports, id))
  {
    UnpluggedIds(w, port);
    forall id
      ensures DeviceAt(Unplugged(w, port).ports, id) <==> id != port && DeviceAt(w.ports, id)
    {
      UnpluggedDevices(w, port, id);
    }
  }

  /** Where a port that stays ends up. */
  lemma UnpluggedPort(w: Wiring, port: int, k: nat)
    requires Unpluggable(w, port) && k < |w.ports| && w.ports[k].id != port
    ensures var (w', i) := (Unplugged(w, port), Find(PortIds(w.ports), port));
            var j := if k < i then k else k - 1;
            0 <= j < |w'.ports| && w'.ports[j] == w.ports[k].(profiles := w'.ports[j].profiles)
  {
  }

  lemma {:induction false} DroppedHas(ids: seq<int>, id: int, x: int)
    ensures x in Dropped(ids, id) <==> x in ids && x != id
  {
    if ids != [] {
      DroppedHas(ids[..|ids| - 1], id, x);
      assert ids == ids[..|ids| - 1] + [ids[|ids| - 1]];
    }
  }

  lemma {:induction false} UnroutedAre(routes: seq<Route>, port: int, j: nat)
    requires j < |Unrouted(routes, port)|
    ensures exists i | 0 <= i < |routes| ::
              routes[i].sink != port &&
                  Unrouted(routes, port)[j] == routes[i].(sources := Dropped(routes[i].sources, port))
  {
    var n := |routes| - 1;
    var before := Unrouted(routes[..n], port);
    if j < |before| {
      UnroutedAre(routes[..n], port, j);
      var i :| 0 <= i < n && routes[..n][i].sink != port
        && before[j] == routes[..n][i].(sources := Dropped(routes[..n][i].sources, port));
      assert routes[i] == routes[..n][i];
    } else {
      assert routes[n].sink != port;
    }
  }

  /** The route keeps a source, for one of its sources never was connected. */
  lemma UnpluggedRoute(w: Wiring, port: int, r: Route)
    requires Unpluggable(w, port) && GoodRoute(w, r) && r.sink != port
    ensures GoodRoute(Unplugged(w, port), r.(sources := Dropped(r.sources, port)))
  {
    var w' := Unplugged(w, port);
    var r' := r.(sources := Dropped(r.sources, port));
    UnpluggedPorts(w, port);
    forall k | 0 <= k < |r'.sources|
      ensures r'.sources[k] in PortIds(w'.ports) && DeviceAt(w'.ports, r'.sources[k]) != DeviceAt(w'.ports, r'.sink)
    {
      DroppedHas(r.sources, port, r'.sources[k]);
      var j :| 0 <= j < |r.sources| && r.sources[j] == r'.sources[k];
      assert DeviceAt(w.ports, r.sources[j]) != DeviceAt(w.ports, r.sink);
    }
    var k :| 0 <= k < |r.sources| && r.sources[k] !in w.connected;
    DroppedHas(r.sources, port, r.sources[k]);
    var j :| 0 <= j < |r'.sources| && r'.sources[j] == r.sources[k];
    assert r'.sources[j] !in w'.connected;
  }

  lemma UnpluggedIsWired(w: Wiring, port: int)
    requires Unpluggable(w, port)
    ensures Wired(Unplugged(w, port))
  {
    var w' := Unplugged(w, port);
    UnpluggedPorts(w, port);
    forall j | 0 <= j < |w'.routes|
      ensures GoodRoute(w', w'.routes[j])
    {
      UnroutedAre(w.routes, port, j);
      var i :| 0 <= i < |w.routes| && w.routes[i].sink != port
        && w'.routes[j] == w.routes[i].(sources := Dropped(w.routes[i].sources, port));
      assert GoodRoute(w, w.routes[i]);
      UnpluggedRoute(w, port, w.routes[i]);
    }
    forall c | c in w'.connected
      ensures GoodHold(w', c)
    {
      assert GoodHold(w, c) && GoodHold(w, port);
    }
  }

  lemma UnpluggedKeepsCount(w: Wiring, origin: seq<Port>, port: int)
    requires Unpluggable(w, port) && Counted(w, origin)
    ensures Counted(Unplugged(w, port), origin)
  {
    var w' := Unplugged(w, port);
    var ids := PortIds(w.ports);
    var at := Find(ids, port);
    forall j | 0 <= j < |w'.ports|
      ensures CountedAt(w', origin, j)
    {
      var i := if j < at then j else j + 1;
      assert CountedAt(w, origin, i);
      var p := w.ports[i];
      assert p.id == ids[i] && p.id != port by {
        FindUnique(ids, i);
      }
      HeldWithout(w.connected, port, p.id);
    }
  }

  lemma HeldWithout(connected: map<int, set<int>>, port: int, mix: int)
    requires port in connected
    ensures Held(connected, mix) <==> Held(connected - {port}, mix) || mix in connected[port]
  {
    if Held(connected, mix) && mix !in connected[port] {
      var c :| c in connected && mix in connected[c];
      assert c in connected - {port} && mix in (connected - {port})[c];
    }
    if c :| c in connected - {port} && mix in (connected - {port})[c] {
      assert mix in connected[c];
    }
  }

  // ----- disconnecting undoes connecting -----

  lemma {:induction false} DroppedAbsent(ids: seq<int>, id: int)
    requires id !in ids
    ensures Dropped(ids, id) == ids
  {
    if ids != [] {
      DroppedAbsent(ids[..|ids| - 1], id);
      assert ids == ids[..|ids| - 1] + [ids[|ids| - 1]];
    }
  }

  lemma {:induction false} UnroutedAppend(a: seq<Route>, b: seq<Route>, port: int)
    ensures Unrouted(a + b, port) == Unrouted(a, port) + Unrouted(b, port)
  {
    if b == [] {
      assert a + b == a;
    } else {
      var n := |b| - 1;
      UnroutedAppend(a, b[..n], port);
      assert (a + b)[..|a + b| - 1] == a + b[..n];
    }
  }

  lemma {:induction false} UnroutedCopies(routes: seq<Route>, template: int, port: int)
    ensures Unrouted(Copies(routes, template, port), port) == []
  {
    if routes != [] {
      var n := |routes| - 1;
      UnroutedCopies(routes[..n], template, port);
      var last := if routes[n].sink == template then [routes[n].(sink := port)] else [];
      UnroutedAppend(Copies(routes[..n], template, port), last, port);
      if last != [] {
        assert Unrouted(last, port) == Unrouted(last[..0], port) + [] == [];
      }
    }
  }

  lemma DroppedExtension(r: Route, template: int, port: int)
    requires port !in r.sources
    ensures Extended(r, template, port).(sources := Dropped(Extended(r, template, port).sources, port)) == r
  {
    DroppedAbsent(r.sources, port);
    assert (r.sources + [port])[..|r.sources|] == r.sources;
  }

  lemma {:induction false} UnroutedExtended(routes: seq<Route>, template: int, port: int)
    requires forall i | 0 <= i < |routes| :: routes[i].sink != port && port !in routes[i].sources
    ensures Unrouted(ExtendedRoutes(routes, template, port), port) == routes
  {
    if routes != [] {
      var n := |routes| - 1;
      var rs := ExtendedRoutes(routes, template, port);
      UnroutedExtended(routes[..n], template, port);
      assert rs[..n] == ExtendedRoutes(routes[..n], template, port);
      DroppedExtension(routes[n], template, port);
      assert Unrouted(rs, port) == Unrouted(rs[..n], port) + [routes[n]];
    }
  }

  /** The port with the profiles it is left with when a device came and went. */
  function Spent(p: Port, routable: set<int>): Port {
    if Filled(p, routable) then p.(profiles := []) else p
  }

  /**
  Connecting a device and disconnecting it again restores the connections and the routes exactly, and every
  port but for those mix ports whose dynamic profiles were filled: they are left with no profiles, which is
  dynamic again.
  */
  lemma DisconnectUndoesConnect(w: Wiring, origin: seq<Port>, template: int, port: Port)
    requires Pluggable(w, template, port) && Counted(w, origin) && port.id !in w.connected
    ensures var w' := Plugged(w, template, port);
            && DeviceAt(w'.ports, port.id) && port.id in w'.connected
            && var w'' := Unplugged(w', port.id);
               && w''.routes == w.routes && w''.connected == w.connected && |w''.ports| == |w.ports|
               && forall i | 0 <= i < |w.ports| ::
                    w''.ports[i] == (if DynamicOnly(port.profiles) then w.ports[i]
                                     else Spent(w.ports[i], Routable(w.routes, template)))
  {
    var w' := Plugged(w, template, port);
    PluggedPorts(w, template, port);
    RoutesComeBack(w, template, port);
    MapRestored(w.connected, port.id, w'.connected[port.id]);
    var w'' := Unplugged(w', port.id);
    assert |w''.ports| == |w.ports|;
    forall i | 0 <= i < |w.ports|
      ensures w''.ports[i] == (if DynamicOnly(port.profiles) then w.ports[i]
          else Spent(w.ports[i], Routable(w.routes, template)))
    {
      PortComesBack(w, origin, template, port, i);
    }
  }

  lemma PortComesBack(w: Wiring, origin: seq<Port>, template: int, port: Port, i: nat)
    requires Pluggable(w, template, port) && Counted(w, origin) && port.id !in w.connected && i < |w.ports|
    requires DeviceAt(Plugged(w, template, port).ports, port.id)
    requires PortIds(Plugged(w, template, port).ports) == PortIds(w.ports) + [port.id]
    ensures var w'' := Unplugged(Plugged(w, template, port), port.id);
            && i < |w''.ports|
            && w''.ports[i] == (if DynamicOnly(port.profiles) then w.ports[i]
                else Spent(w.ports[i], Routable(w.routes, template)))
  {
    var w' := Plugged(w, template, port);
    FindAppend(PortIds(w.ports), port.id, port.id);
    MapRestored(w.connected, port.id, w'.connected[port.id]);
    LeftOver(w', port.id, i, w.connected);
    MixIsFilled(w, template, port, i);
    if DynamicOnly(w.ports[i].profiles) && !w.ports[i].ext.External? {
      DynamicIsNotHeld(w, origin, i);
    }
  }

  lemma MapRestored(m: map<int, set<int>>, key: int, value: set<int>)
    requires key !in m
    ensures m[key := value] - {key} == m
  {
  }

  lemma DynamicIsNotHeld(w: Wiring, origin: seq<Port>, i: nat)
    requires Wired(w) && Counted(w, origin) && i < |w.ports|
    requires DynamicOnly(w.ports[i].profiles) && !w.ports[i].ext.External?
    ensures !Held(w.connected, w.ports[i].id)
  {
    assert CountedAt(w, origin, i);
    FindUnique(PortIds(w.ports), i);
    if w.ports[i].id in w.connected && GoodHold(w, w.ports[i].id) {
      assert false;
    }
  }

  /** What disconnecting leaves of a port that came before the device's. */
  lemma LeftOver(w: Wiring, port: int, i: nat, rest: map<int, set<int>>)
    requires port in PortIds(w.ports) && port in w.connected && rest == w.connected - {port}
    requires i < Find(PortIds(w.ports), port)
    ensures var (w', p) := (Unplugged(w, port), w.ports[i]);
            && i < |w'.ports|
            && w'.ports[i] == if p.id in w.connected[port] && !Held(rest, p.id) then p.(profiles := []) else p
  {
  }

  lemma RoutesComeBack(w: Wiring, template: int, port: Port)
    requires Pluggable(w, template, port)
    ensures Unrouted(Plugged(w, template, port).routes, port.id) == w.routes
  {
    forall i | 0 <= i < |w.routes|
      ensures w.routes[i].sink != port.id && port.id !in w.routes[i].sources
    {
      assert GoodRoute(w, w.routes[i]);
    }
    var (extended, copies) := (ExtendedRoutes(w.routes, template, port.id), Copies(w.routes, template, port.id));
    UnroutedAppend(extended, copies, port.id);
    UnroutedExtended(w.routes, template, port.id);
    UnroutedCopies(w.routes, template, port.id);
  }
}
