/** A sink port that can only be reached exclusively is never shared by two patches. */
module GraphExclusive {
  import opened GraphModel
  import opened GraphOperations
  import opened GraphIndex
  import opened GraphIntegrity

  predicate OnlyExclusive(routes: seq<Route>, sink: int) {
    forall i | 0 <= i < |routes| && routes[i].sink == sink :: routes[i].exclusive
  }

  /** The patches do not sink into the same exclusive port. */
  ghost predicate Apart(routes: seq<Route>, configs: seq<Config>, p: Patch, q: Patch) {
    forall s, t | s in p.sinks && t in q.sinks && s in ConfigIds(configs) && t in ConfigIds(configs) ::
      PortOf(configs, s) == PortOf(configs, t) ==> !OnlyExclusive(routes, PortOf(configs, s))
  }

  ghost predicate ApartAt(g: Graph, i: nat, j: nat)
    requires i < |g.patches| && j < |g.patches|
  {
    Apart(g.wiring.routes, g.configs, g.patches[i], g.patches[j])
  }

  ghost predicate Unshared(g: Graph) {
    forall i: nat, j: nat {:trigger ApartAt(g, i, j)} | i < |g.patches| && j < |g.patches| && i != j :: ApartAt(g, i, j)
  }

  // ----- setting patches -----

  /** What the check for exclusive sinks is worth against one patch that the index covers. */
  lemma CheckedIsApart(g: Graph, p: Patch, i: nat)
    requires Indexed(g) && i < |g.patches| && WellAddressed(g, p) && !Excluded(g, g.index, p)
    ensures Apart(g.wiring.routes, g.configs, p, g.patches[i]) && Apart(g.wiring.routes, g.configs, g.patches[i], p)
  {
    var q := g.patches[i];
    forall s, t | s in p.sinks && t in q.sinks && s in ConfigIds(g.configs) && t in ConfigIds(g.configs) &&
        PortOf(g.configs, s) == PortOf(g.configs, t)
      ensures !OnlyExclusive(g.wiring.routes, PortOf(g.configs, s))
    {
      SinkIsChecked(g, p, s);
      assert Names(q, t) && KeyOf(g.configs, t, PortOf(g.configs, t));
      KeyIsUsed(g, i, t, PortOf(g.configs, t));
    }
  }

  lemma SinkIsChecked(g: Graph, p: Patch, s: int)
    requires WellAddressed(g, p) && !Excluded(g, g.index, p) && s in p.sinks
    ensures s in ConfigIds(g.configs)
    ensures OnlyExclusive(g.wiring.routes, PortOf(g.configs, s)) ==> !Uses(g.index, PortOf(g.configs, s))
  {
    var k :| 0 <= k < |p.sinks| && p.sinks[k] == s;
    assert p.sinks[k] in ConfigIds(g.configs);
    var (routes, port) := (g.wiring.routes, PortOf(g.configs, s));
    assert Leads(routes, g.configs, p.sources, PortOf(g.configs, p.sinks[k]), false);
    var i :| 0 <= i < |routes| && routes[i].sink == port && Reaches(routes[i], g.configs, p.sources);
    if OnlyExclusive(routes, port) {
      assert !Leads(routes, g.configs, p.sources, routes[i].sink, true);
    }
  }

  lemma CreatedUnshared(g: Graph, p: Patch)
    requires Integral(g) && Unshared(g) && WellAddressed(g, p) && !Excluded(g, g.index, p)
    ensures Unshared(Created(g, p).0)
  {
    var g' := Created(g, p).0;
    var n := |g.patches|;
    forall i: nat, j: nat | i <= n && j <= n && i != j
      ensures ApartAt(g', i, j)
    {
      if i < n && j < n {
        assert ApartAt(g, i, j);
      } else {
        CheckedIsApart(g, p, if i < n then i else j);
      }
    }
  }

  lemma UpdatedUnshared(g: Graph, k: nat, p: Patch)
    requires Integral(g) && Unshared(g) && k < |g.patches| && p.id == g.patches[k].id
    requires WellAddressed(g, p) && !Excluded(g, CleanedUp(g.index, p.id), p)
    ensures Updated(g, k, p).1 == Done ==> Unshared(Updated(g, k, p).0)
  {
    var (g', outcome) := Updated(g, k, p);
    if outcome == Done {
      forall o: nat | o < |g.patches| && o != k
        ensures ApartAt(g', k, o) && ApartAt(g', o, k)
      {
        UpdatedIsApart(g, k, p, o);
      }
      OthersAreApart(g, k, g');
    }
  }

  lemma OthersAreApart(g: Graph, k: nat, g': Graph)
    requires Unshared(g) && k < |g.patches| == |g'.patches| && g'.patches == g.patches[k := g'.patches[k]]
    requires g'.wiring == g.wiring && g'.configs == g.configs
    requires forall o: nat | o < |g.patches| && o != k :: ApartAt(g', k, o) && ApartAt(g', o, k)
    ensures Unshared(g')
  {
    forall i: nat, j: nat | i < |g'.patches| && j < |g'.patches| && i != j
      ensures ApartAt(g', i, j)
    {
      assert ApartAt(g, i, j);
    }
  }

  /** The updated patch was checked against the others, for its own entries were cleaned up before. */
  lemma UpdatedIsApart(g: Graph, k: nat, p: Patch, o: nat)
    requires Integral(g) && k < |g.patches| && p.id == g.patches[k].id && o < |g.patches| && o != k
    requires WellAddressed(g, p) && !Excluded(g, CleanedUp(g.index, p.id), p)
    ensures Apart(g.wiring.routes, g.configs, p, g.patches[o]) && Apart(g.wiring.routes, g.configs, g.patches[o], p)
  {
    var others := g.(patches := Without(g.patches, k), index := CleanedUp(g.index, p.id));
    var at := if o < k then o else o - 1;
    CleaningRemovesOne(g.configs, g.patches, k);
    assert others.patches[at] == g.patches[o] && Indexed(others);
    assert WellAddressed(others, p) && !Excluded(others, others.index, p);
    CheckedIsApart(others, p, at);
  }

  lemma AddressedAlike(g: Graph, p: Patch, p': Patch)
    requires WellAddressed(g, p) && p'.sources == p.sources && p'.sinks == p.sinks
    ensures WellAddressed(g, p') && Excluded(g, g.index, p') == Excluded(g, g.index, p)
  {
  }

  lemma SetPatchUnshared(g: Graph, p: Patch, matches: bool, sized: bool)
    requires Integral(g) && Unshared(g)
    requires SetPatch(g, p, matches, sized).1 != Refused && SetPatch(g, p, matches, sized).1 != Undefined
    ensures Unshared(SetPatch(g, p, matches, sized).0)
  {
    if SetPatch(g, p, matches, sized).1 != Done {
      assert SetPatch(g, p, matches, sized).0 == g;
    } else if p.id == 0 {
      var p' := p.(id := g.nextPatchId);
      AddressedAlike(g, p, p');
      CreatedUnshared(g, p');
    } else {
      UpdatedUnshared(g, Find(PatchIds(g.patches), p.id), p);
    }
  }

  lemma FewerUnshared(g: Graph, k: nat, g': Graph)
    requires Unshared(g) && k < |g.patches| && g'.patches == Without(g.patches, k)
    requires g'.wiring == g.wiring && g'.configs == g.configs
    ensures Unshared(g')
  {
    forall i: nat, j: nat | i < |g'.patches| && j < |g'.patches| && i != j
      ensures ApartAt(g', i, j)
    {
      assert ApartAt(g, if i < k then i else i + 1, if j < k then j else j + 1);
    }
  }

  // ----- the other operations -----

  /** Sinks of patches stay on their ports, and routes that are not exclusive stay. */
  ghost predicate KeepsSharing(g: Graph, g': Graph) {
    && g'.patches == g.patches
    && (forall i | 0 <= i < |g.configs| && !OnlyExclusive(g.wiring.routes, g.configs[i].port) ::
        !OnlyExclusive(g'.wiring.routes, g.configs[i].port))
    && (forall i: nat, config {:trigger Names(g.patches[i], config)} | i < |g.patches| &&
        Names(g.patches[i], config) && config in ConfigIds(g.configs) ::
          config in ConfigIds(g'.configs) && PortOf(g'.configs, config) == PortOf(g.configs, config))
  }

  lemma SharingStays(g: Graph, g': Graph)
    requires Integral(g) && Unshared(g) && KeepsSharing(g, g')
    ensures Unshared(g')
  {
    forall i: nat, j: nat | i < |g.patches| && j < |g.patches| && i != j
      ensures ApartAt(g', i, j)
    {
      assert ApartAt(g, i, j);
      var (p, q) := (g.patches[i], g.patches[j]);
      forall s, t | s in p.sinks && t in q.sinks && s in ConfigIds(g'.configs) && t in ConfigIds(g'.configs) &&
          PortOf(g'.configs, s) == PortOf(g'.configs, t)
        ensures !OnlyExclusive(g'.wiring.routes, PortOf(g'.configs, s))
      {
        NamedIsConfig(g, i, s);
        NamedIsConfig(g, j, t);
        assert Names(p, s) && Names(q, t);
      }
    }
  }

  lemma ConnectUnshared(g: Graph, template: int, descriptors: seq<int>, address: string,
      populated: Option<seq<Profile>>)
    requires Integral(g) && Unshared(g)
    ensures Unshared(g.(wiring := Connect(g.wiring, template, descriptors, address, populated).0))
  {
    var g' := g.(wiring := Connect(g.wiring, template, descriptors, address, populated).0);
    forall sink | !OnlyExclusive(g.wiring.routes, sink)
      ensures !OnlyExclusive(g'.wiring.routes, sink)
    {
      var i :| 0 <= i < |g.wiring.routes| && g.wiring.routes[i].sink == sink && !g.wiring.routes[i].exclusive;
      assert g'.wiring.routes[i].sink == sink && !g'.wiring.routes[i].exclusive;
    }
    SharingStays(g, g');
  }

  lemma {:induction false} RoutesToOthersStay(routes: seq<Route>, port: int, sink: int)
    requires sink != port && !OnlyExclusive(routes, sink)
    ensures !OnlyExclusive(Unrouted(routes, port), sink)
  {
    var n := |routes| - 1;
    var i :| 0 <= i < |routes| && routes[i].sink == sink && !routes[i].exclusive;
    var rs := Unrouted(routes, port);
    if i < n {
      assert routes[..n][i] == routes[i];
      RoutesToOthersStay(routes[..n], port, sink);
      var j :| 0 <= j < |Unrouted(routes[..n], port)| && Unrouted(routes[..n], port)[j].sink == sink &&
          !Unrouted(routes[..n], port)[j].exclusive;
      assert rs[j] == Unrouted(routes[..n], port)[j];
    } else {
      assert rs[|rs| - 1].sink == sink && !rs[|rs| - 1].exclusive;
    }
  }

  lemma DisconnectUnshared(g: Graph, port: int)
    requires Integral(g) && Unshared(g)
    ensures Unshared(g.(wiring := Disconnect(g.wiring, g.configs, g.initials, port).0))
  {
    var (w', status) := Disconnect(g.wiring, g.configs, g.initials, port);
    var g' := g.(wiring := w');
    if status.Ok? {
      ClientConfigs(g, port);
      forall i | 0 <= i < |g.configs| && !OnlyExclusive(g.wiring.routes, g.configs[i].port)
        ensures !OnlyExclusive(w'.routes, g.configs[i].port)
      {
        RoutesToOthersStay(g.wiring.routes, port, g.configs[i].port);
      }
    }
    SharingStays(g, g');
  }

  lemma SetConfigUnshared(g: Graph, r: Request)
    requires Integral(g) && Unshared(g)
    ensures Unshared(SetConfig(g, r).0)
  {
    var (g', outcome, applied) := SetConfig(g, r);
    if applied {
      var k := Find(ConfigIds(g.configs), r.id);
      FreshIsNew(g);
      forall id | id in ConfigIds(g.configs)
        ensures id in ConfigIds(g'.configs) && PortOf(g'.configs, id) == PortOf(g.configs, id)
      {
        if r.id != 0 {
          ReplacedConfig(g.configs, k, g'.configs[k], id);
        } else {
          AppendedConfig(g.configs, g'.configs[|g.configs|], id);
        }
      }
    }
    SharingStays(g, g');
  }

  lemma ResetConfigUnshared(g: Graph, id: int)
    requires Integral(g) && Unshared(g)
    ensures Unshared(ResetConfig(g, id).0)
  {
    var (g', outcome) := ResetConfig(g, id);
    var k := Find(ConfigIds(g.configs), id);
    if outcome == Done {
      var i := Find(ConfigIds(g.initials), id);
      assert g.configs[k].id == id;
      forall p: nat, config | p < |g.patches| && Names(g.patches[p], config) && config in ConfigIds(g.configs)
        ensures config in ConfigIds(g'.configs) && PortOf(g'.configs, config) == PortOf(g.configs, config)
      {
        NamedIsUsed(g, p, config);
        assert config != id;
        if i < 0 {
          ConfigWithout(g.configs, k, config);
        } else {
          assert GoodInitial(g, g.initials[i]);
          PortOfUnique(g.configs, k);
          ReplacedConfig(g.configs, k, g.initials[i], config);
        }
      }
    }
    SharingStays(g, g');
  }
}
