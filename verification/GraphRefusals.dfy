/**
What happens when a stream refuses its devices while a patch is set: when that is possible, what it breaks,
and a run in which it does.
*/
module GraphRefusals {
  import opened GraphModel
  import opened GraphWiring
  import opened GraphStreams
  import opened GraphOperations
  import opened GraphIndex
  import opened GraphIntegrity
  import opened GraphRuns

  // ----- what a refused update breaks -----

  /** A refused update changes the index and the streams only. */
  lemma RefusedState(g: Graph, p: Patch, matches: bool, sized: bool)
    requires p.id != 0 && SetPatch(g, p, matches, sized).1 == Refused
    ensures p.id in PatchIds(g.patches)
    ensures var g' := SetPatch(g, p, matches, sized).0;
            && g' == g.(index := CleanedUp(g.index, p.id), streams := g'.streams)
            && g'.streams.open.Keys == g.streams.open.Keys
  {
    var k := Find(PatchIds(g.patches), p.id);
    SwitchFollows(g.streams, ConnectionsOf(g.streams, g.patches[k]), ConnectionsOf(g.streams, p));
  }

  /**
  Updating a patch keeps the index exact if and only if its streams do not refuse the switch: on a refusal
  the old patch is put back, but not its entries.
  */
  lemma RefusedUpdateBreaksIndex(g: Graph, p: Patch, matches: bool, sized: bool)
    requires Integral(g) && p.id != 0
    ensures Indexed(SetPatch(g, p, matches, sized).0) <==> SetPatch(g, p, matches, sized).1 != Refused
  {
    if SetPatch(g, p, matches, sized).1 == Refused {
      RefusedState(g, p, matches, sized);
      var k := Find(PatchIds(g.patches), p.id);
      assert GoodPatch(g.configs, g.patches[k]);
      var config := g.patches[k].sources[0];
      EntryOfNamed(g, k, config);
      assert CleanedUp(g.index, p.id)[(config, p.id)] == 0;
    } else {
      UpdateIsNotUndefined(g, p, matches, sized);
      SetPatchKeeps(g, p, matches, sized);
    }
  }

  lemma UpdateIsNotUndefined(g: Graph, p: Patch, matches: bool, sized: bool)
    requires p.id != 0
    ensures SetPatch(g, p, matches, sized).1 != Undefined
  {
  }

  /** After a refused update, a config can be removed from under the patch that uses it. */
  lemma RefusedUpdateLosesConfig(g: Graph, p: Patch, matches: bool, sized: bool, k: nat, config: int)
    requires Integral(g) && p.id != 0 && SetPatch(g, p, matches, sized).1 == Refused
    requires k < |g.patches| && g.patches[k].id == p.id && Names(g.patches[k], config)
    requires forall i: nat | i < |g.patches| && Names(g.patches[i], config) :: i == k
    requires config in ConfigIds(g.configs) && PortOf(g.configs, config) != config
    requires config !in ConfigIds(g.initials) && config !in g.streams.open
    ensures var (g', outcome) := ResetConfig(SetPatch(g, p, matches, sized).0, config);
            && outcome == Done && config !in ConfigIds(g'.configs)
            && g'.patches == g.patches && Names(g'.patches[k], config)
  {
    RefusedState(g, p, matches, sized);
    var g' := SetPatch(g, p, matches, sized).0;
    if Uses(g'.index, config) {
      var pair :| pair in g'.index && pair.0 == config;
      EntryLeft(g.index, p.id, pair);
      EntryNamesConfig(g, config, pair.1);
    }
    UnusedIsLost(g', config);
  }

  lemma EntryLeft(index: Index, q: int, pair: (int, int))
    requires pair in CleanedUp(index, q)
    ensures pair in index && pair.1 != q
  {
    assert CleanedUp(index, q)[pair] > 0;
  }

  lemma UnusedIsLost(g: Graph, config: int)
    requires Unique(ConfigIds(g.configs)) && config in ConfigIds(g.configs)
    requires config !in ConfigIds(g.initials) && config !in g.streams.open && !Uses(g.index, config)
    ensures var (g', outcome) := ResetConfig(g, config);
            outcome == Done && config !in ConfigIds(g'.configs) && g'.patches == g.patches
  {
    var at := Find(ConfigIds(g.configs), config);
    FindWithout(ConfigIds(g.configs), at, config);
    assert ConfigIds(Without(g.configs, at)) == Without(ConfigIds(g.configs), at);
  }

  // ----- when streams can refuse -----

  /** No open stream has other devices in the new connections than in the old ones. */
  predicate Undisturbed(s: Streams, was: Connections, wanted: Connections) {
    forall id | id in s.open :: DevicesOf(was, id) == DevicesOf(wanted, id)
  }

  ghost predicate NoneEmpty(c: Connections) {
    forall id | id in c :: c[id] != {}
  }

  ghost predicate AllRefuse(s: Streams) {
    forall n: nat :: !s.script(n).ok
  }

  /** A pass asks no open stream, or it asks one; if all refuse, that decides. */
  lemma {:induction false} DisconnectAsks(s: Streams, ids: seq<int>, wanted: Connections)
    ensures var d := DisconnectPass(s, ids, wanted);
            var asks := exists id :: id in ids && id in s.open && id !in wanted;
            && (!asks ==> d.ok && d.streams == s)
            && (asks && AllRefuse(s) ==> !d.ok)
  {
    if ids != [] {
      var n := |ids| - 1;
      DisconnectAsks(s, ids[..n], wanted);
      DisconnectPassIs(s, ids[..n], wanted);
      assert ids == ids[..n] + [ids[n]];
    }
  }

  lemma {:induction false} ConnectAsks(s: Streams, ids: seq<int>, was: Connections, wanted: Connections)
    requires forall id | id in ids :: id in wanted
    ensures var c := ConnectPass(s, ids, was, wanted);
            var asks := exists id :: id in ids && id in s.open && !(id in was && was[id] == wanted[id]);
            && (!asks ==> c.ok && c.streams == s)
            && (asks && AllRefuse(s) ==> !c.ok)
  {
    if ids != [] {
      var n := |ids| - 1;
      assert ids == ids[..n] + [ids[n]];
      ConnectAsks(s, ids[..n], was, wanted);
      ConnectPassIs(s, ids[..n], was, wanted);
    }
  }

  /** Switching undisturbed streams succeeds; switching others fails if all refuse. */
  lemma SwitchAsks(s: Streams, was: Connections, wanted: Connections)
    requires NoneEmpty(was) && NoneEmpty(wanted)
    ensures Undisturbed(s, was, wanted) ==> Switch(s, was, wanted).1
    ensures !Undisturbed(s, was, wanted) && AllRefuse(s) ==> !Switch(s, was, wanted).1
  {
    DisconnectAsks(s, Ascending(was.Keys), wanted);
    var d := DisconnectPass(s, Ascending(was.Keys), wanted);
    ConnectAsks(d.streams, Ascending(wanted.Keys), was, wanted);
    if !Undisturbed(s, was, wanted) && AllRefuse(s) && d.ok {
      assert d.streams == s;
      var id :| id in s.open && DevicesOf(was, id) != DevicesOf(wanted, id);
      assert id in wanted ==> id in Ascending(wanted.Keys);
      assert id in was ==> id in Ascending(was.Keys);
    }
  }

  /** The module with streams that behave as the script says. */
  function With(g: Graph, script: nat -> Answer): Graph {
    g.(streams := g.streams.(script := script))
  }

  /** The request passes every check, so that the streams are switched. */
  ghost predicate Attempted(g: Graph, p: Patch, matches: bool, sized: bool) {
    && WellAddressed(g, p) && matches && sized
    && if p.id == 0 then !Excluded(g, g.index, p)
       else p.id in PatchIds(g.patches) && !Excluded(g, CleanedUp(g.index, p.id), p)
  }

  /** No open stream has to be asked for the patch that is requested in place of `was`. */
  predicate NoneAsked(g: Graph, was: Patch, p: Patch) {
    Undisturbed(g.streams, ConnectionsOf(g.streams, was), ConnectionsOf(g.streams, p))
  }

  lemma WithIsIntegral(g: Graph, script: nat -> Answer)
    requires Integral(g)
    ensures Integral(With(g, script))
  {
    ConfigsAside(g, With(g, script));
    StreamsAside(g, With(g, script));
  }

  lemma PatchesConnectSome(s: Streams, p: Patch)
    requires (p.sources != [] && p.sinks != []) || p == NO_PATCH
    ensures NoneEmpty(ConnectionsOf(s, p))
  {
    if p != NO_PATCH {
      assert p.sources[0] in Elements(p.sources) && p.sinks[0] in Elements(p.sinks);
    }
  }

  /** Past the checks, the outcome is that of switching the streams. */
  lemma AttemptedSwitches(g: Graph, p: Patch, matches: bool, sized: bool, was: Patch)
    requires Attempted(g, p, matches, sized) && was == if p.id == 0 then NO_PATCH else Named(g, p.id)
    ensures SetPatch(g, p, matches, sized).1 ==
              if Switch(g.streams, ConnectionsOf(g.streams, was), ConnectionsOf(g.streams, p)).1 then Done
              else if p.id == 0 then Undefined
              else Refused
  {
    var p' := p.(id := g.nextPatchId);
    assert ConnectionsOf(g.streams, p') == ConnectionsOf(g.streams, p);
  }

  /** How setting a patch ends, told by what its streams are asked. */
  lemma OutcomeOfAsking(g: Graph, p: Patch, matches: bool, sized: bool)
    requires Integral(g)
    ensures var outcome := SetPatch(g, p, matches, sized).1;
            var was := if p.id == 0 then NO_PATCH else Named(g, p.id);
            var refused := if p.id == 0 then Undefined else Refused;
            && (!Attempted(g, p, matches, sized) || NoneAsked(g, was, p) ==> outcome != refused)
            && (Attempted(g, p, matches, sized) && !NoneAsked(g, was, p) && AllRefuse(g.streams) ==> outcome == refused)
  {
    if Attempted(g, p, matches, sized) {
      var was := if p.id == 0 then NO_PATCH else Named(g, p.id);
      if p.id != 0 {
        assert GoodPatch(g.configs, g.patches[Find(PatchIds(g.patches), p.id)]);
      }
      AttemptedSwitches(g, p, matches, sized, was);
      PatchesConnectSome(g.streams, was);
      PatchesConnectSome(g.streams, p);
      SwitchAsks(g.streams, ConnectionsOf(g.streams, was), ConnectionsOf(g.streams, p));
    }
  }

  /**
  Before the call: updating a patch keeps the index exact, for every behaviour of the streams, if and only if
  the request fails a check or asks no open stream for other devices.
  */
  lemma UpdateKeepsIndexIff(g: Graph, p: Patch, matches: bool, sized: bool)
    requires Integral(g) && p.id != 0
    ensures (forall script :: Indexed(SetPatch(With(g, script), p, matches, sized).0)) <==>
              !Attempted(g, p, matches, sized) || NoneAsked(g, Named(g, p.id), p)
  {
    if !Attempted(g, p, matches, sized) || NoneAsked(g, Named(g, p.id), p) {
      forall script
        ensures Indexed(SetPatch(With(g, script), p, matches, sized).0)
      {
        SameChecks(g, script, p, matches, sized);
        OutcomeOfAsking(With(g, script), p, matches, sized);
        RefusedUpdateBreaksIndex(With(g, script), p, matches, sized);
      }
    } else {
      var script := (n: nat) => Answer(false, {});
      SameChecks(g, script, p, matches, sized);
      OutcomeOfAsking(With(g, script), p, matches, sized);
      RefusedUpdateBreaksIndex(With(g, script), p, matches, sized);
    }
  }

  /** Before the call: creating a patch is defined, for every behaviour of the streams, under the same condition. */
  lemma CreateIsDefinedIff(g: Graph, p: Patch, matches: bool, sized: bool)
    requires Integral(g) && p.id == 0
    ensures (forall script :: SetPatch(With(g, script), p, matches, sized).1 != Undefined) <==>
              !Attempted(g, p, matches, sized) || NoneAsked(g, NO_PATCH, p)
  {
    if !Attempted(g, p, matches, sized) || NoneAsked(g, NO_PATCH, p) {
      forall script
        ensures SetPatch(With(g, script), p, matches, sized).1 != Undefined
      {
        SameChecks(g, script, p, matches, sized);
        OutcomeOfAsking(With(g, script), p, matches, sized);
      }
    } else {
      var script := (n: nat) => Answer(false, {});
      SameChecks(g, script, p, matches, sized);
      OutcomeOfAsking(With(g, script), p, matches, sized);
    }
  }

  /** What is asked of streams does not depend on their answers. */
  lemma SameChecks(g: Graph, script: nat -> Answer, p: Patch, matches: bool, sized: bool)
    requires Integral(g)
    ensures var g' := With(g, script);
            && Integral(g') && (Attempted(g', p, matches, sized) <==> Attempted(g, p, matches, sized))
            && Named(g', p.id) == Named(g, p.id)
            && forall was :: NoneAsked(g', was, p) <==> NoneAsked(g, was, p)
  {
    WithIsIntegral(g, script);
    var g' := With(g, script);
    forall was
      ensures NoneAsked(g', was, p) <==> NoneAsked(g, was, p)
    {
      SameOpen(g.streams, g'.streams, was);
      SameOpen(g.streams, g'.streams, p);
    }
  }
}
