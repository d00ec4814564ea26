/** Over whole runs, open streams are connected exactly as the patches say. */
module GraphFollowing {
  import opened GraphModel
  import opened GraphStreams
  import opened GraphOperations
  import opened GraphIndex
  import opened GraphIntegrity
  import opened GraphRuns

  /** A stream is connected to the other end of the patch that names its config, or to nothing. */
  ghost predicate FollowsAt(g: Graph, id: int)
    requires id in g.streams.open
  {
    && (forall p | p in g.patches && Names(p, id) :: g.streams.open[id].devices == Opposite(p, id))
    && ((forall p | p in g.patches :: !Names(p, id)) ==> g.streams.open[id].devices == {})
  }

  ghost predicate Following(g: Graph) {
    forall id {:trigger FollowsAt(g, id)} | id in g.streams.open :: FollowsAt(g, id)
  }

  /** Every patch has its streams on one side, and every stream is in at most one patch. */
  ghost predicate Tidy(g: Graph) {
    && (forall p | p in g.patches :: !(AnyOpen(g.streams, p.sources) && AnyOpen(g.streams, p.sinks)))
    && (forall id, p, q | id in g.streams.open && p in g.patches && q in g.patches && Names(p, id) && Names(q, id) ::
        p == q)
  }

  ghost predicate AllTidy(g: Graph, es: seq<Event>)
    decreases |es|
  {
    Tidy(g) && (es != [] ==> AllTidy(Step(g, es[0]), es[1..]))
  }

  // ----- switching never fails if no stream refuses -----

  lemma {:induction false} PassesGo(s: Streams, ids: seq<int>, was: Connections, wanted: Connections)
    requires NoRefusal(s)
    ensures var d := DisconnectPass(s, ids, wanted); d.ok && NoRefusal(d.streams)
    ensures (forall id | id in ids :: id in wanted) ==>
              var c := ConnectPass(s, ids, was, wanted); c.ok && NoRefusal(c.streams)
  {
    if ids != [] {
      assert ids == ids[..|ids| - 1] + [ids[|ids| - 1]];
      PassesGo(s, ids[..|ids| - 1], was, wanted);
    }
  }

  lemma SwitchGoes(s: Streams, was: Connections, wanted: Connections)
    requires NoRefusal(s)
    ensures var (s', ok) := Switch(s, was, wanted); ok && NoRefusal(s')
  {
    PassesGo(s, Ascending(was.Keys), was, wanted);
    PassesGo(DisconnectPass(s, Ascending(was.Keys), wanted).streams, Ascending(wanted.Keys), was, wanted);
  }

  // ----- setting and resetting patches -----

  /** One patch takes the place of another, the others stay; no patch stands for none. */
  ghost predicate Replaces(patches: seq<Patch>, was: Patch, p: Patch, patches': seq<Patch>) {
    && (was == NO_PATCH || was in patches) && (p == NO_PATCH || p in patches') && (p in patches ==> p == was)
    && (forall q | q in patches' :: q == p || (q in patches && q != was))
    && (forall q | q in patches && q != was :: q in patches')
  }

  lemma FollowsOne(g: Graph, p: Patch)
    requires Following(g) && Tidy(g) && (p in g.patches || p == NO_PATCH)
    ensures StreamsFollow(g.streams, p)
  {
    if p in g.patches {
      forall id | id in g.streams.open && Names(p, id)
        ensures g.streams.open[id].devices == Opposite(p, id)
      {
        assert FollowsAt(g, id);
      }
      forall id | id in g.streams.open && id in p.sinks
        ensures id !in p.sources
      {
        Opens(g.streams, p.sources, id);
        Opens(g.streams, p.sinks, id);
      }
    }
  }

  lemma Opens(s: Streams, ids: seq<int>, id: int)
    requires id in s.open
    ensures id in ids ==> AnyOpen(s, ids)
  {
    if id in ids {
      var k :| 0 <= k < |ids| && ids[k] == id;
    }
  }

  lemma SwitchedFollows(g: Graph, was: Patch, p: Patch, g': Graph)
    requires Following(g) && Tidy(g) && Tidy(g') && NoRefusal(g.streams) && Replaces(g.patches, was, p, g'.patches)
    requires g'.streams == Switch(g.streams, ConnectionsOf(g.streams, was), ConnectionsOf(g.streams, p)).0
    ensures Following(g')
  {
    var (s, s') := (g.streams, g'.streams);
    SwitchGoes(s, ConnectionsOf(s, was), ConnectionsOf(s, p));
    SwitchFollows(s, ConnectionsOf(s, was), ConnectionsOf(s, p));
    FollowsOne(g, was);
    SameOpen(s, s', p);
    forall id | id in s.open && Names(p, id)
      ensures Names(was, id) || s.open[id].devices == {}
    {
      assert FollowsAt(g, id);
    }
    PatchSwitch(s, was, p);
    forall id | id in s'.open
      ensures FollowsAt(g', id)
    {
      assert FollowsAt(g, id);
      StreamFollows(g, was, p, g', id);
    }
  }

  /** One stream, after the patch `p` took the place of `was`. */
  lemma StreamFollows(g: Graph, was: Patch, p: Patch, g': Graph, id: int)
    requires Replaces(g.patches, was, p, g'.patches) && Tidy(g) && Tidy(g') && StreamsFollow(g'.streams, p)
    requires id in g.streams.open && id in g'.streams.open && FollowsAt(g, id)
    requires Names(p, id) || g'.streams.open[id] ==
               if Names(was, id) then g.streams.open[id].(devices := {}) else g.streams.open[id]
    ensures FollowsAt(g', id)
  {
    if Names(p, id) {
      assert p in g'.patches;
      assert g'.streams.open[id].devices == Opposite(p, id);
    } else if Names(was, id) {
      assert was in g.patches;
    }
  }

  lemma SetPatchReplaces(g: Graph, p: Patch, matches: bool, sized: bool)
    requires Integral(g) && SetPatch(g, p, matches, sized).1 == Done
    ensures var was := if p.id == 0 then NO_PATCH else Named(g, p.id);
            var p' := if p.id == 0 then p.(id := g.nextPatchId) else p;
            && Replaces(g.patches, was, p', SetPatch(g, p, matches, sized).0.patches)
            && SetPatch(g, p, matches, sized).0.streams
                 == Switch(g.streams, ConnectionsOf(g.streams, was), ConnectionsOf(g.streams, p')).0
  {
    if p.id == 0 {
      OneIsAdded(g, p.(id := g.nextPatchId));
    } else {
      OneIsReplaced(g, Find(PatchIds(g.patches), p.id), p);
    }
  }

  lemma OneIsAdded(g: Graph, p: Patch)
    requires Patched(g) && p.id == g.nextPatchId
    ensures Replaces(g.patches, NO_PATCH, p, g.patches + [p])
  {
    if p in g.patches {
      PatchIdIsSpent(g, p);
    }
    NoPatchIsNone(g);
  }

  lemma NoPatchIsNone(g: Graph)
    requires Patched(g)
    ensures NO_PATCH !in g.patches
  {
    if NO_PATCH in g.patches {
      PatchIdIsSpent(g, NO_PATCH);
    }
  }

  lemma PatchIdIsSpent(g: Graph, p: Patch)
    requires Patched(g) && p in g.patches
    ensures 0 < p.id < g.nextPatchId
  {
    var i :| 0 <= i < |g.patches| && g.patches[i] == p;
    assert PatchIds(g.patches)[i] == p.id;
  }

  lemma OneIsReplaced(g: Graph, k: nat, p: Patch)
    requires Patched(g) && k < |g.patches| && p.id == g.patches[k].id
    ensures Replaces(g.patches, g.patches[k], p, g.patches[k := p])
  {
    var patches := g.patches;
    OthersDiffer(g, k, p);
    assert patches[k := p][k] == p;
    forall q | q in patches && q != patches[k]
      ensures q in patches[k := p]
    {
      var i :| 0 <= i < |patches| && patches[i] == q;
      assert patches[k := p][i] == q;
    }
  }

  /** No other patch has the id of patch `k`. */
  lemma OthersDiffer(g: Graph, k: nat, p: Patch)
    requires Patched(g) && k < |g.patches| && p.id == g.patches[k].id
    ensures forall i | 0 <= i < |g.patches| && i != k :: g.patches[i].id != p.id
  {
    forall i | 0 <= i < |g.patches| && i != k
      ensures g.patches[i].id != p.id
    {
      assert PatchIds(g.patches)[i] != PatchIds(g.patches)[k];
    }
  }

  lemma OneIsRemoved(g: Graph, k: nat)
    requires Patched(g) && k < |g.patches|
    ensures Replaces(g.patches, g.patches[k], NO_PATCH, Without(g.patches, k))
  {
    var (patches, rest) := (g.patches, Without(g.patches, k));
    OthersDiffer(g, k, patches[k]);
    NoPatchIsNone(g);
    forall q | q in patches && q != patches[k]
      ensures q in rest
    {
      var i :| 0 <= i < |patches| && patches[i] == q;
      assert rest[if i < k then i else i - 1] == q;
    }
    forall q | q in rest
      ensures q in patches && q != patches[k]
    {
      var j :| 0 <= j < |rest| && rest[j] == q;
      assert patches[if j < k then j else j + 1] == q;
    }
  }

  // ----- the steps -----

  lemma SetPatchFollows(g: Graph, p: Patch, matches: bool, sized: bool)
    requires Integral(g) && Following(g) && Tidy(g) && NoRefusal(g.streams)
    requires Tidy(SetPatch(g, p, matches, sized).0)
    ensures var (g', outcome) := SetPatch(g, p, matches, sized);
            Following(g') && NoRefusal(g'.streams) && outcome != Refused && outcome != Undefined
  {
    var (g', outcome) := SetPatch(g, p, matches, sized);
    SetPatchGoes(g, p, matches, sized);
    if outcome == Done {
      SetPatchReplaces(g, p, matches, sized);
      var was := if p.id == 0 then NO_PATCH else Named(g, p.id);
      var p' := if p.id == 0 then p.(id := g.nextPatchId) else p;
      SwitchedFollows(g, was, p', g');
      SwitchGoes(g.streams, ConnectionsOf(g.streams, was), ConnectionsOf(g.streams, p'));
    }
  }

  lemma SetPatchGoes(g: Graph, p: Patch, matches: bool, sized: bool)
    requires NoRefusal(g.streams)
    ensures var (g', outcome) := SetPatch(g, p, matches, sized);
            outcome != Refused && outcome != Undefined && (outcome != Done ==> g' == g)
  {
    var p' := p.(id := g.nextPatchId);
    SwitchGoes(g.streams, ConnectionsOf(g.streams, NO_PATCH), ConnectionsOf(g.streams, p'));
    if p.id in PatchIds(g.patches) {
      var k := Find(PatchIds(g.patches), p.id);
      SwitchGoes(g.streams, ConnectionsOf(g.streams, g.patches[k]), ConnectionsOf(g.streams, p));
    }
  }

  lemma ResetPatchFollows(g: Graph, id: int)
    requires Integral(g) && Following(g) && Tidy(g) && NoRefusal(g.streams) && Tidy(ResetPatch(g, id).0)
    ensures Following(ResetPatch(g, id).0) && NoRefusal(ResetPatch(g, id).0.streams)
  {
    var k := Find(PatchIds(g.patches), id);
    if k >= 0 {
      SwitchGoes(g.streams, ConnectionsOf(g.streams, g.patches[k]), ConnectionsOf(g.streams, NO_PATCH));
      OneIsRemoved(g, k);
      SwitchedFollows(g, g.patches[k], NO_PATCH, ResetPatch(g, id).0);
    }
  }

  lemma SameFollows(g: Graph, g': Graph)
    requires Following(g) && g'.patches == g.patches && g'.streams == g.streams
    ensures Following(g')
  {
    forall id | id in g'.streams.open
      ensures FollowsAt(g', id)
    {
      assert FollowsAt(g, id);
    }
  }

  lemma OpeningFollows(g: Graph, config: int, takes: bool)
    requires Integral(g) && Following(g) && Tidy(OpenStream(g, config, takes).0)
    ensures Following(OpenStream(g, config, takes).0)
  {
    var (g', outcome) := OpenStream(g, config, takes);
    if outcome == Done {
      forall id | id in g'.streams.open
        ensures FollowsAt(g', id)
      {
        if id != config {
          assert FollowsAt(g, id);
        } else {
          OpenedFollows(g, g', config);
        }
      }
    } else {
      SameFollows(g, g');
    }
  }

  lemma OpenedFollows(g: Graph, g': Graph, config: int)
    requires Integral(g) && NewStreamPort(g, config) == Done && Tidy(g') && g'.patches == g.patches
    requires config in g'.streams.open && g'.streams.open[config].devices == ConnectedConfigs(g, config)
    ensures FollowsAt(g', config)
  {
    var found := ConnectedConfigs(g, config);
    forall x
      ensures x in found <==> exists i: nat | i < |g.patches| ::
          Names(g.patches[i], config) && x in Opposite(g.patches[i], config)
    {
      OpenedStreamFollowsPatches(g, config, x);
    }
    forall p | p in g.patches && Names(p, config)
      ensures found == Opposite(p, config)
    {
      var k :| 0 <= k < |g.patches| && g.patches[k] == p;
      forall x
        ensures x in found <==> x in Opposite(p, config)
      {
        if x in Opposite(p, config) {
          assert Names(g.patches[k], config) && x in Opposite(g.patches[k], config);
        }
      }
    }
  }

  lemma ClosingFollows(g: Graph, config: int)
    requires Following(g)
    ensures Following(CloseStream(g, config))
  {
    var g' := CloseStream(g, config);
    forall id | id in g'.streams.open
      ensures FollowsAt(g', id)
    {
      assert FollowsAt(g, id);
    }
  }

  lemma StepFollows(g: Graph, e: Event)
    requires Integral(g) && Following(g) && NoRefusal(g.streams) && Tidy(g) && Tidy(Step(g, e))
    ensures Following(Step(g, e)) && NoRefusal(Step(g, e).streams) && Smooth(g, e)
  {
    match e
    case SetAudioPatch(patch, matches, sized) => SetPatchFollows(g, patch, matches, sized);
    case ResetAudioPatch(patchId) => ResetPatchFollows(g, patchId);
    case OpenOnConfig(config, takes) => OpeningFollows(g, config, takes);
    case CloseOnConfig(config) => ClosingFollows(g, config);
    case _ => SameFollows(g, Step(g, e));
  }

  /**
  Over runs in which every mix config is in at most one patch and no stream refuses its devices, every open
  stream is always connected exactly as the patches say.
  */
  lemma {:induction false} StreamsAlwaysFollow(g: Graph, es: seq<Event>)
    requires Integral(g) && Following(g) && NoRefusal(g.streams) && AllTidy(g, es)
    ensures Following(Run(g, es))
    decreases |es|
  {
    if es != [] {
      assert AllTidy(Step(g, es[0]), es[1..]);
      StepFollows(g, es[0]);
      StepKeepsIntegrity(g, es[0]);
      StreamsAlwaysFollow(Step(g, es[0]), es[1..]);
    }
  }
}
