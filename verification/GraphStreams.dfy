/** Switching streams from the devices of one patch to those of another is all or nothing. */
module GraphStreams {
  import opened GraphModel

  function DevicesOf(c: Connections, id: int): set<int> {
    if id in c then c[id] else {}
  }

  /** The same streams are open on the same ports, and nothing was said yet about calls to come. */
  ghost predicate Follows(s: Streams, s': Streams) {
    && s'.script == s.script && s.calls <= s'.calls && s'.open.Keys == s.open.Keys
    && forall id | id in s.open :: s'.open[id].port == s.open[id].port
  }

  ghost predicate SameOutside(s: Streams, s': Streams, touched: set<int>)
    requires s'.open.Keys == s.open.Keys
  {
    forall id | id in s.open && id !in touched :: s'.open[id] == s.open[id]
  }

  /** From the next call on, at most one is refused. */
  ghost predicate OneRefusal(s: Streams) {
    forall m: nat, n: nat | s.calls <= m < n && !s.script(m).ok :: s.script(n).ok
  }

  ghost predicate NoRefusal(s: Streams) {
    forall n: nat | s.calls <= n :: s.script(n).ok
  }

  /** After a refusal there is no other. */
  ghost predicate Spends(s: Streams, s': Streams, ok: bool) {
    OneRefusal(s) ==> if ok then OneRefusal(s') else NoRefusal(s')
  }

  lemma {:induction false} DisconnectPassIs(s: Streams, ids: seq<int>, wanted: Connections)
    ensures var d := DisconnectPass(s, ids, wanted);
            && Follows(s, d.streams) && SameOutside(s, d.streams, d.touched) && Spends(s, d.streams, d.ok)
            && (forall id | id in d.touched :: id in ids && id !in wanted)
            && (d.ok ==> forall id | id in ids && id !in wanted ::
                id in d.touched && (id in s.open ==> d.streams.open[id].devices == {}))
  {
    if ids != [] {
      DisconnectPassIs(s, ids[..|ids| - 1], wanted);
      assert ids == ids[..|ids| - 1] + [ids[|ids| - 1]];
    }
  }

  lemma {:induction false} ConnectPassIs(s: Streams, ids: seq<int>, was: Connections, wanted: Connections)
    requires forall id | id in ids :: id in wanted
    ensures var c := ConnectPass(s, ids, was, wanted);
            && Follows(s, c.streams) && SameOutside(s, c.streams, c.touched) && Spends(s, c.streams, c.ok)
            && (forall id | id in c.touched :: id in ids && !(id in was && was[id] == wanted[id]))
            && (c.ok ==> forall id | id in ids && !(id in was && was[id] == wanted[id]) ::
                           id in c.touched && (id in s.open ==> c.streams.open[id].devices == wanted[id]))
  {
    if ids != [] {
      assert ids == ids[..|ids| - 1] + [ids[|ids| - 1]];
      ConnectPassIs(s, ids[..|ids| - 1], was, wanted);
    }
  }

  lemma {:induction false} RestoredIs(s: Streams, ids: seq<int>, was: Connections, emptyToo: bool)
    requires NoRefusal(s)
    ensures var s' := Restored(s, ids, was, emptyToo);
            && Follows(s, s') && NoRefusal(s')
            && (forall id | id in s.open ::
                  s'.open[id] ==
                    if id in ids && (id in was || emptyToo) then s.open[id].(devices := DevicesOf(was, id))
                    else s.open[id])
  {
    if ids != [] {
      RestoredIs(s, ids[..|ids| - 1], was, emptyToo);
      assert ids == ids[..|ids| - 1] + [ids[|ids| - 1]];
    }
  }

  /** The streams concerned are connected as the connections say. */
  ghost predicate ConnectedAs(s: Streams, c: Connections, ids: set<int>) {
    forall id | id in s.open && id in ids :: s.open[id].devices == DevicesOf(c, id)
  }

  /**
  If the streams start out connected as in the old patch: success leaves each stream concerned connected
  exactly as in the new patch and the others alone; and when a stream refuses, but none refuses to be
  connected back, every stream has its old devices again.
  */
  lemma SwitchIsTransaction(s: Streams, was: Connections, wanted: Connections)
    requires ConnectedAs(s, was, was.Keys + wanted.Keys)
    ensures var (s', ok) := Switch(s, was, wanted);
            && Follows(s, s')
            && (ok ==> ConnectedAs(s', wanted, was.Keys + wanted.Keys) && SameOutside(s, s', was.Keys + wanted.Keys))
            && (!ok && OneRefusal(s) ==> s'.open == s.open)
  {
    var d := DisconnectPass(s, Ascending(was.Keys), wanted);
    DisconnectPassIs(s, Ascending(was.Keys), wanted);
    if !d.ok {
      FollowsRestored(d.streams, Ascending(d.touched), was, false);
      if OneRefusal(s) {
        RestoredIs(d.streams, Ascending(d.touched), was, false);
        SameStreams(s, Restored(d.streams, Ascending(d.touched), was, false));
      }
    } else {
      ConnectPassIs(d.streams, Ascending(wanted.Keys), was, wanted);
      var c := ConnectPass(d.streams, Ascending(wanted.Keys), was, wanted);
      if !c.ok {
        ConnectFails(s, d, c, was, wanted);
      }
    }
  }

  lemma {:induction false} FollowsRestored(s: Streams, ids: seq<int>, was: Connections, emptyToo: bool)
    ensures Follows(s, Restored(s, ids, was, emptyToo))
  {
    if ids != [] {
      FollowsRestored(s, ids[..|ids| - 1], was, emptyToo);
    }
  }

  lemma SameStreams(s: Streams, s': Streams)
    requires Follows(s, s') && forall id | id in s.open :: s'.open[id].devices == s.open[id].devices
    ensures s'.open == s.open
  {
    assert forall id | id in s.open :: s'.open[id] == s.open[id];
  }

  lemma ConnectFails(s: Streams, d: Pass, c: Pass, was: Connections, wanted: Connections)
    requires ConnectedAs(s, was, was.Keys + wanted.Keys) && d.ok && !c.ok
    requires d == DisconnectPass(s, Ascending(was.Keys), wanted)
    requires c == ConnectPass(d.streams, Ascending(wanted.Keys), was, wanted)
    ensures var s' := Restored(Restored(c.streams, Ascending(d.touched), was, false), Ascending(c.touched), was, true);
            Follows(s, s') && (OneRefusal(s) ==> s'.open == s.open)
  {
    DisconnectPassIs(s, Ascending(was.Keys), wanted);
    ConnectPassIs(d.streams, Ascending(wanted.Keys), was, wanted);
    var s1 := Restored(c.streams, Ascending(d.touched), was, false);
    FollowsRestored(c.streams, Ascending(d.touched), was, false);
    FollowsRestored(s1, Ascending(c.touched), was, true);
    if OneRefusal(s) {
      RestoredIs(c.streams, Ascending(d.touched), was, false);
      RestoredIs(s1, Ascending(c.touched), was, true);
      var s2 := Restored(s1, Ascending(c.touched), was, true);
      forall id | id in s.open
        ensures s2.open[id].devices == s.open[id].devices
      {
        if id in c.touched {
          assert s2.open[id].devices == DevicesOf(was, id);
        } else {
          assert s2.open[id] == s1.open[id];
          assert id !in d.touched ==> s1.open[id] == c.streams.open[id] == d.streams.open[id] == s.open[id];
        }
      }
      SameStreams(s, s2);
    }
  }

  /** The patch has its mix ports on one side, and its streams agree with it. */
  ghost predicate StreamsFollow(s: Streams, p: Patch) {
    && !(AnyOpen(s, p.sources) && AnyOpen(s, p.sinks))
    && (forall id | id in s.open && id in p.sources :: s.open[id].devices == Elements(p.sinks))
    && (forall id | id in s.open && id in p.sinks :: s.open[id].devices == Elements(p.sources))
  }

  /** Connections agree with streams exactly when the patch they come from does. */
  lemma ConnectionsFollow(s: Streams, p: Patch)
    requires !(AnyOpen(s, p.sources) && AnyOpen(s, p.sinks))
    ensures ConnectedAs(s, ConnectionsOf(s, p), ConnectionsOf(s, p).Keys) <==> StreamsFollow(s, p)
    ensures forall id | id in s.open :: id in ConnectionsOf(s, p) <==> id in p.sources || id in p.sinks
  {
    forall id | id in s.open
      ensures id in p.sources ==> AnyOpen(s, p.sources)
      ensures id in p.sinks ==> AnyOpen(s, p.sinks)
    {
      if k :| 0 <= k < |p.sources| && p.sources[k] == id {
        assert p.sources[k] in s.open;
      }
      if k :| 0 <= k < |p.sinks| && p.sinks[k] == id {
        assert p.sinks[k] in s.open;
      }
    }
  }

  /**
  Switching from one patch to another, on streams that follow the one and are free for the other: success
  makes them follow the other and leaves those of the one alone unconnected; a refusal that is not repeated
  changes nothing.
  */
  lemma PatchSwitch(s: Streams, was: Patch, wanted: Patch)
    requires StreamsFollow(s, was) && !(AnyOpen(s, wanted.sources) && AnyOpen(s, wanted.sinks))
    requires forall id | id in s.open && (id in wanted.sources || id in wanted.sinks) ::
        id in was.sources || id in was.sinks || s.open[id].devices == {}
    ensures var (s', ok) := Switch(s, ConnectionsOf(s, was), ConnectionsOf(s, wanted));
            && Follows(s, s')
            && (!ok && OneRefusal(s) ==> s'.open == s.open)
            && (ok ==>
                  && StreamsFollow(s', wanted)
                  && forall id | id in s.open && id !in wanted.sources && id !in wanted.sinks ::
                       s'.open[id] ==
                         if id in was.sources || id in was.sinks then s.open[id].(devices := {}) else s.open[id])
  {
    var (c, c') := (ConnectionsOf(s, was), ConnectionsOf(s, wanted));
    ConnectionsFollow(s, was);
    ConnectionsFollow(s, wanted);
    SwitchIsTransaction(s, c, c');
    var (s', ok) := Switch(s, c, c');
    if ok {
      SameOpen(s, s', wanted);
      ConnectionsFollow(s', wanted);
    }
  }

  lemma SameOpen(s: Streams, s': Streams, p: Patch)
    requires s'.open.Keys == s.open.Keys
    ensures AnyOpen(s', p.sources) == AnyOpen(s, p.sources) && AnyOpen(s', p.sinks) == AnyOpen(s, p.sinks)
    ensures ConnectionsOf(s', p) == ConnectionsOf(s, p)
  {
    assert forall id :: id in s'.open <==> id in s.open;
  }
}
