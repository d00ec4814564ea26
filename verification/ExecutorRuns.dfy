/** Whole phases, for every behaviour of the line: what is attempted, what is reached, what is left behind. */
module ExecutorRuns {
  import opened Profiles
  import opened A2bBus
  import opened Executor
  import opened ExecutorRouting

  // ----- every access of a phase -----

  /** The reports divide the trace between two lengths among the operations, in order and without gaps. */
  ghost predicate Divide(rs: seq<Report>, from: nat, until: nat) {
    && (rs == [] ==> from == until)
    && (rs != [] ==> rs[0].start == from && rs[|rs| - 1].end == until)
    && (forall i | 0 < i < |rs| :: rs[i].start == rs[i - 1].end)
  }

  lemma FaithfulStays(p: Profile, o: Op, t: seq<Entry>, t': seq<Entry>, r: Report)
    requires Valid(p) && Performable(p, o) && |t| <= |t'| && t'[..|t|] == t
    requires Faithful(p, o, t, r)
    ensures Faithful(p, o, t', r)
  {
    assert forall k | 0 <= k < |t| :: t'[k] == t[k];
    if o.Access? && r.selected != r.done {
      ExchangedStays(o, TargetCell(p, o.target, o.reg), t, t', r.selected, r.done, r.ok);
    }
  }

  ghost predicate FaithfulAt(p: Profile, phase: Phase, rs: seq<Report>, t: seq<Entry>, i: nat)
    requires Valid(p) && i < |rs| <= |Ops(p, phase)|
  {
    Performable(p, Ops(p, phase)[i]) && Faithful(p, Ops(p, phase)[i], t, rs[i])
  }

  ghost predicate AllFaithful(p: Profile, phase: Phase, rs: seq<Report>, t: seq<Entry>)
    requires Valid(p) && |rs| <= |Ops(p, phase)|
  {
    forall i | 0 <= i < |rs| :: FaithfulAt(p, phase, rs, t, i)
  }

  /** What NODEADR holds after operation `i`, told from what it held before. */
  ghost predicate Clears(o: Op, r: Report, before: int) {
    if Remote(o) then r.restored ==> r.nodeadr == 0
    else if Retargets(o) then StoresZero(o) && r.ok ==> r.nodeadr == 0
    else r.nodeadr == before
  }

  ghost predicate ClearsAt(p: Profile, phase: Phase, rs: seq<Report>, before: int, i: nat)
    requires i < |rs| <= |Ops(p, phase)|
  {
    Clears(Ops(p, phase)[i], rs[i], if i == 0 then before else rs[i - 1].nodeadr)
  }

  ghost predicate AllClear(p: Profile, phase: Phase, rs: seq<Report>, before: int)
    requires |rs| <= |Ops(p, phase)|
  {
    forall i | 0 <= i < |rs| :: ClearsAt(p, phase, rs, before, i)
  }

  lemma OneIsFaithful(p: Profile, phase: Phase, i: nat, b: Bus)
    requires Valid(p) && i < |Ops(p, phase)|
    ensures var o := Ops(p, phase)[i];
            && Performable(p, o)
            && var (b', r) := Perform(p, o, b);
               && Extends(b', b) && r.start == |b.trace| && r.end == |b'.trace| && r.nodeadr == b'.nodeadr
               && Faithful(p, o, b'.trace, r) && Clears(o, r, b.nodeadr)
  {
    OpsArePerformable(p, phase, i);
    assert ValidOp(p, phase, Ops(p, phase)[i]);
    PerformIsFaithful(p, Ops(p, phase)[i], b);
    if !Remote(Ops(p, phase)[i]) {
      MainKeepsNodeadr(p, Ops(p, phase)[i], b);
    }
  }

  ghost predicate Told(p: Profile, phase: Phase, n: nat, b: Bus, out: Outcome)
    requires Valid(p) && n <= |Ops(p, phase)|
  {
    && |out.reports| <= n && (out.ok || Persists(phase) ==> |out.reports| == n)
    && Extends(out.bus, b)
    && Divide(out.reports, |b.trace|, |out.bus.trace|)
    && AllFaithful(p, phase, out.reports, out.bus.trace)
    && AllClear(p, phase, out.reports, b.nodeadr)
    && out.bus.nodeadr == (if out.reports == [] then b.nodeadr else out.reports[|out.reports| - 1].nodeadr)
  }

  lemma OneMore(p: Profile, phase: Phase, n: nat, b: Bus, out: Outcome, b': Bus, r: Report, ok: bool)
    requires Valid(p) && n < |Ops(p, phase)| && |out.reports| == n && Told(p, phase, n, b, out)
    requires var o := Ops(p, phase)[n];
             && Performable(p, o) && Extends(b', out.bus)
             && r.start == |out.bus.trace| && r.end == |b'.trace| && r.nodeadr == b'.nodeadr
             && Faithful(p, o, b'.trace, r) && Clears(o, r, out.bus.nodeadr)
    ensures Told(p, phase, n + 1, b, Outcome(b', ok, out.reports + [r]))
  {
    assert b'.trace[..|b.trace|] == out.bus.trace[..|b.trace|];
    var rs' := out.reports + [r];
    forall i | 0 <= i <= n
      ensures FaithfulAt(p, phase, rs', b'.trace, i)
    {
      if i < n {
        assert FaithfulAt(p, phase, out.reports, out.bus.trace, i);
        FaithfulStays(p, Ops(p, phase)[i], out.bus.trace, b'.trace, out.reports[i]);
      }
    }
    forall i | 0 <= i <= n
      ensures ClearsAt(p, phase, rs', b.nodeadr, i)
    {
      if i < n {
        assert ClearsAt(p, phase, out.reports, b.nodeadr, i);
      }
    }
  }

  lemma ToldLater(p: Profile, phase: Phase, n: nat, b: Bus, out: Outcome)
    requires Valid(p) && n < |Ops(p, phase)| && Told(p, phase, n, b, out) && !out.ok && !Persists(phase)
    ensures Told(p, phase, n + 1, b, out)
  {
  }

  lemma {:induction false} PhaseIsTold(p: Profile, phase: Phase, n: nat, b: Bus)
    requires Valid(p) && n <= |Ops(p, phase)|
    ensures Told(p, phase, n, b, Execute(p, phase, n, b))
  {
    if n > 0 {
      PhaseIsTold(p, phase, n - 1, b);
      NextIsTold(p, phase, n - 1, b, Execute(p, phase, n - 1, b));
    }
  }

  lemma NextIsTold(p: Profile, phase: Phase, n: nat, b: Bus, out: Outcome)
    requires Valid(p) && n < |Ops(p, phase)|
    requires Told(p, phase, n, b, out)
    ensures Told(p, phase, n + 1, b, Next(p, phase, n, out))
  {
    if out.ok || Persists(phase) {
      OneIsFaithful(p, phase, n, out.bus);
      var (b', r) := Perform(p, Ops(p, phase)[n], out.bus);
      OneMore(p, phase, n, b, out, b', r, out.ok && Executor.Good(r));
    } else {
      ToldLater(p, phase, n, b, out);
    }
  }

  /** How the reports of a phase of `n` operations tell whether it succeeded. */
  ghost predicate Lawful(ok: bool, rs: seq<Report>, n: nat, persists: bool) {
    && |rs| <= n
    && (ok <==> |rs| == n && forall i | 0 <= i < |rs| :: Executor.Good(rs[i]))
    && (persists ==> |rs| == n)
    && (!persists && !ok ==>
          && rs != [] && !Executor.Good(rs[|rs| - 1])
          && forall i | 0 <= i < |rs| - 1 :: Executor.Good(rs[i]))
  }

  lemma LawfulNext(ok: bool, rs: seq<Report>, n: nat, persists: bool, r: Report)
    requires Lawful(ok, rs, n, persists)
    ensures if ok || persists then Lawful(ok && Executor.Good(r), rs + [r], n + 1, persists)
            else Lawful(ok, rs, n + 1, persists)
  {
    var rs' := rs + [r];
    assert forall i | 0 <= i < |rs| :: rs'[i] == rs[i];
    assert rs'[|rs|] == r;
  }

  /**
  Muting and shutting down attempt every operation, whatever fails; the other phases stop right after their
  first failure. A phase succeeds exactly when it ran to its end and every operation and every restoring of
  the routing succeeded.
  */
  lemma {:induction false} OutcomeIsExact(p: Profile, phase: Phase, n: nat, b: Bus)
    requires Valid(p) && n <= |Ops(p, phase)|
    ensures var out := Execute(p, phase, n, b); Lawful(out.ok, out.reports, n, Persists(phase))
  {
    if n > 0 {
      var out := Execute(p, phase, n - 1, b);
      OutcomeIsExact(p, phase, n - 1, b);
      OpsArePerformable(p, phase, n - 1);
      var r := Perform(p, Ops(p, phase)[n - 1], out.bus).1;
      LawfulNext(out.ok, out.reports, n - 1, Persists(phase), r);
    }
  }

  // ----- consequences for whole phases -----

  /** Whatever the line does, every access of a phase belongs to one operation and goes where it should. */
  lemma EveryAccessReachesItsTarget(p: Profile, phase: Phase, b: Bus)
    requires Valid(p)
    ensures var out := Run(p, phase, b);
            && |out.reports| <= |Ops(p, phase)| && Extends(out.bus, b)
            && Divide(out.reports, |b.trace|, |out.bus.trace|)
            && AllFaithful(p, phase, out.reports, out.bus.trace)
  {
    PhaseIsTold(p, phase, |Ops(p, phase)|, b);
  }

  ghost predicate Restored(p: Profile, phase: Phase, rs: seq<Report>, i: nat)
    requires i < |rs| <= |Ops(p, phase)|
  {
    Remote(Ops(p, phase)[i]) ==> rs[i].restored
  }

  /** After every remote operation NODEADR is clear, unless restoring it failed; then the phase fails too. */
  lemma NodeadrIsCleared(p: Profile, phase: Phase, b: Bus)
    requires Valid(p)
    ensures var out := Run(p, phase, b);
            && |out.reports| <= |Ops(p, phase)|
            && forall i | 0 <= i < |out.reports| && Remote(Ops(p, phase)[i]) ::
                 if out.reports[i].restored then out.reports[i].nodeadr == 0 else !out.ok
  {
    var n := |Ops(p, phase)|;
    var out := Execute(p, phase, n, b);
    PhaseIsTold(p, phase, n, b);
    OutcomeIsExact(p, phase, n, b);
    forall i | 0 <= i < |out.reports| && Remote(Ops(p, phase)[i]) && out.reports[i].restored
      ensures out.reports[i].nodeadr == 0
    {
      assert ClearsAt(p, phase, out.reports, b.nodeadr, i);
    }
  }

  /** NODEADR is not named by any write or update of the phase. */
  ghost predicate NeverRetargets(ops: seq<Op>) {
    forall i | 0 <= i < |ops| :: !Retargets(ops[i])
  }

  lemma {:induction false} ClearSoFar(p: Profile, phase: Phase, rs: seq<Report>, before: int, i: nat)
    requires i < |rs| <= |Ops(p, phase)| && before == 0 && AllClear(p, phase, rs, before)
    requires NeverRetargets(Ops(p, phase)) && forall j | 0 <= j <= i :: Restored(p, phase, rs, j)
    ensures rs[i].nodeadr == 0
  {
    if i > 0 {
      ClearSoFar(p, phase, rs, before, i - 1);
    }
    assert Restored(p, phase, rs, i) && ClearsAt(p, phase, rs, before, i);
  }

  /** In a phase that does not name NODEADR, only a failed restoring write can leave it set. */
  lemma OnlyRestoringLeavesNodeadrSet(p: Profile, phase: Phase, b: Bus)
    requires Valid(p) && NeverRetargets(Ops(p, phase)) && b.nodeadr == 0
    ensures var out := Run(p, phase, b);
            && |out.reports| <= |Ops(p, phase)|
            && (out.bus.nodeadr != 0 ==> exists i | 0 <= i < |out.reports| :: !Restored(p, phase, out.reports, i))
  {
    var n := |Ops(p, phase)|;
    var out := Execute(p, phase, n, b);
    PhaseIsTold(p, phase, n, b);
    if out.reports != [] && forall i | 0 <= i < |out.reports| :: Restored(p, phase, out.reports, i) {
      ClearSoFar(p, phase, out.reports, b.nodeadr, |out.reports| - 1);
    }
  }

  lemma VerifyingAltersNothing(p: Profile, o: Op, t: seq<Entry>, r: Report, k: nat)
    requires Valid(p) && Performable(p, o) && o.Access? && o.kind == Verify && Faithful(p, o, t, r)
    requires r.start <= k < r.end
    ensures t[k].Wrote? ==> Steers(t[k].cell)
  {
  }

  /** A health check writes nothing but routing registers. */
  lemma HealthAltersNothing(p: Profile, b: Bus, k: nat)
    requires Valid(p)
    requires |b.trace| <= k < |Run(p, Health, b).bus.trace|
    ensures var e := Run(p, Health, b).bus.trace[k]; e.Wrote? ==> Steers(e.cell)
  {
    var out := Run(p, Health, b);
    PhaseIsTold(p, Health, |Ops(p, Health)|, b);
    var i := Owner(out.reports, |b.trace|, |out.bus.trace|, k);
    assert ValidOp(p, Health, Ops(p, Health)[i]) && FaithfulAt(p, Health, out.reports, out.bus.trace, i);
    VerifyingAltersNothing(p, Ops(p, Health)[i], out.bus.trace, out.reports[i], k);
  }

  /** The operation an access belongs to. */
  lemma {:induction false} Owner(rs: seq<Report>, from: nat, until: nat, k: nat) returns (i: nat)
    requires Divide(rs, from, until) && from <= k < until
    ensures i < |rs| && rs[i].start <= k < rs[i].end
    decreases |rs|
  {
    i := |rs| - 1;
    if k < rs[i].start {
      i := Owner(rs[..i], from, rs[i].start, k);
    }
  }

  /** An update changes the bits its mask covers, to what was asked, and no others. */
  lemma UpdateKeepsUnmaskedBits(value: int, mask: int, wanted: int)
    requires FitsMask(wanted, mask)
    ensures MergesUnder(Byte(mask), Byte(value), Byte(Merged(value, mask, wanted)), Byte(wanted))
  {
    var x := Merged(value, mask, wanted);
    ByteOfBits((Byte(value) & !Byte(mask)) | Byte(wanted));
    MergeBits(Byte(mask), Byte(value), Byte(x), Byte(wanted));
  }

  /** Outside the mask `x` has the bits of `value`, inside it those of `wanted`. */
  predicate MergesUnder(mask: bv8, value: bv8, x: bv8, wanted: bv8) {
    x & !mask == value & !mask && x & mask == wanted
  }

  lemma ByteOfBits(m: bv8)
    ensures Byte(m as int) == m
  {
    var i := m as int;
    assert i % 256 == i;
  }

  lemma MergeBits(mask: bv8, value: bv8, x: bv8, wanted: bv8)
    requires wanted & !mask == 0 && x == (value & !mask) | wanted
    ensures MergesUnder(mask, value, x, wanted)
  {
  }

  // ----- time -----

  /** Transfers take no time and waits take what was asked. */
  ghost predicate Exact(b: Bus) {
    forall n: nat :: b.script(n).elapsed == 0
  }

  /** The wait between two states is at most `most`; without other delays it is all the time that passed. */
  ghost predicate Waited(b: Bus, b': Bus, most: int) {
    && b'.script == b.script
    && b.waited <= b'.waited <= b.waited + most
    && b'.now - b.now >= b'.waited - b.waited
    && (Exact(b) ==> b'.now - b.now == b'.waited - b.waited)
  }

  lemma {:induction false} WatchWaits(o: Op, address: int, deadline: int, b: Bus)
    requires o.Access?
    ensures Waited(b, Watch(o, address, deadline, b).0, if o.kind == Poll then Left(deadline, b.now) else 0)
    decreases Left(deadline, b.now)
  {
    var (b1, ok, value) := Receive(b, address, o.reg);
    if ok && !Matches(value, o.mask, o.value) && o.kind == Poll && deadline - b1.now > 0 {
      WatchWaits(o, address, deadline, Sleep(b1, Least(5, deadline - b1.now)));
    }
  }

  lemma WaitedTwice(b: Bus, b1: Bus, most1: int, b2: Bus, most2: int)
    requires Waited(b, b1, most1) && Waited(b1, b2, most2)
    ensures Waited(b, b2, most1 + most2)
  {
  }

  lemma SelectWaits(p: Profile, target: string, b: Bus)
    requires Valid(p) && Known(p, target)
    ensures Waited(b, Select(p, target, b).bus, 0)
  {
  }

  lemma ExchangeWaits(o: Op, address: int, b: Bus)
    requires o.Access? && o.timeout >= 0
    ensures Waited(b, Exchange(o, address, b).0, if o.kind == Poll then o.timeout else 0)
  {
    if o.kind == Poll || o.kind == Verify {
      WatchWaits(o, address, b.now + o.timeout, b);
    }
  }

  lemma PerformWaits(p: Profile, phase: Phase, o: Op, b: Bus)
    requires Valid(p) && ValidOp(p, phase, o) && Performable(p, o)
    ensures Waited(b, Perform(p, o, b).0, Declared(o))
  {
    if o.Access? {
      var (s, b2, ok) := Approach(p, o, b);
      SelectWaits(p, o.target, b);
      ExchangeWaits(o, s.address, s.bus);
      assert Waited(b, b2, Declared(o));
      WaitedTwice(b, b2, Declared(o), Send(b2, p.main, NODEADR, 0).0, 0);
    }
  }

  lemma {:induction false} PhaseWaits(p: Profile, phase: Phase, n: nat, b: Bus)
    requires Valid(p) && n <= |Ops(p, phase)|
    ensures Waited(b, Execute(p, phase, n, b).bus, DeclaredBy(Ops(p, phase)[..n]))
  {
    var ops := Ops(p, phase);
    if n > 0 {
      PhaseWaits(p, phase, n - 1, b);
      assert ops[..n][..n - 1] == ops[..n - 1];
      var out := Execute(p, phase, n - 1, b);
      assert ValidOp(p, phase, ops[n - 1]);
      if out.ok || Persists(phase) {
        OpsArePerformable(p, phase, n - 1);
        PerformWaits(p, phase, ops[n - 1], out.bus);
      }
    }
  }

  /**
  Every phase of a valid profile ends having waited no longer than it declares, at most ten seconds; with
  instant transfers and exact delays, that is all the time it takes.
  */
  lemma PhaseTimeIsBounded(p: Profile, phase: Phase, b: Bus)
    requires Valid(p)
    ensures var out := Run(p, phase, b);
            && Waited(b, out.bus, DeclaredBy(Ops(p, phase))) && DeclaredBy(Ops(p, phase)) <= MAX_WAIT
            && (Exact(b) ==> out.bus.now <= b.now + MAX_WAIT)
  {
    var ops := Ops(p, phase);
    PhaseWaits(p, phase, |ops|, b);
    assert ops[..|ops|] == ops;
  }

  // ----- identities -----

  /** The exchange that shows node `i` to be the declared one. */
  function Greeting(p: Profile, i: nat): seq<Entry>
    requires i < |p.nodes|
  {
    [Wrote(Main(NODEADR), i, Done), Got(Node(i, 2), p.nodes[i].vendor), Got(Node(i, 3), p.nodes[i].product)]
  }

  function Greetings(p: Profile, i: nat): (t: seq<Entry>)
    requires i <= |p.nodes|
    ensures |t| == 3 * (|p.nodes| - i)
    decreases |p.nodes| - i
  {
    if i == |p.nodes| then [] else Greeting(p, i) + Greetings(p, i + 1)
  }

  /** An access of the identity check: it selects a node, or reads an identity register of the node selected. */
  predicate Asks(p: Profile, e: Entry) {
    match e
    case Wrote(cell, value, _) => cell == Main(NODEADR) && 0 <= value < |p.nodes|
    case Got(cell, _) => cell.Node? && 0 <= cell.node < |p.nodes| && (cell.reg == 2 || cell.reg == 3)
    case Missed(cell) => cell.Node? && 0 <= cell.node < |p.nodes| && (cell.reg == 2 || cell.reg == 3)
  }

  ghost predicate OnlyAsks(p: Profile, b: Bus, b': Bus) {
    Extends(b', b) && forall k | |b.trace| <= k < |b'.trace| :: Asks(p, b'.trace[k])
  }

  lemma IdentifyIsExact(p: Profile, i: nat, b: Bus)
    requires Valid(p) && i < |p.nodes|
    ensures var (b', ok) := Identify(p, i, b);
            |b'.trace| <= |b.trace| + 3 && (ok <==> b'.trace == b.trace + Greeting(p, i))
  {
    PeriSelectIs(i);
    var (b1, ok1) := Send(b, p.main, NODEADR, i);
    var (b2, ok2, vendor) := Receive(b1, p.main + 1, 2);
    var (b3, ok3, product) := Receive(b2, p.main + 1, 3);
    var n := |b.trace|;
    assert b1.trace[n].fate.Done? == ok1 && b2.trace[n + 1].Got? == ok2 && b3.trace[n + 2].Got? == ok3;
    assert b3.trace == b.trace + [b1.trace[n], b2.trace[n + 1], b3.trace[n + 2]];
    assert (b.trace + Greeting(p, i))[n..] == Greeting(p, i);
  }

  lemma IdentifyOnlyAsks(p: Profile, i: nat, b: Bus)
    requires Valid(p) && i < |p.nodes|
    ensures OnlyAsks(p, b, Identify(p, i, b).0)
  {
    PeriSelectIs(i);
    var (b1, ok1) := Send(b, p.main, NODEADR, i);
    assert OnlyAsks(p, b, b1);
    if ok1 {
      var (b2, ok2, _) := Receive(b1, p.main + 1, 2);
      assert OnlyAsks(p, b, b2);
      if ok2 {
        assert OnlyAsks(p, b, Receive(b2, p.main + 1, 3).0);
      }
    }
  }

  lemma {:induction false} IdentifyFromIsExact(p: Profile, i: nat, b: Bus)
    requires Valid(p) && i <= |p.nodes|
    ensures var (b', ok) := IdentifyFrom(p, i, b);
            OnlyAsks(p, b, b') && (ok <==> b'.trace == b.trace + Greetings(p, i))
    decreases |p.nodes| - i
  {
    if i < |p.nodes| {
      var (b1, ok) := Identify(p, i, b);
      IdentifyIsExact(p, i, b);
      IdentifyOnlyAsks(p, i, b);
      assert b.trace + Greetings(p, i) == (b.trace + Greeting(p, i)) + Greetings(p, i + 1);
      if ok {
        IdentifyFromIsExact(p, i + 1, b1);
        OnlyAsksTwice(p, b, b1, IdentifyFrom(p, i + 1, b1).0);
      }
    }
  }

  lemma OnlyAsksTwice(p: Profile, b: Bus, b1: Bus, b2: Bus)
    requires OnlyAsks(p, b, b1) && OnlyAsks(p, b1, b2)
    ensures OnlyAsks(p, b, b2)
  {
    assert forall k | 0 <= k < |b1.trace| :: b2.trace[k] == b1.trace[k];
  }

  /**
  The identity check succeeds exactly when every node, asked in order, gives the declared identity and
  NODEADR is cleared after that; whatever happens, it changes nothing but NODEADR.
  */
  lemma VerifyNodesIsExact(p: Profile, b: Bus)
    requires Valid(p)
    ensures var (b', ok) := Verified(p, b);
            && (ok <==> b'.trace == b.trace + Greetings(p, 0) + [Wrote(Main(NODEADR), 0, Done)])
            && (ok ==> b'.nodeadr == 0)
            && |b.trace| < |b'.trace| && Extends(b', b)
            && (forall k | |b.trace| <= k < |b'.trace| :: Asks(p, b'.trace[k]))
            && (b'.nodeadr != 0 ==> b'.trace[|b'.trace| - 1] == Wrote(Main(NODEADR), 0, Lost))
  {
    var b1 := IdentifyFrom(p, 0, b).0;
    IdentifyFromIsExact(p, 0, b);
    var (b', restored) := Send(b1, p.main, NODEADR, 0);
    var last := b'.trace[|b1.trace|];
    assert b'.trace == b1.trace + [last] && Asks(p, last);
    OnlyAsksTwice(p, b, b1, b');
    if b'.trace == b.trace + Greetings(p, 0) + [Wrote(Main(NODEADR), 0, Done)] {
      assert b1.trace == b'.trace[..|b1.trace|] == b.trace + Greetings(p, 0);
    }
  }
}
