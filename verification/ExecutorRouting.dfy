/**
Where the accesses of a phase go: every data access reaches the register its operation names, whatever the
line does, and NODEADR is clear afterwards unless clearing it failed.
*/
module ExecutorRouting {
  import opened Profiles
  import opened A2bBus
  import opened Executor

  // ----- what an operation may do -----

  /** The register an operation names. */
  function TargetCell(p: Profile, target: string, reg: int): Cell
    requires Valid(p) && Known(p, target)
  {
    if target == "main" then Main(reg)
    else if NodeIndex(|p.nodes|, target) >= 0 then Node(NodeIndex(|p.nodes|, target), reg)
    else Attached(p.peripherals[target].node, p.peripherals[target].address, reg)
  }

  function TargetNode(p: Profile, target: string): int
    requires Valid(p) && Known(p, target) && target != "main"
  {
    if NodeIndex(|p.nodes|, target) >= 0 then NodeIndex(|p.nodes|, target) else p.peripherals[target].node
  }

  /** A write that steers the bus towards the target. */
  predicate Routing(p: Profile, target: string, e: Entry)
    requires Valid(p) && Known(p, target) && target != "main"
  {
    var node := TargetNode(p, target);
    && e.Wrote?
    && (|| (e.cell == Main(NODEADR) && (e.value == node || e.value == 32 + node))
        || (target in p.peripherals && e.cell == Node(node, CHIP) && e.value == p.peripherals[target].address))
  }

  /** Reads of `cell` of which only the last may give what is wanted. */
  ghost predicate ReadsEndingIn(o: Op, cell: Cell, t: seq<Entry>, from: nat, until: nat, ok: bool)
    requires o.Access? && until <= |t|
  {
    && from < until
    && (forall k | from <= k < until - 1 :: t[k].Got? && t[k].cell == cell && !Matches(t[k].value, o.mask, o.value))
    && (|| (t[until - 1] == Missed(cell) && !ok)
        || (t[until - 1].Got? && t[until - 1].cell == cell && ok == Matches(t[until - 1].value, o.mask, o.value)))
  }

  /** The data accesses of an operation: all of them to `cell`, and what they tell about its success. */
  ghost predicate Exchanged(o: Op, cell: Cell, t: seq<Entry>, from: nat, until: nat, ok: bool)
    requires o.Access? && until <= |t|
  {
    match o.kind
    case Write =>
      && until == from + 1
      && t[from].Wrote? && t[from].cell == cell && t[from].value == o.value && ok == t[from].fate.Done?
    case Update =>
      || (until == from + 1 && t[from] == Missed(cell) && !ok)
      || (&& until == from + 2
          && t[from].Got? && t[from].cell == cell
          && t[from + 1].Wrote? && t[from + 1].cell == cell &&
              t[from + 1].value == Merged(t[from].value, o.mask, o.value)
          && ok == t[from + 1].fate.Done?)
    case _ =>
      until - from <= (if o.kind == Poll then (o.timeout + 4) / 5 + 1 else 1) &&
          ReadsEndingIn(o, cell, t, from, until, ok)
  }

  /** The accesses of one operation, as its report divides them. */
  ghost predicate Faithful(p: Profile, o: Op, t: seq<Entry>, r: Report)
    requires Valid(p) && Performable(p, o)
  {
    && r.start <= r.selected <= r.done <= r.end <= |t|
    && (o.Delay? ==> r.start == r.end && Executor.Good(r))
    && (o.Access? && !Remote(o) ==> r.selected == r.start && r.done == r.end && r.restored)
    && (Remote(o) ==>
          && r.start < r.selected && (forall k | r.start <= k < r.selected :: Routing(p, o.target, t[k]))
          && r.end == r.done + 1
          && t[r.done].Wrote? && t[r.done].cell == Main(NODEADR) && t[r.done].value == 0 &&
              r.restored == t[r.done].fate.Done?)
    && (o.Access? ==>
          if r.selected == r.done then !r.ok && Remote(o)
          else Exchanged(o, TargetCell(p, o.target, o.reg), t, r.selected, r.done, r.ok))
  }

  /** No operation of the profile writes a routing register. */
  predicate Guarded(p: Profile)
    requires Valid(p)
  {
    forall phase, i | 0 <= i < |Ops(p, phase)| :: !Meddles(p, Ops(p, phase)[i])
  }

  ghost predicate Extends(b': Bus, b: Bus) {
    b'.script == b.script && |b.trace| <= |b'.trace| && b'.trace[..|b.trace|] == b.trace
  }

  // ----- selecting -----

  lemma PeriSelectIs(node: int)
    requires 0 <= node < MAX_NODES
    ensures PeriSelect(node) == 32 + node && Peri(PeriSelect(node)) && Selected(PeriSelect(node)) == node
    ensures !Peri(node) && Selected(node) == node
  {
    assert PeriSelect(0) == 32 && PeriSelect(1) == 33 && PeriSelect(2) == 34 && PeriSelect(3) == 35 &&
        PeriSelect(4) == 36;
    assert PeriSelect(5) == 37 && PeriSelect(6) == 38 && PeriSelect(7) == 39 && PeriSelect(8) == 40 &&
        PeriSelect(9) == 41;
  }

  /** Selecting either fails or makes the accesses at the returned address reach the target. */
  lemma SelectRoutes(p: Profile, target: string, b: Bus)
    requires Valid(p) && Known(p, target)
    ensures var s := Select(p, target, b);
            && Extends(s.bus, b)
            && (target == "main" ==> s.bus == b && s.ok)
            && (target != "main" ==>
                  && |b.trace| < |s.bus.trace|
                  && forall k | |b.trace| <= k < |s.bus.trace| :: Routing(p, target, s.bus.trace[k]))
            && (s.ok ==> forall reg :: Resolve(s.bus, s.address, reg) == TargetCell(p, target, reg))
  {
    if target != "main" {
      var node := NodeIndex(|p.nodes|, target);
      if node >= 0 {
        PeriSelectIs(node);
      } else {
        PeriSelectIs(p.peripherals[target].node);
      }
    }
  }

  // ----- data accesses -----

  /** The routing is as it was. */
  ghost predicate SameRoute(b: Bus, b': Bus) {
    b'.nodeadr == b.nodeadr && b'.chips == b.chips
  }

  lemma {:induction false} WatchReaches(o: Op, address: int, cell: Cell, deadline: int, b: Bus)
    requires o.Access? && (o.kind == Poll || o.kind == Verify)
    requires Resolve(b, address, o.reg) == cell
    ensures var (b', ok) := Watch(o, address, deadline, b);
            && Extends(b', b) && SameRoute(b, b')
            && ReadsEndingIn(o, cell, b'.trace, |b.trace|, |b'.trace|, ok)
            && |b'.trace| - |b.trace| <= (if o.kind == Poll then (Left(deadline, b.now) + 4) / 5 + 1 else 1)
    decreases Left(deadline, b.now)
  {
    var (b1, ok, value) := Receive(b, address, o.reg);
    if ok && !Matches(value, o.mask, o.value) && o.kind == Poll && deadline - b1.now > 0 {
      var b2 := Sleep(b1, Least(5, deadline - b1.now));
      WatchReaches(o, address, cell, deadline, b2);
      var (b', ok') := Watch(o, address, deadline, b2);
      assert b'.trace[..|b.trace|] == b2.trace[..|b.trace|] && b'.trace[|b.trace|] == b2.trace[|b.trace|];
      OneMoreRead(o, cell, b'.trace, |b.trace|, |b'.trace|, ok');
    }
  }

  lemma OneMoreRead(o: Op, cell: Cell, t: seq<Entry>, from: nat, until: nat, ok: bool)
    requires o.Access? && until <= |t| && from < until && ReadsEndingIn(o, cell, t, from + 1, until, ok)
    requires t[from].Got? && t[from].cell == cell && !Matches(t[from].value, o.mask, o.value)
    ensures ReadsEndingIn(o, cell, t, from, until, ok)
  {
  }

  /** All data accesses reach the cell the address stands for, even one that changes the routing. */
  lemma ExchangeReaches(o: Op, address: int, cell: Cell, b: Bus)
    requires o.Access? && o.timeout >= 0 && Resolve(b, address, o.reg) == cell
    ensures var (b', ok) := Exchange(o, address, b);
            && Extends(b', b)
            && |b.trace| < |b'.trace| && Exchanged(o, cell, b'.trace, |b.trace|, |b'.trace|, ok)
  {
    if o.kind == Poll || o.kind == Verify {
      WatchReaches(o, address, cell, b.now + o.timeout, b);
    }
  }

  /** Only a write to a routing register changes the routing. */
  lemma ExchangeKeepsRoute(o: Op, address: int, cell: Cell, b: Bus)
    requires o.Access? && Resolve(b, address, o.reg) == cell
    requires (o.kind == Write || o.kind == Update) ==> !Steers(cell)
    ensures SameRoute(b, Exchange(o, address, b).0)
  {
    if o.kind == Poll || o.kind == Verify {
      WatchReaches(o, address, cell, b.now + o.timeout, b);
    }
  }

  // ----- operations -----

  lemma ExchangedStays(o: Op, cell: Cell, t: seq<Entry>, t': seq<Entry>, from: nat, until: nat, ok: bool)
    requires o.Access? && until <= |t| <= |t'| && t'[..|t|] == t
    requires Exchanged(o, cell, t, from, until, ok)
    ensures Exchanged(o, cell, t', from, until, ok)
  {
    assert forall k | 0 <= k < until :: t'[k] == t[k];
  }

  /** What an operation does before it restores the routing. */
  function Approach(p: Profile, o: Op, b: Bus): (Selection, Bus, bool)
    requires Valid(p) && Performable(p, o) && o.Access?
  {
    var s := Select(p, o.target, b);
    var (b2, ok) := if s.ok then Exchange(o, s.address, s.bus) else (s.bus, false);
    (s, b2, ok)
  }

  lemma ApproachReaches(p: Profile, o: Op, b: Bus)
    requires Valid(p) && Performable(p, o) && o.Access? && o.timeout >= 0
    ensures var (s, b2, ok) := Approach(p, o, b);
            && Extends(s.bus, b) && Extends(b2, s.bus)
            && (if Remote(o) then |b.trace| < |s.bus.trace| else s.bus == b)
            && (Remote(o) ==> forall k | |b.trace| <= k < |s.bus.trace| :: Routing(p, o.target, s.bus.trace[k]))
            && (if s.bus.trace == b2.trace then !ok && Remote(o)
                else Exchanged(o, TargetCell(p, o.target, o.reg), b2.trace, |s.bus.trace|, |b2.trace|, ok))
  {
    var s := Select(p, o.target, b);
    SelectRoutes(p, o.target, b);
    if s.ok {
      var cell := TargetCell(p, o.target, o.reg);
      assert Resolve(s.bus, s.address, o.reg) == cell;
      ExchangeReaches(o, s.address, cell, s.bus);
    }
  }

  lemma PerformIsFaithful(p: Profile, o: Op, b: Bus)
    requires Valid(p) && Performable(p, o) && (o.Access? ==> o.timeout >= 0)
    ensures var (b', r) := Perform(p, o, b);
            && Extends(b', b) && r.start == |b.trace| && r.end == |b'.trace| && r.nodeadr == b'.nodeadr
            && Faithful(p, o, b'.trace, r)
            && (Remote(o) && r.restored ==> b'.nodeadr == 0)
  {
    if o.Access? {
      var (s, b2, ok) := Approach(p, o, b);
      ApproachReaches(p, o, b);
      if Remote(o) {
        RestoredIsFaithful(p, o, b, s, b2, ok);
      }
    }
  }

  lemma RestoredIsFaithful(p: Profile, o: Op, b: Bus, s: Selection, b2: Bus, ok: bool)
    requires Valid(p) && Performable(p, o) && Remote(o)
    requires Extends(s.bus, b) && Extends(b2, s.bus) && |b.trace| < |s.bus.trace|
    requires forall k | |b.trace| <= k < |s.bus.trace| :: Routing(p, o.target, s.bus.trace[k])
    requires if s.bus.trace == b2.trace then !ok
             else Exchanged(o, TargetCell(p, o.target, o.reg), b2.trace, |s.bus.trace|, |b2.trace|, ok)
    ensures var (b3, restored) := Send(b2, p.main, NODEADR, 0);
            && Extends(b3, b) && (restored ==> b3.nodeadr == 0)
            && Faithful(p, o, b3.trace,
                Report(|b.trace|, |s.bus.trace|, |b2.trace|, |b3.trace|, ok, restored, b3.nodeadr))
  {
    var b3 := Send(b2, p.main, NODEADR, 0).0;
    assert Extends(b3, b2);
    assert forall k | 0 <= k < |s.bus.trace| :: b3.trace[k] == b2.trace[k] == s.bus.trace[k];
    if s.bus.trace != b2.trace {
      ExchangedStays(o, TargetCell(p, o.target, o.reg), b2.trace, b3.trace, |s.bus.trace|, |b2.trace|, ok);
    }
  }

  // ----- operations on the main node -----

  /** The operation writes NODEADR by name. */
  predicate Retargets(o: Op) {
    o.Access? && o.target == "main" && (o.kind == Write || o.kind == Update) && o.reg == NODEADR
  }

  /** Whatever the register held, the operation leaves zero in it. */
  predicate StoresZero(o: Op)
    requires Retargets(o)
  {
    o.value == 0 && (o.kind == Update ==> o.mask == 255)
  }

  /** An operation on the main node leaves NODEADR alone unless it names it. */
  lemma MainKeepsNodeadr(p: Profile, o: Op, b: Bus)
    requires Valid(p) && Performable(p, o) && (o.Access? ==> o.timeout >= 0) && !Remote(o)
    ensures var (b', r) := Perform(p, o, b);
            && (!Retargets(o) ==> b'.nodeadr == b.nodeadr)
            && (Retargets(o) && StoresZero(o) && r.ok ==> b'.nodeadr == 0)
  {
    if o.Access? {
      SelectRoutes(p, o.target, b);
      if !Retargets(o) {
        ExchangeKeepsRoute(o, p.main, Main(o.reg), b);
      } else if StoresZero(o) {
        FullMaskClears(Receive(b, p.main, o.reg).2);
      }
    }
  }

  lemma FullMaskClears(value: int)
    ensures Merged(value, 255, 0) == 0
  {
    assert Byte(255) == 0xff && Byte(0) == 0;
    NothingUnderFullMask(Byte(value));
  }

  lemma NothingUnderFullMask(value: bv8)
    ensures (value & !0xff) | 0 == 0
  {
  }
}
