/**
The executor: it runs one phase of a profile over the bus. Each operation selects its target through the
routing registers, makes its data accesses, and clears NODEADR again. Functions say what a phase does to
the bus; the methods beside them do it step by step.
*/
module Executor {
  import opened Profiles
  import opened A2bBus

  // ----- selecting a target -----

  function PeriSelect(node: int): int {
    (0x20 | Byte(node)) as int
  }

  datatype Selection = Selection(bus: Bus, ok: bool, address: int)

  function Select(p: Profile, target: string, b: Bus): Selection
    requires Valid(p) && Known(p, target)
  {
    if target == "main" then Selection(b, true, p.main)
    else
      var node := NodeIndex(|p.nodes|, target);
      if node >= 0 then
        var (b1, ok) := Send(b, p.main, NODEADR, node);
        Selection(b1, ok, p.main + 1)
      else
        var peripheral := p.peripherals[target];
        var (b1, ok1) := Send(b, p.main, NODEADR, peripheral.node);
        if !ok1 then Selection(b1, false, p.main + 1)
        else
          var (b2, ok2) := Send(b1, p.main + 1, CHIP, peripheral.address);
          if !ok2 then Selection(b2, false, p.main + 1)
          else
            var (b3, ok3) := Send(b2, p.main, NODEADR, PeriSelect(peripheral.node));
            Selection(b3, ok3, p.main + 1)
  }

  method SelectTarget(p: Profile, target: string, t: Transport) returns (ok: bool, address: int)
    requires Valid(p) && Known(p, target)
    modifies t
    ensures Selection(t.bus, ok, address) == Select(p, target, old(t.bus))
  {
    address := p.main;
    if target == "main" {
      return true, address;
    }
    address := p.main + 1;
    var node := NodeIndex(|p.nodes|, target);
    if node >= 0 {
      ok := t.Write(p.main, NODEADR, node);
      return;
    }
    var peripheral := p.peripherals[target];
    ok := t.Write(p.main, NODEADR, peripheral.node);
    if ok {
      ok := t.Write(p.main + 1, CHIP, peripheral.address);
    }
    if ok {
      ok := t.Write(p.main, NODEADR, PeriSelect(peripheral.node));
    }
  }

  // ----- data accesses -----

  /** The update of a register that reads `value`. */
  function Merged(value: int, mask: int, wanted: int): int {
    ((Byte(value) & !Byte(mask)) | Byte(wanted)) as int
  }

  predicate Matches(value: int, mask: int, wanted: int) {
    Byte(value) & Byte(mask) == Byte(wanted)
  }

  function Left(deadline: int, now: int): nat {
    if now < deadline then deadline - now else 0
  }

  function Least(a: int, b: int): int {
    if a < b then a else b
  }

  function Watch(o: Op, address: int, deadline: int, b: Bus): (Bus, bool)
    requires o.Access?
    decreases Left(deadline, b.now)
  {
    var (b1, ok, value) := Receive(b, address, o.reg);
    if !ok || Matches(value, o.mask, o.value) then (b1, ok)
    else if o.kind != Poll || deadline - b1.now <= 0 then (b1, false)
    else Watch(o, address, deadline, Sleep(b1, Least(5, deadline - b1.now)))
  }

  function Exchange(o: Op, address: int, b: Bus): (Bus, bool)
    requires o.Access?
  {
    match o.kind
    case Write => Send(b, address, o.reg, o.value)
    case Update =>
      var (b1, ok, value) := Receive(b, address, o.reg);
      if ok then Send(b1, address, o.reg, Merged(value, o.mask, o.value)) else (b1, false)
    case _ => Watch(o, address, b.now + o.timeout, b)
  }

  method WatchRegister(o: Op, address: int, t: Transport) returns (ok: bool)
    requires o.Access?
    modifies t
    ensures (t.bus, ok) == Watch(o, address, old(t.bus).now + o.timeout, old(t.bus))
  {
    var deadline := t.bus.now + o.timeout;
    while true
      invariant Watch(o, address, deadline, t.bus) == Watch(o, address, deadline, old(t.bus))
      decreases Left(deadline, t.bus.now)
    {
      var value;
      ok, value := t.Read(address, o.reg);
      if !ok || Matches(value, o.mask, o.value) {
        return;
      }
      var remaining := deadline - t.bus.now;
      if o.kind != Poll || remaining <= 0 {
        return false;
      }
      t.Delay(Least(5, remaining));
    }
  }

  // ----- operations -----

  /** One operation: where in the trace its parts end, how it went, and what it leaves in NODEADR. */
  datatype Report = Report(start: nat, selected: nat, done: nat, end: nat, ok: bool, restored: bool, nodeadr: int)

  predicate Remote(o: Op) {
    o.Access? && o.target != "main"
  }

  predicate Performable(p: Profile, o: Op)
    requires Valid(p)
  {
    if o.Access? then Known(p, o.target) else o.ms >= 0
  }

  lemma OpsArePerformable(p: Profile, phase: Phase, i: nat)
    requires Valid(p) && i < |Ops(p, phase)|
    ensures Performable(p, Ops(p, phase)[i])
  {
    assert ValidOp(p, phase, Ops(p, phase)[i]);
  }

  function Perform(p: Profile, o: Op, b: Bus): (Bus, Report)
    requires Valid(p) && Performable(p, o)
  {
    match o
    case Delay(ms) =>
      var n := |b.trace|;
      (Sleep(b, ms), Report(n, n, n, n, true, true, b.nodeadr))
    case Access(_, target, _, _, _, _) =>
      var s := Select(p, target, b);
      var (b2, ok) := if s.ok then Exchange(o, s.address, s.bus) else (s.bus, false);
      var (b3, restored) := if Remote(o) then Send(b2, p.main, NODEADR, 0) else (b2, true);
      (b3, Report(|b.trace|, |s.bus.trace|, |b2.trace|, |b3.trace|, ok, restored, b3.nodeadr))
  }

  method PerformOp(p: Profile, o: Op, t: Transport) returns (report: Report)
    requires Valid(p) && Performable(p, o)
    modifies t
    ensures (t.bus, report) == Perform(p, o, old(t.bus))
  {
    var start, nodeadr := |t.bus.trace|, t.bus.nodeadr;
    if o.Delay? {
      t.Delay(o.ms);
      return Report(start, start, start, start, true, true, nodeadr);
    }
    var ok, address := SelectTarget(p, o.target, t);
    var selected := |t.bus.trace|;
    if ok && o.kind == Write {
      ok := t.Write(address, o.reg, o.value);
    } else if ok && o.kind == Update {
      var value;
      ok, value := t.Read(address, o.reg);
      if ok {
        ok := t.Write(address, o.reg, Merged(value, o.mask, o.value));
      }
    } else if ok {
      ok := WatchRegister(o, address, t);
    }
    var done := |t.bus.trace|;
    var restored := true;
    if Remote(o) {
      restored := t.Write(p.main, NODEADR, 0);
    }
    return Report(start, selected, done, |t.bus.trace|, ok, restored, t.bus.nodeadr);
  }

  // ----- phases -----

  /** The outcome of a phase: whether every operation succeeded, and the reports of those performed. */
  datatype Outcome = Outcome(bus: Bus, ok: bool, reports: seq<Report>)

  /** Shutting down and muting go on after a failure. */
  predicate Persists(phase: Phase) {
    phase == Shutdown || phase == Mute
  }

  predicate Good(r: Report) {
    r.ok && r.restored
  }

  /** The outcome after operation `n`, which is not attempted once a failure has ended the phase. */
  function Next(p: Profile, phase: Phase, n: nat, before: Outcome): Outcome
    requires Valid(p) && n < |Ops(p, phase)|
  {
    if !before.ok && !Persists(phase) then before
    else
      OpsArePerformable(p, phase, n);
      var (b', report) := Perform(p, Ops(p, phase)[n], before.bus);
      Outcome(b', before.ok && Good(report), before.reports + [report])
  }

  /** The outcome once the first `n` operations are behind. */
  function Execute(p: Profile, phase: Phase, n: nat, b: Bus): Outcome
    requires Valid(p) && n <= |Ops(p, phase)|
  {
    if n == 0 then Outcome(b, true, []) else Next(p, phase, n - 1, Execute(p, phase, n - 1, b))
  }

  function Run(p: Profile, phase: Phase, b: Bus): Outcome
    requires Valid(p)
  {
    Execute(p, phase, |Ops(p, phase)|, b)
  }

  lemma {:induction false} StopsAtFailure(p: Profile, phase: Phase, n: nat, m: nat, b: Bus)
    requires Valid(p) && n <= m <= |Ops(p, phase)| && !Persists(phase) && !Execute(p, phase, n, b).ok
    ensures Execute(p, phase, m, b) == Execute(p, phase, n, b)
  {
    if n < m {
      StopsAtFailure(p, phase, n, m - 1, b);
    }
  }

  method ExecutePhase(p: Profile, phase: Phase, t: Transport) returns (allOk: bool, reports: seq<Report>)
    requires Valid(p)
    modifies t
    ensures Outcome(t.bus, allOk, reports) == Run(p, phase, old(t.bus))
  {
    var ops := Ops(p, phase);
    var index := 0;
    allOk, reports := true, [];
    while index < |ops| && (allOk || Persists(phase))
      invariant 0 <= index <= |ops|
      invariant Outcome(t.bus, allOk, reports) == Execute(p, phase, index, old(t.bus))
    {
      OpsArePerformable(p, phase, index);
      var report := PerformOp(p, ops[index], t);
      reports := reports + [report];
      allOk := allOk && Good(report);
      index := index + 1;
    }
    if index < |ops| {
      StopsAtFailure(p, phase, index, |ops|, old(t.bus));
    }
  }

  // ----- identities -----

  /** The identity check of one node. */
  function Identify(p: Profile, i: nat, b: Bus): (Bus, bool)
    requires Valid(p) && i < |p.nodes|
  {
    var (b1, ok1) := Send(b, p.main, NODEADR, i);
    if !ok1 then (b1, false)
    else
      var (b2, ok2, vendor) := Receive(b1, p.main + 1, 2);
      if !ok2 then (b2, false)
      else
        var (b3, ok3, product) := Receive(b2, p.main + 1, 3);
        (b3, ok3 && vendor == p.nodes[i].vendor && product == p.nodes[i].product)
  }

  function IdentifyFrom(p: Profile, i: nat, b: Bus): (Bus, bool)
    requires Valid(p) && i <= |p.nodes|
    decreases |p.nodes| - i
  {
    if i == |p.nodes| then (b, true)
    else
      var (b1, ok) := Identify(p, i, b);
      if ok then IdentifyFrom(p, i + 1, b1) else (b1, false)
  }

  function Verified(p: Profile, b: Bus): (Bus, bool)
    requires Valid(p)
  {
    var (b1, ok) := IdentifyFrom(p, 0, b);
    var (b2, restored) := Send(b1, p.main, NODEADR, 0);
    (b2, ok && restored)
  }

  method VerifyNodes(p: Profile, t: Transport) returns (ok: bool)
    requires Valid(p)
    modifies t
    ensures (t.bus, ok) == Verified(p, old(t.bus))
  {
    ok := true;
    var i := 0;
    while i < |p.nodes| && ok
      invariant 0 <= i <= |p.nodes|
      invariant IdentifyFrom(p, 0, old(t.bus)) == if ok then IdentifyFrom(p, i, t.bus) else (t.bus, false)
      decreases |p.nodes| - i, ok
    {
      var vendor, product;
      ok := t.Write(p.main, NODEADR, i);
      if ok {
        ok, vendor := t.Read(p.main + 1, 2);
        if ok {
          ok, product := t.Read(p.main + 1, 3);
          ok := ok && vendor == p.nodes[i].vendor && product == p.nodes[i].product;
        }
      }
      if ok {
        i := i + 1;
      }
    }
    var restored := t.Write(p.main, NODEADR, 0);
    ok := ok && restored;
  }
}
