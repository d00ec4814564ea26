/** When a phase that succeeds leaves NODEADR clear: a condition on its operations, exact over all buses. */
module ExecutorClears {
  import opened JsonTrees
  import opened Profiles
  import opened A2bBus
  import opened Executor
  import opened ExecutorRouting
  import opened ExecutorRuns

  /**
  Of the first `n` operations, the last one that is remote or names NODEADR in a write or update is absent,
  is remote, or always stores zero.
  */
  predicate EndsClear(ops: seq<Op>, n: nat)
    requires n <= |ops|
  {
    n == 0 ||
    var o := ops[n - 1];
    Remote(o) || (if Retargets(o) then StoresZero(o) else EndsClear(ops, n - 1))
  }

  /** Every success of the phase, from any bus with NODEADR clear, leaves it clear. */
  ghost predicate SuccessClears(p: Profile, phase: Phase)
    requires Valid(p)
  {
    forall b: Bus | b.nodeadr == 0 && Run(p, phase, b).ok :: Run(p, phase, b).bus.nodeadr == 0
  }

  // ----- the condition is sufficient -----

  /** What the condition promises of an outcome after `n` operations. */
  predicate KeepsClear(ops: seq<Op>, n: nat, out: Outcome)
    requires n <= |ops|
  {
    EndsClear(ops, n) && out.ok ==> out.bus.nodeadr == 0
  }

  lemma {:induction false} EndingClearClears(p: Profile, phase: Phase, n: nat, b: Bus)
    requires Valid(p) && n <= |Ops(p, phase)| && b.nodeadr == 0
    ensures KeepsClear(Ops(p, phase), n, Execute(p, phase, n, b))
  {
    if n > 0 {
      EndingClearClears(p, phase, n - 1, b);
      NextClears(p, phase, n - 1, Execute(p, phase, n - 1, b));
    }
  }

  lemma NextClears(p: Profile, phase: Phase, n: nat, before: Outcome)
    requires Valid(p) && n < |Ops(p, phase)| && KeepsClear(Ops(p, phase), n, before)
    ensures KeepsClear(Ops(p, phase), n + 1, Next(p, phase, n, before))
  {
    OneIsFaithful(p, phase, n, before.bus);
  }

  // ----- the condition is necessary: a run in which everything succeeds -----

  function DataSteps(o: Op): nat
    requires o.Access?
  {
    if o.kind == Update then 2 else 1
  }

  /** The steps of an operation in which everything succeeds at once. */
  function Steps(p: Profile, o: Op): nat
    requires |p.nodes| <= MAX_NODES
  {
    if o.Delay? then 1
    else if o.target == "main" then DataSteps(o)
    else if NodeIndex(|p.nodes|, o.target) >= 0 then 2 + DataSteps(o)
    else 4 + DataSteps(o)
  }

  function StepsBefore(p: Profile, ops: seq<Op>, n: nat): nat
    requires |p.nodes| <= MAX_NODES && n <= |ops|
  {
    if n == 0 then 0 else StepsBefore(p, ops, n - 1) + Steps(p, ops[n - 1])
  }

  /** The answer that suits every step of an operation: reads match, and updates find all bits set. */
  function Suits(o: Op): Response {
    Response(Done, if o.Delay? then 0 else if o.kind == Update then 0xff else Byte(o.value), 0)
  }

  /** The script whose answers suit the first `n` operations, one after the other. */
  function Script(p: Profile, ops: seq<Op>, n: nat, k: nat): Response
    requires |p.nodes| <= MAX_NODES && n <= |ops|
  {
    if n == 0 then Response(Done, 0, 0)
    else if k >= StepsBefore(p, ops, n - 1) then Suits(ops[n - 1])
    else Script(p, ops, n - 1, k)
  }

  /** From here on the script suits the operation. */
  ghost predicate Suited(p: Profile, o: Op, b: Bus)
    requires |p.nodes| <= MAX_NODES
  {
    forall k: nat | b.step <= k < b.step + Steps(p, o) :: b.script(k) == Suits(o)
  }

  /** What the register holds that the operation names, if it read all ones before. */
  function Stored(o: Op): int
    requires o.Access?
  {
    if o.kind == Update then Merged(255, o.mask, o.value) else o.value
  }

  lemma SelectGoes(p: Profile, target: string, b: Bus, value: bv8)
    requires Valid(p) && Known(p, target)
    requires var n := if target == "main" then 0 else if NodeIndex(|p.nodes|, target) >= 0 then 1 else 3;
             forall k: nat | b.step <= k < b.step + n :: b.script(k) == Response(Done, value, 0)
    ensures var s := Select(p, target, b);
            && s.ok && s.bus.script == b.script
            && s.bus.step == b.step +
                (if target == "main" then 0 else if NodeIndex(|p.nodes|, target) >= 0 then 1 else 3)
  {
  }

  lemma ExchangeGoes(p: Profile, phase: Phase, o: Op, address: int, b: Bus)
    requires Valid(p) && ValidOp(p, phase, o) && o.Access?
    requires forall k: nat | b.step <= k < b.step + DataSteps(o) :: b.script(k) == Suits(o)
    ensures var (b', ok) := Exchange(o, address, b);
            && ok && b'.script == b.script && b'.step == b.step + DataSteps(o)
            && (Retargets(o) && address == p.main ==> b'.nodeadr == Stored(o))
  {
    assert b.script(b.step) == Suits(o);
    if o.kind == Update {
      assert b.script(b.step + 1) == Suits(o);
    } else if o.kind == Verify || o.kind == Poll {
      FittingMatches(o.value, o.mask);
    }
  }

  lemma FittingMatches(value: int, mask: int)
    requires FitsMask(value, mask)
    ensures Matches(Byte(value) as int, mask, value)
  {
    ByteOfBits(Byte(value));
    FitsUnder(value, mask);
  }

  lemma FitsUnder(value: int, mask: int)
    requires FitsMask(value, mask)
    ensures Byte(value) & Byte(mask) == Byte(value)
  {
    UnderMask(Byte(value), Byte(mask));
  }

  lemma UnderMask(value: bv8, mask: bv8)
    ensures value & !mask == 0 ==> value & mask == value
  {
  }

  lemma PerformGoes(p: Profile, phase: Phase, o: Op, b: Bus)
    requires Valid(p) && ValidOp(p, phase, o) && Performable(p, o) && Suited(p, o, b)
    ensures var (b', r) := Perform(p, o, b);
            && Executor.Good(r) && b'.script == b.script && b'.step == b.step + Steps(p, o)
            && (Retargets(o) ==> b'.nodeadr == Stored(o))
  {
    if o.Access? {
      SelectGoes(p, o.target, b, Suits(o).value);
      var s := Select(p, o.target, b);
      ExchangeGoes(p, phase, o, s.address, s.bus);
    }
  }

  lemma {:induction false} ScriptSuits(p: Profile, ops: seq<Op>, n: nat, i: nat, k: nat)
    requires |p.nodes| <= MAX_NODES && i < n <= |ops| && StepsBefore(p, ops, i) <= k < StepsBefore(p, ops, i + 1)
    ensures Script(p, ops, n, k) == Suits(ops[i])
  {
    if i < n - 1 {
      StepsGrow(p, ops, i + 1, n - 1);
      ScriptSuits(p, ops, n - 1, i, k);
    }
  }

  lemma {:induction false} StepsGrow(p: Profile, ops: seq<Op>, i: nat, n: nat)
    requires |p.nodes| <= MAX_NODES && i <= n <= |ops|
    ensures StepsBefore(p, ops, i) <= StepsBefore(p, ops, n)
  {
    if i < n {
      StepsGrow(p, ops, i, n - 1);
    }
  }

  /** A bus with NODEADR clear whose script suits all operations of the phase. */
  function Willing(p: Profile, phase: Phase): Bus
    requires |p.nodes| <= MAX_NODES
  {
    Bus((k: nat) => Script(p, Ops(p, phase), |Ops(p, phase)|, k), 0, map[], 0, 0, 0, [])
  }

  lemma NonzeroIsStored(p: Profile, phase: Phase, o: Op)
    requires Valid(p) && ValidOp(p, phase, o) && Retargets(o) && !StoresZero(o)
    ensures Stored(o) != 0
  {
    if o.kind == Update {
      OnesUnderMask(Byte(o.mask), Byte(o.value));
    }
  }

  lemma OnesUnderMask(mask: bv8, value: bv8)
    requires mask != 0xff || value != 0
    ensures (0xff & !mask) | value != 0
  {
  }

  lemma {:induction false} WillingGoes(p: Profile, phase: Phase, n: nat)
    requires Valid(p) && n <= |Ops(p, phase)|
    ensures var (b, ops) := (Willing(p, phase), Ops(p, phase));
            var out := Execute(p, phase, n, b);
            && out.ok && out.bus.script == b.script && out.bus.step == StepsBefore(p, ops, n)
            && (!EndsClear(ops, n) ==> out.bus.nodeadr != 0)
  {
    var (b, ops) := (Willing(p, phase), Ops(p, phase));
    if n > 0 {
      WillingGoes(p, phase, n - 1);
      var before := Execute(p, phase, n - 1, b);
      forall k: nat | before.bus.step <= k < before.bus.step + Steps(p, ops[n - 1])
        ensures before.bus.script(k) == Suits(ops[n - 1])
      {
        ScriptSuits(p, ops, |ops|, n - 1, k);
      }
      NextGoes(p, phase, n - 1, before);
    }
  }

  lemma NextGoes(p: Profile, phase: Phase, n: nat, before: Outcome)
    requires Valid(p) && n < |Ops(p, phase)| && before.ok && Suited(p, Ops(p, phase)[n], before.bus)
    requires !EndsClear(Ops(p, phase), n) ==> before.bus.nodeadr != 0
    ensures var out := Next(p, phase, n, before);
            && out.ok && out.bus.script == before.bus.script
            && out.bus.step == before.bus.step + Steps(p, Ops(p, phase)[n])
            && (!EndsClear(Ops(p, phase), n + 1) ==> out.bus.nodeadr != 0)
  {
    var o := Ops(p, phase)[n];
    OneIsFaithful(p, phase, n, before.bus);
    assert ValidOp(p, phase, o);
    PerformGoes(p, phase, o, before.bus);
    if Retargets(o) && !StoresZero(o) {
      NonzeroIsStored(p, phase, o);
    }
  }

  /**
  Over all buses, the successes of a phase leave NODEADR clear if and only if the phase's last operation
  that is remote or names NODEADR in a write or update is absent, is remote, or always stores zero.
  */
  lemma SuccessClearsIffEndingClear(p: Profile, phase: Phase)
    requires Valid(p)
    ensures SuccessClears(p, phase) <==> EndsClear(Ops(p, phase), |Ops(p, phase)|)
  {
    var n := |Ops(p, phase)|;
    if EndsClear(Ops(p, phase), n) {
      forall b: Bus | b.nodeadr == 0 && Run(p, phase, b).ok
        ensures Run(p, phase, b).bus.nodeadr == 0
      {
        EndingClearClears(p, phase, n, b);
      }
    } else {
      WillingGoes(p, phase, n);
      assert Run(p, phase, Willing(p, phase)).ok;
    }
  }

  /**
  Every accepted tree, every phase, every bus: each access reaches exactly its target, NODEADR is clear after
  every remote operation unless restoring it failed, which fails the phase, and successes leave it clear
  exactly under the condition on the phase's operations.
  */
  lemma AcceptedProfilesRoute(d: Json, p: Profile, phase: Phase, b: Bus)
    requires Accepts(d) && p == ProfileOf(d)
    ensures Valid(p)
    ensures var out := Run(p, phase, b);
            && |out.reports| <= |Ops(p, phase)| && Extends(out.bus, b)
            && Divide(out.reports, |b.trace|, |out.bus.trace|)
            && AllFaithful(p, phase, out.reports, out.bus.trace)
            && forall i | 0 <= i < |out.reports| && Remote(Ops(p, phase)[i]) ::
                 if out.reports[i].restored then out.reports[i].nodeadr == 0 else !out.ok
    ensures SuccessClears(p, phase) <==> EndsClear(Ops(p, phase), |Ops(p, phase)|)
  {
    AcceptedIsValid(d);
    EveryAccessReachesItsTarget(p, phase, b);
    NodeadrIsCleared(p, phase, b);
    SuccessClearsIffEndingClear(p, phase);
  }
}
