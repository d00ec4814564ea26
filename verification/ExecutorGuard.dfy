/** What the routing guard of the validator is worth: exactly what it must rule out, and what slips past it. */
module ExecutorGuard {
  import opened JsonTrees
  import opened Profiles
  import opened A2bBus
  import opened Executor
  import opened ExecutorRouting
  import opened ExecutorRuns

  /** Whatever the line does, the data accesses of the operation leave the routing as selecting set it. */
  ghost predicate KeepsRoute(p: Profile, o: Op)
    requires Valid(p) && Performable(p, o) && o.Access?
  {
    forall b :: var s := Select(p, o.target, b); s.ok ==> SameRoute(s.bus, Exchange(o, s.address, s.bus).0)
  }

  /** A line on which every transfer succeeds and every register reads zero. */
  function Quiet(): Bus {
    Bus(n => Response(Done, 0, 0), 0, map[], 0, 0, 0, [])
  }

  /** An operation leaves the routing to the executor exactly when it does not write a routing register. */
  lemma RouteIsKeptUnlessMeddled(p: Profile, phase: Phase, o: Op)
    requires Valid(p) && ValidOp(p, phase, o) && o.Access?
    ensures KeepsRoute(p, o) <==> !Meddles(p, o)
  {
    if Meddles(p, o) {
      MeddlingIsSeen(p, phase, o);
    } else {
      forall b | Select(p, o.target, b).ok
        ensures var s := Select(p, o.target, b); SameRoute(s.bus, Exchange(o, s.address, s.bus).0)
      {
        var s := Select(p, o.target, b);
        SelectRoutes(p, o.target, b);
        assert Resolve(s.bus, s.address, o.reg) == TargetCell(p, o.target, o.reg);
        ExchangeKeepsRoute(o, s.address, TargetCell(p, o.target, o.reg), s.bus);
      }
    }
  }

  lemma MeddlingIsSeen(p: Profile, phase: Phase, o: Op)
    requires Valid(p) && ValidOp(p, phase, o) && Meddles(p, o)
    ensures !KeepsRoute(p, o)
  {
    var other := if o.value == 0 then 1 else 0;
    var node := NodeIndex(|p.nodes|, o.target);
    var b := Quiet().(nodeadr := other, chips := map[node := other]);
    var s := Select(p, o.target, b);
    assert s.ok && Chip(s.bus, node) == other && (o.target == "main" ==> s.bus.nodeadr == other);
    MergedIntoZero(o.mask, o.value);
    if node >= 0 {
      PeriSelectIs(node);
    }
    assert !SameRoute(s.bus, Exchange(o, s.address, s.bus).0);
  }

  lemma MergedIntoZero(mask: int, wanted: int)
    requires IsByte(wanted)
    ensures Merged(0, mask, wanted) == wanted
  {
    assert Byte(0) == 0;
  }

  // ----- from an accepted tree to its runs -----

  /** The tree spells a routing register as a real number in an operation that writes it. */
  predicate Slips(d: Json, o: Json)
    requires Accepts(d)
  {
    && Get(o, "reg").Real? && (Called(o) == "write" || Called(o) == "update")
    && var target := AsString(Get(o, "target"));
       || (target == "main" && AsInt(Get(o, "reg")) == 1)
       || (NodeIndex(Size(Get(d, "nodes")), target) >= 0 && AsInt(Get(o, "reg")) == 0)
  }

  ghost predicate NothingSlips(d: Json)
    requires Accepts(d)
  {
    forall phase, i | 0 <= i < Size(Sequence(d, phase)) && Sequence(d, phase).Array? ::
        !Slips(d, Sequence(d, phase).items[i])
  }

  /** An accepted tree is guarded exactly when none of its operations slips past the validator's guard. */
  lemma GuardedUnlessSlipping(d: Json)
    requires Accepts(d)
    ensures Valid(ProfileOf(d))
    ensures Guarded(ProfileOf(d)) <==> NothingSlips(d)
  {
    var p := ProfileOf(d);
    AcceptedIsValid(d);
    forall phase
      ensures |Ops(p, phase)| == Size(Sequence(d, phase))
    {
      PhaseIsRead(d, phase);
    }
    forall phase, i | 0 <= i < |Ops(p, phase)|
      ensures Sequence(d, phase).Array?
      ensures Meddles(p, Ops(p, phase)[i]) <==> Slips(d, Sequence(d, phase).items[i])
    {
      SlippingMeddles(d, phase, i);
    }
  }

  lemma PhaseIsRead(d: Json, phase: Phase)
    requires Accepts(d)
    ensures |Ops(ProfileOf(d), phase)| == Size(Sequence(d, phase)) && Sequence(d, phase).Array?
  {
    OpsOfPhase(d, phase);
    assert SequenceOk(Size(Get(d, "nodes")), Get(d, "peripherals"), PHASES[Place(phase)], Sequence(d, phase));
  }

  lemma SlippingMeddles(d: Json, phase: Phase, i: nat)
    requires Accepts(d) && i < |Ops(ProfileOf(d), phase)|
    ensures |Ops(ProfileOf(d), phase)| == Size(Sequence(d, phase)) && Sequence(d, phase).Array?
    ensures Meddles(ProfileOf(d), Ops(ProfileOf(d), phase)[i]) <==> Slips(d, Sequence(d, phase).items[i])
  {
    PhaseIsRead(d, phase);
    OpsOfPhase(d, phase);
    assert SequenceOk(Size(Get(d, "nodes")), Get(d, "peripherals"), PHASES[Place(phase)], Sequence(d, phase));
    var o := Sequence(d, phase).items[i];
    assert OpOk(Size(Get(d, "nodes")), Get(d, "peripherals"), phase, o);
    GuardMissesRealRegisters(d, phase, o);
  }

  /** From the validator to the line: no phase of an accepted profile waits longer than ten seconds. */
  lemma AcceptedProfilesEnd(d: Json, phase: Phase, b: Bus)
    requires Accepts(d)
    ensures Valid(ProfileOf(d)) && Waited(b, Run(ProfileOf(d), phase, b).bus, MAX_WAIT)
  {
    AcceptedIsValid(d);
    PhaseTimeIsBounded(ProfileOf(d), phase, b);
  }

  // ----- a profile that slips through -----

  function Escape(): Json {
    Object(map["op" := String("write"), "target" := String("main"), "reg" := Real(1.0), "value" := Int(5)])
  }

  function Check(): Json {
    Object(map["op" := String("verify"), "target" := String("main"), "reg" := Int(2), "value" := Int(0),
               "mask" := Int(255)])
  }

  function Sequences(): Json {
    Object(map["init" := Array([Escape()]), "mute" := Array([Check()]), "unmute" := Array([Check()]),
               "shutdown" := Array([Check()]), "health" := Array([Check()])])
  }

  function Identity(): Json {
    Object(map["vendor" := Int(173), "product" := Int(40)])
  }

  /** Its first operation writes 5 to register 1.0 of the main node. */
  function Slipping(): Json {
    Object(map["version" := Int(1), "id" := String("t"), "description" := String(""), "i2c_bus" := Int(1),
               "main_address" := Int(104), "sample_rate" := Int(48000), "channels" := Int(2),
               "start_muted" := Bool(true),
               "nodes" := Array([Identity()]), "peripherals" := Object(map[]), "sequences" := Sequences()])
  }

  lemma SlippingMembers()
    ensures var d := Slipping();
            && Fields(d, {"version", "id", "description", "i2c_bus", "main_address", "nodes",
                          "peripherals", "sample_rate", "channels", "start_muted", "sequences"})
            && Get(d, "version") == Int(1) && Get(d, "id") == String("t") && Get(d, "description") == String("")
            && Get(d, "i2c_bus") == Int(1) && Get(d, "main_address") == Int(104) && Get(d, "sample_rate") == Int(48000)
            && Get(d, "channels") == Int(2) && Get(d, "start_muted") == Bool(true) &&
                Get(d, "nodes") == Array([Identity()])
            && Get(d, "peripherals") == Object(map[]) && Get(d, "sequences") == Sequences()
  {
  }

  lemma SlippingHeader(d: Json)
    requires Fields(d, {"version", "id", "description", "i2c_bus", "main_address", "nodes",
                        "peripherals", "sample_rate", "channels", "start_muted", "sequences"})
    requires Get(d, "version") == Int(1) && Get(d, "id") == String("t") && Get(d, "description") == String("")
    requires Get(d, "i2c_bus") == Int(1) && Get(d, "main_address") == Int(104) && Get(d, "sample_rate") == Int(48000)
    requires Get(d, "channels") == Int(2) && Get(d, "start_muted") == Bool(true)
    ensures HeaderOk(d)
  {
  }

  lemma IdentityIsOk()
    ensures NodeOk(Identity())
  {
  }

  lemma EscapeMembers()
    ensures var o := Escape();
            && Fields(o, {"op", "target", "reg", "value", "mask", "timeout_ms", "note"})
            && Get(o, "op") == String("write") && Get(o, "target") == String("main") && Get(o, "reg") == Real(1.0)
            && Get(o, "value") == Int(5) && !Has(o, "mask") && !Has(o, "timeout_ms") && !Has(o, "note")
  {
  }

  lemma CheckMembers()
    ensures var o := Check();
            && Fields(o, {"op", "target", "reg", "value", "mask", "timeout_ms", "note"})
            && Get(o, "op") == String("verify") && Get(o, "target") == String("main") && Get(o, "reg") == Int(2)
            && Get(o, "value") == Int(0) && Get(o, "mask") == Int(255) && !Has(o, "timeout_ms") && !Has(o, "note")
  {
  }

  lemma OpNames()
    ensures "write" != "delay" && "write" != "update" && "write" != "poll" && "write" != "verify"
    ensures "verify" != "delay" && "verify" != "update" && "verify" != "poll"
  {
    assert "write"[0] != "delay"[0] && "write"[0] != "update"[0] && "write"[0] != "poll"[0] &&
        "write"[0] != "verify"[0];
    assert "verify"[0] != "delay"[0] && "verify"[0] != "update"[0] && "verify"[0] != "poll"[0];
  }

  lemma OneOp(phase: Phase, o: Json)
    requires OpOk(1, Object(map[]), phase, o) && Wait(o) == 0
    ensures SequenceOk(1, Object(map[]), phase, Array([o]))
  {
    assert [o][..0] == [];
    assert Waits([o]) == Wait(o);
  }

  lemma EscapeIsOk()
    ensures SequenceOk(1, Object(map[]), Init, Array([Escape()])) && OpOf(Escape()) == Access(Write, "main", 1, 5, 0, 0)
  {
    EscapeMembers();
    OpNames();
    assert NodeIndex(1, "main") == -1 by {
      NodeNamesAreNotFree(0);
    }
    OneOp(Init, Escape());
  }

  lemma CheckIsOk(phase: Phase)
    ensures SequenceOk(1, Object(map[]), phase, Array([Check()]))
  {
    CheckMembers();
    OpNames();
    OneOp(phase, Check());
  }

  lemma SequencesMembers(phase: Phase)
    ensures Fields(Sequences(), {"init", "mute", "unmute", "shutdown", "health"})
    ensures Get(Sequences(), PhaseName(phase)) == Array([if phase == Init then Escape() else Check()])
  {
  }

  lemma SlippingIsAccepted()
    ensures Accepts(Slipping())
    ensures Sequence(Slipping(), Init) == Array([Escape()])
  {
    var d := Slipping();
    SlippingMembers();
    SlippingHeader(d);
    IdentityIsOk();
    forall k | 0 <= k < 5
      ensures SequenceOk(1, Object(map[]), PHASES[k], Sequence(d, PHASES[k])) && Size(Sequence(d, PHASES[k])) == 1
    {
      SequencesMembers(PHASES[k]);
      EscapeIsOk();
      CheckIsOk(PHASES[k]);
    }
    SequencesMembers(Init);
    FiveOps(d);
  }

  lemma FiveOps(d: Json)
    requires forall k | 0 <= k < 5 :: Size(Sequence(d, PHASES[k])) == 1
    ensures OpCount(d, 5) == 5
  {
    assert OpCount(d, 1) == OpCount(d, 0) + Size(Sequence(d, PHASES[0])) == 1;
    assert OpCount(d, 2) == 1 + Size(Sequence(d, PHASES[1])) == 2;
    assert OpCount(d, 3) == 2 + Size(Sequence(d, PHASES[2])) == 3;
    assert OpCount(d, 4) == 3 + Size(Sequence(d, PHASES[3])) == 4;
  }

  /** It is accepted, its `init` succeeds without any transfer failing, and leaves NODEADR at 5. */
  lemma SlippingLeavesNodeadrSet()
    ensures Accepts(Slipping()) && Valid(ProfileOf(Slipping()))
    ensures var out := Run(ProfileOf(Slipping()), Init, Quiet()); out.ok && out.bus.nodeadr == 5
  {
    SlippingIsAccepted();
    AcceptedIsValid(Slipping());
    OpsOfPhase(Slipping(), Init);
    EscapeIsOk();
    WritesNodeadr(ProfileOf(Slipping()), OpOf(Escape()));
  }

  lemma WritesNodeadr(p: Profile, o: Op)
    requires Valid(p) && o == Access(Write, "main", 1, 5, 0, 0) && Ops(p, Init) == [o]
    ensures var out := Run(p, Init, Quiet()); out.ok && out.bus.nodeadr == 5
  {
    assert Execute(p, Init, 1, Quiet()) == Next(p, Init, 0, Execute(p, Init, 0, Quiet()));
  }
}
