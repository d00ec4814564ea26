/** Runs of the controller: any commands, in any order, with the clock failing at any moment. */
module ControllerRuns {
  import opened ProfileParser
  import opened Profiles
  import opened A2bBus
  import opened Executor
  import opened ControllerModel
  import opened ControllerSafety

  // ----- runs -----

  /** A command, or `Clock`: a moment between commands at which `clockFailed` may store. */
  datatype Event =
    | Clock
    | AcquireBy(id: string, file: File)
    | ReleaseBy
    | ReloadWith(id: string, file: File, persisted: bool)
    | MuteCommand
    | UnmuteCommand
    | QuiesceCommand
    | ResumeCommand
    | HealthCheck

  function Step(c: Control, e: Event): (c': Control)
    requires Proper(c)
    ensures Proper(c')
  {
    match e
    case Clock => Tick(c)
    case AcquireBy(id, file) => Acquire(c, Load(id, file))
    case ReleaseBy => Release(c)
    case ReloadWith(id, file, persisted) => Reload(c, Load(id, file), persisted).0
    case MuteCommand => MuteAudio(c).0
    case UnmuteCommand => UnmuteAudio(c).0
    case QuiesceCommand => Quiesce(c).0
    case ResumeCommand => Resume(c).0
    case HealthCheck => CheckHealth(c)
  }

  function Run(c: Control, es: seq<Event>): (c': Control)
    requires Proper(c)
    ensures Proper(c')
    decreases |es|
  {
    if es == [] then c else Run(Step(c, es[0]), es[1..])
  }

  function Fresh(faults: nat -> Fault, bus: Bus): (c: Control)
    ensures Boundary(c)
  {
    Control(faults, 0, bus, false, None, 0, false, false, false, None, false, false, [])
  }

  lemma StepKeepsBoundary(c: Control, e: Event)
    requires Boundary(c)
    ensures Boundary(Step(c, e))
  {
    match e
    case Clock => assert Core(Tick(c));
    case AcquireBy(id, file) => AcquireKeeps(c, Load(id, file));
    case ReleaseBy => AnotherUserKeeps(c);
    case ReloadWith(id, file, persisted) => ReloadKeeps(c, Load(id, file), persisted);
    case MuteCommand => MuteKeeps(c);
    case UnmuteCommand => UnmuteKeeps(c);
    case QuiesceCommand => QuiesceKeeps(c);
    case ResumeCommand => ResumeKeeps(c);
    case HealthCheck => CheckHealthKeeps(c);
  }

  lemma {:induction false} RunKeepsBoundary(c: Control, es: seq<Event>)
    requires Boundary(c)
    ensures Boundary(Run(c, es))
    decreases |es|
  {
    if es != [] {
      StepKeepsBoundary(c, es[0]);
      RunKeepsBoundary(Step(c, es[0]), es[1..]);
    }
  }

  // ----- the gate -----

  /**
  At every boundary, the gate is open only when the bus is ready, its clock started, the controller neither
  quiesced nor muted, and the latest run but health checks was a successful unmute of the profile in force;
  and every init, mute and shutdown that ever ran began with the gate closed.
  */
  lemma GateInvariant(faults: nat -> Fault, bus: Bus, es: seq<Event>)
    ensures var c := Run(Fresh(faults, bus), es);
            (c.allow ==> Audible(c)) && AllOrderly(c.log)
  {
    RunKeepsBoundary(Fresh(faults, bus), es);
  }

  /**
  Whenever the controller is not ready, all operations of the mute sequence and then of the shutdown
  sequence were attempted after every init and every unmute, by the profile that was roused.
  */
  lemma FailsClosed(faults: nat -> Fault, bus: Bus, es: seq<Event>)
    ensures var c := Run(Fresh(faults, bus), es);
            !c.ready ==> AllShutDown(c.log)
  {
    RunKeepsBoundary(Fresh(faults, bus), es);
  }

  /** Once the clock has been started, only an unmute command opens the gate. */
  lemma OnlyUnmuteOpens(c: Control, e: Event)
    requires Boundary(c) && c.clockStarted && !e.UnmuteCommand?
    ensures Step(c, e).clockStarted && (Step(c, e).allow ==> c.allow)
  {
    match e
    case ReloadWith(id, file, persisted) => ReloadKeeps(c, Load(id, file), persisted);
    case MuteCommand => MuteKeeps(c);
    case QuiesceCommand => QuiesceKeeps(c);
    case ResumeCommand => ResumeKeeps(c);
    case HealthCheck => CheckHealthKeeps(c);
    case _ =>
  }

  // ----- the clock fault latch -----

  ghost predicate Fails(faults: nat -> Fault, from: nat, until: nat) {
    exists t: nat :: from <= t < until && faults(t).fails
  }

  /** Between two states without a resume, the fault is set exactly if it was, or the clock failed. */
  ghost predicate Latches(c: Control, c': Control) {
    && c'.faults == c.faults && c.tick <= c'.tick
    && (c'.failed <==> c.failed || Fails(c.faults, c.tick, c'.tick))
  }

  lemma LatchesTwice(c: Control, c1: Control, c2: Control)
    requires Latches(c, c1) && Latches(c1, c2)
    ensures Latches(c, c2)
  {
    if c2.failed && !c.failed {
      if Fails(c.faults, c.tick, c1.tick) {
        var t: nat :| c.tick <= t < c1.tick && c.faults(t).fails;
        assert Fails(c.faults, c.tick, c2.tick);
      } else {
        var t: nat :| c1.tick <= t < c2.tick && c.faults(t).fails;
        assert Fails(c.faults, c.tick, c2.tick);
      }
    }
    if Fails(c.faults, c.tick, c2.tick) {
      var t: nat :| c.tick <= t < c2.tick && c.faults(t).fails;
      assert t < c1.tick || c1.tick <= t;
    }
  }

  lemma TickLatches(c: Control)
    ensures Latches(c, Tick(c))
  {
    if c.faults(c.tick).fails {
      assert Fails(c.faults, c.tick, c.tick + 1);
    }
  }

  lemma RunPhaseLatches(c: Control, phase: Phase)
    requires Proper(c)
    ensures Latches(c, RunPhase(c, phase).0)
  {
    TickLatches(c);
  }

  lemma StopLatches(c: Control)
    requires Proper(c)
    ensures Latches(c, Stop(c).0)
  {
    var c1 := SetGate(c, false).(ready := false);
    TickLatches(c);
    assert Latches(c, c1);
    RunPhaseLatches(c1, Mute);
    var c2 := RunPhase(c1, Mute).0;
    LatchesTwice(c, c1, c2);
    RunPhaseLatches(c2, Shutdown);
    LatchesTwice(c, c2, RunPhase(c2, Shutdown).0);
  }

  lemma BringUpLatches(c: Control)
    requires Proper(c) && c.profile.Some?
    ensures Latches(c, BringUp(c).0)
  {
    RunPhaseLatches(c, Init);
    var (c1, ok1) := RunPhase(c, Init);
    if ok1 {
      var (bus, ok2) := Verified(c.profile.value, c1.bus);
      var c2 := c1.(bus := bus);
      assert Latches(c, c2);
      if ok2 {
        RunPhaseLatches(c2, Health);
        var c3 := RunPhase(c2, Health).0;
        LatchesTwice(c, c2, c3);
        RunPhaseLatches(c3, Mute);
        LatchesTwice(c, c3, RunPhase(c3, Mute).0);
      }
    }
  }

  lemma SettleLatches(c: Control)
    requires Proper(c) && c.profile.Some?
    ensures Latches(c, Settle(c).0)
  {
    var c1 := Tick(c.(ready := true));
    TickLatches(c.(ready := true));
    assert Latches(c, c1);
    if c1.failed {
      StopLatches(c1);
      LatchesTwice(c, c1, Stop(c1).0);
    } else if !WantsMute(c1) {
      RunPhaseLatches(c1, Unmute);
      var (c2, ok) := RunPhase(c1, Unmute);
      LatchesTwice(c, c1, c2);
      TickLatches(c2);
      StopLatches(c2);
      LatchesTwice(c, c2, if ok then SetGate(c2, true) else Stop(c2).0);
    }
  }

  lemma InitializeLatches(c: Control)
    requires Proper(c)
    ensures Latches(c, Initialize(c).0)
  {
    TickLatches(c);
    if c.profile.Some? {
      var c1 := SetGate(c, false).(ready := false).(attached := true);
      assert Latches(c, c1);
      BringUpLatches(c1);
      var (c2, up) := BringUp(c1);
      LatchesTwice(c, c1, c2);
      if up {
        SettleLatches(c2);
      } else {
        StopLatches(c2);
      }
      LatchesTwice(c, c2, Initialize(c).0);
    }
  }

  lemma ReplaceLatches(c: Control, candidate: Profile, persisted: bool)
    requires Proper(c) && Valid(candidate)
    ensures Latches(c, Replace(c, candidate, persisted).0)
  {
    var c1 := c.(attached := false, profile := Some(candidate), muted := Some(true));
    InitializeLatches(c1);
    var (c2, ok) := Initialize(c1);
    assert Latches(c, c2);
    var c3 := c2.(profile := c.profile);
    InitializeLatches(c3);
    assert Latches(c2, Initialize(c3).0);
    LatchesTwice(c, c2, Initialize(c3).0);
  }

  lemma UnmuteLatches(c: Control)
    requires Proper(c)
    ensures Latches(c, UnmuteAudio(c).0)
  {
    var c1 := c.(muted := Some(false));
    TickLatches(c1);
    var c2 := Tick(c1);
    RunPhaseLatches(c2, Health);
    var c3 := RunPhase(c2, Health).0;
    LatchesTwice(c1, c2, c3);
    RunPhaseLatches(c3, Unmute);
    LatchesTwice(c1, c3, RunPhase(c3, Unmute).0);
    var (c4, ok) := Unmuting(c1);
    assert Latches(c, c4);
    TickLatches(c4);
    LatchesTwice(c, c4, SetGate(c4, true));
    StopLatches(c4);
    var c5 := Stop(c4).0.(muted := Some(true));
    assert Latches(c4, c5);
    LatchesTwice(c, c4, c5);
    TickLatches(c5);
    LatchesTwice(c, c5, SetGate(c5, false));
  }

  lemma CheckHealthLatches(c: Control)
    requires Proper(c)
    ensures Latches(c, CheckHealth(c))
  {
    TickLatches(c);
    var c1 := Tick(c);
    RunPhaseLatches(c1, Health);
    LatchesTwice(c, c1, RunPhase(c1, Health).0);
    var c2 := if c1.failed then c1 else RunPhase(c1, Health).0;
    var c3 := c2.(muted := Some(true));
    StopLatches(c3);
    assert Latches(c, c3);
    LatchesTwice(c, c3, Stop(c3).0);
  }

  /** The state in which an acquire begins to initialize. */
  function Selecting(c: Control, p: Profile): Control {
    c.(users := c.users + 1, clockStarted := true, profile := Some(p))
  }

  lemma AcquireInitializes(c: Control, l: Loading)
    requires Proper(c) && Sound(l)
    ensures var c' := Acquire(c, l);
            if !c.clockStarted && l.Loaded? && !c.quiesced then c' == Initialize(Selecting(c, l.profile)).0
            else c'.faults == c.faults && c'.tick == c.tick && c'.failed == c.failed
  {
  }

  lemma AcquireLatches(c: Control, l: Loading)
    requires Proper(c) && Sound(l)
    ensures Latches(c, Acquire(c, l))
  {
    AcquireInitializes(c, l);
    if !c.clockStarted && l.Loaded? && !c.quiesced {
      InitializeLatches(Selecting(c, l.profile));
    }
  }

  lemma ReloadLatches(c: Control, l: Loading, persisted: bool)
    requires Proper(c) && Sound(l)
    ensures Latches(c, Reload(c, l, persisted).0)
  {
    if l.Loaded? {
      StopLatches(c);
      var c1 := if c.clockStarted then Stop(c).0 else c;
      ReplaceLatches(c1, l.profile, persisted);
      LatchesTwice(c, c1, Replace(c1, l.profile, persisted).0);
    }
  }

  lemma MuteLatches(c: Control)
    requires Proper(c)
    ensures Latches(c, MuteAudio(c).0)
  {
    TickLatches(c);
    var c1 := SetGate(c, false).(muted := Some(true));
    assert Latches(c, c1);
    RunPhaseLatches(c1, Mute);
    LatchesTwice(c, c1, RunPhase(c1, Mute).0);
  }

  /** No command but resume loses a clock fault, and none invents one. */
  lemma StepLatches(c: Control, e: Event)
    requires Proper(c) && !e.ResumeCommand?
    ensures Latches(c, Step(c, e))
  {
    match e
    case Clock => TickLatches(c);
    case AcquireBy(id, file) => AcquireLatches(c, Load(id, file));
    case ReleaseBy =>
    case ReloadWith(id, file, persisted) => ReloadLatches(c, Load(id, file), persisted);
    case MuteCommand => MuteLatches(c);
    case UnmuteCommand => UnmuteLatches(c);
    case QuiesceCommand => StopLatches(c.(muted := Some(true), quiesced := true));
    case HealthCheck => CheckHealthLatches(c);
  }

  /** After a fault the audio stays off: until a resume by the fault, after it by the gate. */
  ghost predicate Silenced(c: Control, resumed: bool) {
    if resumed then !c.allow && (c.clockStarted || c.muted == Some(true)) else c.failed
  }

  lemma StepKeepsSilence(c: Control, e: Event, resumed: bool)
    requires Boundary(c) && Silenced(c, resumed) && (resumed ==> !e.UnmuteCommand?)
    ensures Silenced(Step(c, e), resumed || e.ResumeCommand?)
  {
    if e.ResumeCommand? {
      ResumeKeeps(c);
    } else if !resumed {
      StepLatches(c, e);
    } else if c.clockStarted {
      OnlyUnmuteOpens(c, e);
    } else {
      IdleStaysSilent(c, e);
    }
  }

  lemma IdleStaysSilent(c: Control, e: Event)
    requires Boundary(c) && !c.clockStarted && c.muted == Some(true) && !e.UnmuteCommand? && !e.ResumeCommand?
    ensures Silenced(Step(c, e), true)
  {
    match e
    case AcquireBy(id, file) =>
      var l := Load(id, file);
      if l.Loaded? && !c.quiesced {
        AnotherUserKeeps(c);
        var c1 := c.(users := c.users + 1, clockStarted := true);
        SelectingKeeps(c1, l.profile);
        InitializeKeeps(c1.(profile := Some(l.profile)));
      }
    case ReloadWith(id, file, persisted) => ReloadKeeps(c, Load(id, file), persisted);
    case MuteCommand => MuteKeeps(c);
    case QuiesceCommand => QuiesceKeeps(c);
    case HealthCheck => CheckHealthKeeps(c);
    case _ =>
  }

  /** No unmute after a resume, and none at all if there was a resume before. */
  predicate Unopened(es: seq<Event>, resumed: bool) {
    forall k | 0 <= k < |es| && es[k].UnmuteCommand? :: !resumed && forall j | 0 <= j < k :: !es[j].ResumeCommand?
  }

  lemma {:induction false} SilenceLasts(c: Control, es: seq<Event>, resumed: bool)
    requires Boundary(c) && Silenced(c, resumed) && Unopened(es, resumed)
    ensures !Allowed(Run(c, es))
    decreases |es|
  {
    if es != [] {
      StepKeepsBoundary(c, es[0]);
      StepKeepsSilence(c, es[0], resumed);
      var rest := es[1..];
      assert forall k | 0 <= k < |rest| :: rest[k] == es[k + 1];
      SilenceLasts(Step(c, es[0]), rest, resumed || es[0].ResumeCommand?);
    }
  }

  /**
  The clock fault latch: once the clock fails, during a command or between commands, no audio is let
  through at any later boundary, until a resume and then an unmute have followed.
  */
  lemma ClockFaultLatches(faults: nat -> Fault, bus: Bus, before: seq<Event>, e: Event, after: seq<Event>)
    requires var c := Run(Fresh(faults, bus), before); Fails(faults, c.tick, Step(c, e).tick)
    requires Unopened([e] + after, false)
    ensures !Allowed(Run(Step(Run(Fresh(faults, bus), before), e), after))
  {
    var c := Run(Fresh(faults, bus), before);
    RunKeepsBoundary(Fresh(faults, bus), before);
    RunKeepsFaults(Fresh(faults, bus), before);
    StepKeepsBoundary(c, e);
    if e.ResumeCommand? {
      ResumeKeeps(c);
    } else {
      StepLatches(c, e);
    }
    var all := [e] + after;
    assert all[0] == e && forall k | 0 <= k < |after| :: all[k + 1] == after[k];
    assert Unopened(after, e.ResumeCommand?) by {
      forall k | 0 <= k < |after| && after[k].UnmuteCommand?
        ensures !e.ResumeCommand? && forall j | 0 <= j < k :: !after[j].ResumeCommand?
      {
        assert all[k + 1].UnmuteCommand?;
        assert !all[0].ResumeCommand?;
        forall j | 0 <= j < k
          ensures !after[j].ResumeCommand?
        {
          assert !all[j + 1].ResumeCommand?;
        }
      }
    }
    SilenceLasts(Step(c, e), after, e.ResumeCommand?);
  }

  lemma {:induction false} RunKeepsFaults(c: Control, es: seq<Event>)
    requires Proper(c)
    ensures Run(c, es).faults == c.faults
    decreases |es|
  {
    if es != [] {
      StepKeepsFaults(c, es[0]);
      RunKeepsFaults(Step(c, es[0]), es[1..]);
    }
  }

  lemma StepKeepsFaults(c: Control, e: Event)
    requires Proper(c)
    ensures Step(c, e).faults == c.faults
  {
    if e.ResumeCommand? {
      var c1 := ClearFault(c.(quiesced := false, muted := Some(true)));
      StopLatches(c1);
      InitializeLatches(Stop(c1).0);
    } else {
      StepLatches(c, e);
    }
  }
}
