/**
What holds at every command boundary of the controller, whatever the line does and whenever the clock
fails: when audio may be audible, when the gate was closed, and what was shut down.
*/
module ControllerSafety {
  import opened Profiles
  import opened ProfileParser
  import opened Executor
  import opened ExecutorRuns
  import opened ControllerModel

  // ----- the log -----

  /** A phase that leaves the amplifiers unsettled, until a mute and a shutdown. */
  predicate Rouses(phase: Phase) {
    phase == Init || phase == Unmute
  }

  /** A run as it should be: with the gate closed where it must be, and attempting all that it should. */
  ghost predicate Orderly(r: PhaseRun) {
    && Valid(r.profile)
    && (r.phase == Init || r.phase == Mute || r.phase == Shutdown ==> !r.gate)
    && Lawful(r.ok, r.reports, |Ops(r.profile, r.phase)|, Persists(r.phase))
  }

  ghost predicate AllOrderly(log: seq<PhaseRun>) {
    forall i {:trigger Orderly(log[i])} | 0 <= i < |log| :: Orderly(log[i])
  }

  /** Run `j` is one of the given phase and profile that attempted every operation. */
  ghost predicate Complete(log: seq<PhaseRun>, j: nat, phase: Phase, p: Profile) {
    j < |log| && log[j].phase == phase && log[j].profile == p && |log[j].reports| == |Ops(p, phase)|
  }

  /** After run `i`, all of its profile's mute sequence and then all of its shutdown sequence was attempted. */
  ghost predicate ShutDownAfter(log: seq<PhaseRun>, i: nat)
    requires i < |log|
  {
    exists j: nat, k: nat ::
        i < j < k && Complete(log, j, Mute, log[i].profile) && Complete(log, k, Shutdown, log[i].profile)
  }

  ghost predicate AllShutDown(log: seq<PhaseRun>) {
    forall i {:trigger ShutDownAfter(log, i)} | 0 <= i < |log| && Rouses(log[i].phase) :: ShutDownAfter(log, i)
  }

  /** The latest run but health checks. */
  function LastRun(log: seq<PhaseRun>): Option<PhaseRun> {
    if log == [] then None
    else if log[|log| - 1].phase == Health then LastRun(log[..|log| - 1])
    else Some(log[|log| - 1])
  }

  // ----- the invariant -----

  /** Every run that roused a profile was followed by a shutdown, unless the profile is still in force. */
  ghost predicate Accounted(c: Control) {
    forall i {:trigger ShutDownAfter(c.log, i)} | 0 <= i < |c.log| && Rouses(c.log[i].phase) ::
      ShutDownAfter(c.log, i) || (c.attached && c.profile == Some(c.log[i].profile))
  }

  ghost predicate Core(c: Control) {
    Proper(c) && (c.attached ==> c.clockStarted) && AllOrderly(c.log) && Accounted(c)
  }

  /** The gate is open for a reason: the latest run was a successful unmute of the profile in force. */
  ghost predicate Audible(c: Control) {
    && c.ready && c.attached && c.clockStarted && !c.quiesced
    && c.profile.Some? && !WantsMute(c)
    && LastRun(c.log).Some? && var r := LastRun(c.log).value; r.phase == Unmute && r.ok && r.profile == c.profile.value
  }

  ghost predicate Boundary(c: Control) {
    && Core(c)
    && (c.ready ==> c.attached && c.clockStarted && !c.quiesced && c.profile.Some?)
    && (!c.ready ==> AllShutDown(c.log))
    && (c.allow ==> Audible(c))
  }

  // ----- appending to the log -----

  lemma ShutDownStays(log: seq<PhaseRun>, r: PhaseRun, i: nat)
    requires i < |log| && ShutDownAfter(log, i)
    ensures ShutDownAfter(log + [r], i)
  {
    var j: nat, k: nat :| i < j < k && Complete(log, j, Mute, log[i].profile) &&
        Complete(log, k, Shutdown, log[i].profile);
    assert (log + [r])[i] == log[i];
    assert Complete(log + [r], j, Mute, log[i].profile) && Complete(log + [r], k, Shutdown, log[i].profile);
  }

  lemma LastRunOf(log: seq<PhaseRun>, r: PhaseRun)
    ensures LastRun(log + [r]) == if r.phase == Health then LastRun(log) else Some(r)
  {
    assert (log + [r])[..|log|] == log;
  }

  lemma AllShutDownStays(log: seq<PhaseRun>, r: PhaseRun)
    requires AllShutDown(log) && !Rouses(r.phase)
    ensures AllShutDown(log + [r])
  {
    forall i | 0 <= i < |log| && Rouses(log[i].phase)
      ensures ShutDownAfter(log + [r], i)
    {
      ShutDownStays(log, r, i);
    }
  }

  // ----- one phase -----

  /** Nothing but the line, the log, the tick, the fault and (to closed) the gate has changed. */
  ghost predicate Alike(c: Control, c': Control) {
    && c'.faults == c.faults && c'.tick >= c.tick
    && c'.attached == c.attached && c'.profile == c.profile && c'.clockStarted == c.clockStarted
    && c'.quiesced == c.quiesced && c'.muted == c.muted && c'.users == c.users
    && (c'.allow ==> c.allow)
  }

  /** The run a phase adds to the log. */
  function RunOf(c: Control, phase: Phase): PhaseRun
    requires Proper(c) && c.profile.Some?
  {
    var out := Run(c.profile.value, phase, Tick(c).bus);
    PhaseRun(c.profile.value, phase, Tick(c).allow, out.ok, out.reports)
  }

  lemma RunIsOrderly(c: Control, phase: Phase)
    requires Proper(c) && c.profile.Some? && (phase == Unmute || phase == Health || !c.allow)
    ensures Orderly(RunOf(c, phase))
  {
    OutcomeIsExact(c.profile.value, phase, |Ops(c.profile.value, phase)|, Tick(c).bus);
  }

  lemma RunPhaseKeeps(c: Control, phase: Phase)
    requires Core(c) && (phase == Unmute || phase == Health || !c.allow)
    ensures var (c', ok) := RunPhase(c, phase);
            && Core(c') && Alike(c, c') && c'.ready == c.ready
            && c'.log == (if c.attached && c.profile.Some? then c.log + [RunOf(c, phase)] else c.log)
            && (c.attached && c.profile.Some? ==> ok == RunOf(c, phase).ok)
            && (AllShutDown(c.log) && !Rouses(phase) ==> AllShutDown(c'.log))
  {
    if c.attached && c.profile.Some? {
      var r := RunOf(c, phase);
      RunIsOrderly(c, phase);
      AccountedStays(c, r);
      if AllShutDown(c.log) && !Rouses(phase) {
        AllShutDownStays(c.log, r);
      }
    }
  }

  lemma AccountedStays(c: Control, r: PhaseRun)
    requires Accounted(c) && c.attached && c.profile == Some(r.profile)
    ensures Accounted(c.(log := c.log + [r]))
  {
    forall i | 0 <= i < |c.log| && Rouses(c.log[i].phase) && !(c.attached && c.profile == Some(c.log[i].profile))
      ensures ShutDownAfter(c.log + [r], i)
    {
      ShutDownStays(c.log, r, i);
    }
  }

  // ----- parts of commands -----

  lemma StopShutsDown(c: Control)
    requires Core(c)
    ensures var c' := Stop(c).0;
            Core(c') && Alike(c, c') && !c'.allow && !c'.ready && AllShutDown(c'.log)
  {
    var c1 := SetGate(c, false).(ready := false);
    assert Core(c1);
    RunPhaseKeeps(c1, Mute);
    var c2 := RunPhase(c1, Mute).0;
    RunPhaseKeeps(c2, Shutdown);
    var c3 := RunPhase(c2, Shutdown).0;
    if c.attached && c.profile.Some? {
      var (mute, shutdown) := (RunOf(c1, Mute), RunOf(c2, Shutdown));
      RunIsOrderly(c1, Mute);
      RunIsOrderly(c2, Shutdown);
      assert c3.log == c.log + [mute] + [shutdown];
      ShutDownByTwo(c, mute, shutdown);
    }
  }

  lemma ShutDownByTwo(c: Control, mute: PhaseRun, shutdown: PhaseRun)
    requires Accounted(c) && c.attached && c.profile == Some(mute.profile) && shutdown.profile == mute.profile
    requires mute.phase == Mute && |mute.reports| == |Ops(mute.profile, Mute)|
    requires shutdown.phase == Shutdown && |shutdown.reports| == |Ops(mute.profile, Shutdown)|
    ensures AllShutDown(c.log + [mute] + [shutdown])
  {
    var log := c.log + [mute] + [shutdown];
    var n := |c.log|;
    assert Complete(log, n, Mute, mute.profile) && Complete(log, n + 1, Shutdown, mute.profile);
    forall i | 0 <= i < n && Rouses(c.log[i].phase)
      ensures ShutDownAfter(log, i)
    {
      if ShutDownAfter(c.log, i) {
        ShutDownStays(c.log, mute, i);
        ShutDownStays(c.log + [mute], shutdown, i);
      } else {
        assert log[i] == c.log[i] && log[i].profile == mute.profile;
        assert i < n < n + 1;
      }
    }
  }

  lemma BringUpKeeps(c: Control)
    requires Core(c) && !c.allow && c.profile.Some?
    ensures var c' := BringUp(c).0; Core(c') && Alike(c, c') && c'.ready == c.ready
  {
    RunPhaseKeeps(c, Init);
    var (c1, ok1) := RunPhase(c, Init);
    if ok1 {
      var (bus, ok2) := Verified(c.profile.value, c1.bus);
      var c2 := c1.(bus := bus);
      assert Core(c2);
      if ok2 {
        RunPhaseKeeps(c2, Health);
        RunPhaseKeeps(RunPhase(c2, Health).0, Mute);
      }
    }
  }

  lemma SettleKeeps(c: Control)
    requires Core(c) && !c.allow && c.attached && c.profile.Some? && !c.quiesced
    ensures var c' := Settle(c).0;
            && Boundary(c') && c'.profile == c.profile && c'.muted == c.muted && c'.clockStarted == c.clockStarted
            && c'.tick >= c.tick && (WantsMute(c) ==> !c'.allow)
  {
    var c1 := Tick(c.(ready := true));
    assert Core(c1);
    if c1.failed {
      StopShutsDown(c1);
    } else if !WantsMute(c1) {
      RunPhaseKeeps(c1, Unmute);
      var (c2, ok) := RunPhase(c1, Unmute);
      if ok {
        LastRunOf(c1.log, RunOf(c1, Unmute));
        assert Core(SetGate(c2, true));
      } else {
        StopShutsDown(c2);
      }
    }
  }

  lemma InitializeKeeps(c: Control)
    requires Core(c) && c.clockStarted && !c.quiesced && AllShutDown(c.log)
    ensures var c' := Initialize(c).0;
            && Boundary(c') && c'.profile == c.profile && c'.muted == c.muted && c'.clockStarted == c.clockStarted
            && c'.tick >= c.tick && !c'.quiesced && (c.muted == Some(true) ==> !c'.allow)
  {
    var c1 := SetGate(c, false).(ready := false);
    if c1.profile.Some? {
      var c2 := c1.(attached := true);
      assert Core(c2);
      BringUpKeeps(c2);
      var (c3, up) := BringUp(c2);
      if up {
        SettleKeeps(c3);
      } else {
        StopShutsDown(c3);
      }
    }
  }

  // ----- commands -----

  lemma AnotherUserKeeps(c: Control)
    requires Boundary(c)
    ensures Boundary(c.(users := c.users + 1)) && Boundary(Release(c))
    ensures !c.clockStarted ==> Boundary(c.(users := c.users + 1, clockStarted := true))
  {
  }

  lemma SelectingKeeps(c: Control, p: Profile)
    requires Boundary(c) && !c.attached && Valid(p)
    ensures Boundary(c.(profile := Some(p))) && !c.ready
  {
    assert !c.ready;
  }

  lemma AcquireKeeps(c: Control, l: Loading)
    requires Boundary(c) && Sound(l)
    ensures Boundary(Acquire(c, l))
  {
    AnotherUserKeeps(c);
    var c2 := c.(users := c.users + 1, clockStarted := true);
    if !c.clockStarted && !l.NotLoaded? {
      SelectingKeeps(c2, l.profile);
      if l.Loaded? && !c.quiesced {
        InitializeKeeps(c2.(profile := Some(l.profile)));
      }
    }
  }

  lemma ReplaceKeeps(c: Control, candidate: Profile, persisted: bool)
    requires Boundary(c) && !c.ready && Valid(candidate)
    ensures var c' := Replace(c, candidate, persisted).0;
            Boundary(c') && !c'.allow && c'.muted == Some(true) && c'.clockStarted == c.clockStarted &&
                c'.tick >= c.tick
  {
    var c1 := c.(attached := false, profile := Some(candidate), muted := Some(true));
    assert Core(c1);
    if c1.clockStarted && !c1.quiesced {
      InitializeKeeps(c1);
      var (c2, ok) := Initialize(c1);
      if !ok {
        InitializeFailsStopped(c1);
        var c3 := c2.(profile := c.profile);
        assert Core(c3);
        InitializeKeeps(c3);
      }
    }
  }

  /** An initialization that fails leaves nothing in force. */
  lemma InitializeFailsStopped(c: Control)
    requires Core(c) && c.clockStarted && !c.quiesced && AllShutDown(c.log)
    ensures var (c', ok) := Initialize(c); !ok ==> !c'.ready && AllShutDown(c'.log)
  {
    InitializeKeeps(c);
    InitializeReady(c);
  }

  lemma InitializeReady(c: Control)
    requires Proper(c)
    ensures var (c', ok) := Initialize(c); c'.ready ==> ok
  {
    var c1 := SetGate(c, false).(ready := false);
    if c1.profile.Some? {
      var (c2, up) := BringUp(c1.(attached := true));
      if up {
        SettleReady(c2);
      } else {
        StopNotReady(c2);
      }
    }
  }

  lemma SettleReady(c: Control)
    requires Proper(c) && c.profile.Some?
    ensures var (c', ok) := Settle(c); c'.ready ==> ok
  {
    var c1 := Tick(c.(ready := true));
    if c1.failed {
      StopNotReady(c1);
    } else if !WantsMute(c1) {
      StopNotReady(RunPhase(c1, Unmute).0);
    }
  }

  lemma StopNotReady(c: Control)
    requires Proper(c)
    ensures !Stop(c).0.ready
  {
  }

  lemma ReloadKeeps(c: Control, l: Loading, persisted: bool)
    requires Boundary(c) && Sound(l)
    ensures var c' := Reload(c, l, persisted).0;
            && Boundary(c') && c'.clockStarted == c.clockStarted && c'.tick >= c.tick && (c'.allow ==> c.allow)
            && (c.muted == Some(true) ==> c'.muted == Some(true))
  {
    if l.Loaded? {
      if c.clockStarted {
        StopShutsDown(c);
        var (c1, stopped) := Stop(c);
        if stopped {
          ReplaceKeeps(c1, l.profile, persisted);
        }
      } else {
        ReplaceKeeps(c, l.profile, persisted);
      }
    }
  }

  lemma MuteKeeps(c: Control)
    requires Boundary(c)
    ensures var c' := MuteAudio(c).0;
            Boundary(c') && c'.clockStarted == c.clockStarted && c'.tick >= c.tick && !c'.allow &&
                c'.muted == Some(true)
  {
    var c1 := SetGate(c, false).(muted := Some(true));
    assert Core(c1);
    RunPhaseKeeps(c1, Mute);
  }

  lemma UnmuteKeeps(c: Control)
    requires Boundary(c)
    ensures Boundary(UnmuteAudio(c).0)
  {
    if !(c.quiesced || (c.clockStarted && !c.ready)) && c.clockStarted {
      var c1 := c.(muted := Some(false));
      assert Core(c1);
      UnmutingKeeps(c1);
      var (c2, ok) := Unmuting(c1);
      if ok {
        assert Core(SetGate(c2, true));
      } else {
        StopShutsDown(c2);
        var c3 := SetGate(Stop(c2).0.(muted := Some(true)), false);
        assert Core(c3);
      }
    }
  }

  lemma UnmutingKeeps(c: Control)
    requires Core(c) && c.attached && c.profile.Some?
    ensures var (c', ok) := Unmuting(c);
            && Core(c') && Alike(c, c') && c'.ready == c.ready
            && (ok ==>
                  && LastRun(c'.log).Some?
                  && var r := LastRun(c'.log).value; r.phase == Unmute && r.ok && r.profile == c.profile.value)
  {
    var c1 := Tick(c);
    assert Core(c1);
    if !c1.failed {
      RunPhaseKeeps(c1, Health);
      var (c2, healthy) := RunPhase(c1, Health);
      if healthy {
        RunPhaseKeeps(c2, Unmute);
        LastRunOf(c2.log, RunOf(c2, Unmute));
      }
    }
  }

  lemma QuiesceKeeps(c: Control)
    requires Boundary(c)
    ensures var c' := Quiesce(c).0;
            Boundary(c') && c'.clockStarted == c.clockStarted && c'.tick >= c.tick && !c'.allow &&
                c'.muted == Some(true)
  {
    var c1 := c.(muted := Some(true), quiesced := true);
    assert Core(c1);
    StopShutsDown(c1);
  }

  lemma ResumeKeeps(c: Control)
    requires Boundary(c)
    ensures var c' := Resume(c).0;
            Boundary(c') && c'.clockStarted == c.clockStarted && c'.tick >= c.tick && !c'.allow &&
                c'.muted == Some(true)
  {
    var c1 := ClearFault(c.(quiesced := false, muted := Some(true)));
    assert Core(c1);
    if c.clockStarted {
      StopShutsDown(c1);
      InitializeKeeps(Stop(c1).0);
    }
  }

  lemma CheckHealthKeeps(c: Control)
    requires Boundary(c)
    ensures var c' := CheckHealth(c);
            && Boundary(c') && c'.clockStarted == c.clockStarted && c'.tick >= c.tick && (c'.allow ==> c.allow)
            && (c.muted == Some(true) ==> c'.muted == Some(true))
  {
    if c.clockStarted && c.ready && !c.quiesced {
      var c1 := Tick(c);
      assert Core(c1);
      var (c2, healthy) := if c1.failed then (c1, false) else RunPhase(c1, Health);
      if !c1.failed {
        RunPhaseKeeps(c1, Health);
        LastRunOf(c1.log, RunOf(c1, Health));
      }
      if !healthy {
        var c3 := c2.(muted := Some(true));
        assert Core(c3);
        StopShutsDown(c3);
      }
    }
  }
}
