/** The controller object: its methods do, on its fields, what the functions of the model say. */
module A2bControllers {
  import opened Profiles
  import opened ProfileParser
  import opened A2bBus
  import opened Executor
  import M = ControllerModel

  class A2bController {
    const faults: nat -> M.Fault
    const line: Transport
    var tick: nat
    var attached: bool
    var profile: Option<Profile>
    var users: nat
    var ready: bool
    var clockStarted: bool
    var quiesced: bool
    var muted: Option<bool>
    var allow: bool
    var failed: bool
    var log: seq<M.PhaseRun>

    ghost function State(): M.Control
      reads this, line
    {
      M.Control(faults, tick, line.bus, attached, profile, users,
                ready, clockStarted, quiesced, muted, allow, failed, log)
    }

    ghost predicate Proper()
      reads this, line
    {
      M.Proper(State())
    }

    constructor (line: Transport, faults: nat -> M.Fault)
      ensures State() == M.Control(faults, 0, line.bus, false, None, 0, false, false, false, None, false, false, [])
      ensures this.line == line
    {
      this.line, this.faults, tick := line, faults, 0;
      attached, profile, users := false, None, 0;
      ready, clockStarted, quiesced, muted := false, false, false, None;
      allow, failed, log := false, false, [];
    }

    method AllowAudio() returns (allowed: bool)
      ensures allowed == M.Allowed(State())
    {
      return allow && !failed;
    }

    /** The stores of `clockFailed` that fall due at this point. */
    method Interleave()
      modifies this
      ensures State() == M.Tick(old(State()))
    {
      var f := faults(tick);
      tick := tick + 1;
      failed := failed || f.fails;
      allow := allow && !f.drops;
    }

    method SetGate(open: bool)
      modifies this
      ensures State() == M.SetGate(old(State()), open)
    {
      Interleave();
      allow := open;
    }

    method Run(phase: Phase) returns (ok: bool)
      requires Proper()
      modifies this, line
      ensures Proper() && (State(), ok) == M.RunPhase(old(State()), phase)
    {
      Interleave();
      if !attached || profile.None? {
        return true;
      }
      var reports;
      ok, reports := ExecutePhase(profile.value, phase, line);
      log := log + [M.PhaseRun(profile.value, phase, allow, ok, reports)];
    }

    method Load(id: string, file: M.File) returns (loading: M.Loading)
      ensures loading == M.Load(id, file)
    {
      if !ValidId(id) || file.Unreadable? {
        return M.NotLoaded;
      }
      var read := ParseProfile(file.text, file.parsed);
      if read.None? {
        return M.NotLoaded;
      }
      return if read.value.id != id then M.Mismatched(read.value) else M.Loaded(read.value);
    }

    method Stop() returns (ok: bool)
      requires Proper()
      modifies this, line
      ensures Proper() && (State(), ok) == M.Stop(old(State()))
    {
      SetGate(false);
      ready := false;
      var muted := Run(Mute);
      var stopped := Run(Shutdown);
      return muted && stopped;
    }

    method BringUp() returns (ok: bool)
      requires Proper() && profile.Some?
      modifies this, line
      ensures Proper() && (State(), ok) == M.BringUp(old(State()))
    {
      ok := Run(Init);
      if !ok {
        return;
      }
      ok := VerifyNodes(profile.value, line);
      if !ok {
        return;
      }
      ok := Run(Health);
      if ok {
        ok := Run(Mute);
      }
    }

    method Initialize() returns (ok: bool)
      requires Proper()
      modifies this, line
      ensures Proper() && (State(), ok) == M.Initialize(old(State()))
    {
      SetGate(false);
      ready := false;
      if profile.None? {
        return false;
      }
      attached := true;
      assert State() == M.SetGate(old(State()), false).(ready := false).(attached := true);
      ok := BringUp();
      if !ok {
        var _ := Stop();
        return false;
      }
      ok := Settle();
    }

    method Settle() returns (ok: bool)
      requires Proper() && profile.Some?
      modifies this, line
      ensures Proper() && (State(), ok) == M.Settle(old(State()))
    {
      ready := true;
      Interleave();
      if failed {
        var _ := Stop();
        return false;
      }
      if !(if muted.Some? then muted.value else profile.value.startMuted) {
        ok := Run(Unmute);
        if !ok {
          var _ := Stop();
          return false;
        }
        SetGate(true);
      }
      return true;
    }

    method Acquire(id: string, file: M.File)
      requires Proper()
      modifies this, line
      ensures Proper() && State() == M.Acquire(old(State()), M.Load(id, file))
    {
      users := users + 1;
      if clockStarted {
        return;
      }
      clockStarted := true;
      var loading := Load(id, file);
      if !loading.NotLoaded? {
        profile := Some(loading.profile);
      }
      if loading.Loaded? && !quiesced {
        var _ := Initialize();
      }
    }

    method Release()
      modifies this
      ensures State() == M.Release(old(State()))
    {
      if users > 0 {
        users := users - 1;
      }
    }

    method Reload(id: string, file: M.File, persisted: bool) returns (ok: bool)
      requires Proper()
      modifies this, line
      ensures Proper() && (State(), ok) == M.Reload(old(State()), M.Load(id, file), persisted)
    {
      var loading := Load(id, file);
      if !loading.Loaded? {
        return false;
      }
      if clockStarted {
        var stopped := Stop();
        if !stopped {
          return false;
        }
      }
      ok := Replace(loading.profile, persisted);
    }

    method Replace(candidate: Profile, persisted: bool) returns (ok: bool)
      requires Proper() && Valid(candidate)
      modifies this, line
      ensures Proper() && (State(), ok) == M.Replace(old(State()), candidate, persisted)
    {
      var previous := profile;
      attached, profile, muted := false, Some(candidate), Some(true);
      assert State() == old(State()).(attached := false, profile := Some(candidate), muted := Some(true));
      if !clockStarted || quiesced {
        return persisted;
      }
      ok := Initialize();
      if ok {
        return persisted;
      }
      ghost var c := State();
      profile := previous;
      assert State() == c.(profile := previous);
      var _ := Initialize();
    }

    method MuteAudio() returns (ok: bool)
      requires Proper()
      modifies this, line
      ensures Proper() && (State(), ok) == M.MuteAudio(old(State()))
    {
      SetGate(false);
      muted := Some(true);
      ok := true;
      if clockStarted {
        ok := Run(Mute);
      }
    }

    method UnmuteAudio() returns (ok: bool)
      requires Proper()
      modifies this, line
      ensures Proper() && (State(), ok) == M.UnmuteAudio(old(State()))
    {
      if quiesced || (clockStarted && !ready) {
        return false;
      }
      muted := Some(false);
      assert State() == old(State()).(muted := Some(false));
      if !clockStarted {
        return true;
      }
      ok := Unmuting();
      if !ok {
        var _ := Stop();
        ghost var c := State();
        muted := Some(true);
        assert State() == c.(muted := Some(true));
      }
      SetGate(ok);
    }

    method Unmuting() returns (ok: bool)
      requires Proper()
      modifies this, line
      ensures Proper() && (State(), ok) == M.Unmuting(old(State()))
    {
      Interleave();
      if failed {
        return false;
      }
      ok := Run(Health);
      if ok {
        ok := Run(Unmute);
      }
    }

    method Quiesce() returns (ok: bool)
      requires Proper()
      modifies this, line
      ensures Proper() && (State(), ok) == M.Quiesce(old(State()))
    {
      muted := Some(true);
      quiesced := true;
      ok := true;
      if clockStarted {
        ok := Stop();
      }
    }

    method Resume() returns (ok: bool)
      requires Proper()
      modifies this, line
      ensures Proper() && (State(), ok) == M.Resume(old(State()))
    {
      quiesced := false;
      muted := Some(true);
      Interleave();
      failed := false;
      assert State() == M.ClearFault(old(State()).(quiesced := false, muted := Some(true)));
      ok := true;
      if clockStarted {
        var _ := Stop();
        ok := Initialize();
      }
    }

    method CheckHealth()
      requires Proper()
      modifies this, line
      ensures Proper() && State() == M.CheckHealth(old(State()))
    {
      if !clockStarted || !ready || quiesced {
        return;
      }
      Interleave();
      var healthy := !failed;
      if healthy {
        healthy := Run(Health);
      }
      if !healthy {
        muted := Some(true);
        var _ := Stop();
      }
    }
  }
}
