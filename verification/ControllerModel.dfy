/**
The controller of the A2B bus as functions on its state. Commands run one at a time, but the two stores of
`clockFailed` may fall between any two steps of a command: `faults` says at which ticks they do.
*/
module ControllerModel {
  import opened JsonTrees
  import opened Profiles
  import opened ProfileParser
  import opened A2bBus
  import opened Executor

  // ----- state -----

  /** What `clockFailed` stores at one tick: the fault, the closing of the gate, both or neither. */
  datatype Fault = Fault(fails: bool, drops: bool)

  /** One phase run: by which profile, with the gate open or closed when it began, and how it went. */
  datatype PhaseRun = PhaseRun(profile: Profile, phase: Phase, gate: bool, ok: bool, reports: seq<Report>)

  datatype Control = Control(
    faults: nat -> Fault, tick: nat,
    bus: Bus, attached: bool, profile: Option<Profile>, users: nat,
    ready: bool, clockStarted: bool, quiesced: bool, muted: Option<bool>,
    allow: bool, failed: bool, log: seq<PhaseRun>)

  ghost predicate Proper(c: Control) {
    c.profile.Some? ==> Valid(c.profile.value)
  }

  /** What audio threads see. */
  predicate Allowed(c: Control) {
    c.allow && !c.failed
  }

  // ----- atomic steps -----

  /** A point at which `clockFailed` may interleave. */
  function Tick(c: Control): Control {
    var f := c.faults(c.tick);
    c.(tick := c.tick + 1, failed := c.failed || f.fails, allow := c.allow && !f.drops)
  }

  function SetGate(c: Control, open: bool): Control {
    Tick(c).(allow := open)
  }

  function ClearFault(c: Control): Control {
    Tick(c).(failed := false)
  }

  function RunPhase(c: Control, phase: Phase): (r: (Control, bool))
    requires Proper(c)
    ensures Proper(r.0)
  {
    var c1 := Tick(c);
    if !c.attached || c.profile.None? then (c1, true)
    else
      var out := Run(c.profile.value, phase, c1.bus);
      (c1.(bus := out.bus, log := c1.log + [PhaseRun(c.profile.value, phase, c1.allow, out.ok, out.reports)]), out.ok)
  }

  // ----- parts of commands -----

  datatype File = Unreadable | File(text: string, parsed: Option<Json>)

  datatype Loading = NotLoaded | Mismatched(profile: Profile) | Loaded(profile: Profile)

  predicate Sound(l: Loading) {
    l.NotLoaded? || Valid(l.profile)
  }

  /** Loading profile `id` from its file: a profile that carries another name is read, but not accepted. */
  function Load(id: string, file: File): (l: Loading)
    ensures Sound(l)
    ensures l.Loaded? ==> l.profile.id == id
  {
    if !ValidId(id) || file.Unreadable? then NotLoaded
    else
      var profile := Parsed(file.text, file.parsed);
      if profile.None? then NotLoaded
      else if profile.value.id != id then Mismatched(profile.value)
      else Loaded(profile.value)
  }

  function Stop(c: Control): (r: (Control, bool))
    requires Proper(c)
    ensures Proper(r.0)
  {
    var c1 := SetGate(c, false).(ready := false);
    var (c2, muted) := RunPhase(c1, Mute);
    var (c3, stopped) := RunPhase(c2, Shutdown);
    (c3, muted && stopped)
  }

  /** The steps of initialization that must succeed before the bus is ready. */
  function BringUp(c: Control): (r: (Control, bool))
    requires Proper(c) && c.profile.Some?
    ensures Proper(r.0)
  {
    var (c1, ok1) := RunPhase(c, Init);
    if !ok1 then (c1, false)
    else
      var (bus, ok2) := Verified(c.profile.value, c1.bus);
      var c2 := c1.(bus := bus);
      if !ok2 then (c2, false)
      else
        var (c3, ok3) := RunPhase(c2, Health);
        if !ok3 then (c3, false) else RunPhase(c3, Mute)
  }

  function WantsMute(c: Control): bool
    requires c.profile.Some?
  {
    if c.muted.Some? then c.muted.value else c.profile.value.startMuted
  }

  function Initialize(c: Control): (r: (Control, bool))
    requires Proper(c)
    ensures Proper(r.0)
  {
    var c1 := SetGate(c, false).(ready := false);
    if c1.profile.None? then (c1, false)
    else
      var (c2, up) := BringUp(c1.(attached := true));
      if !up then (Stop(c2).0, false)
      else Settle(c2)
  }

  /** The rest of an initialization that brought the bus up. */
  function Settle(c: Control): (r: (Control, bool))
    requires Proper(c) && c.profile.Some?
    ensures Proper(r.0)
  {
    var c1 := Tick(c.(ready := true));
    if c1.failed then (Stop(c1).0, false)
    else if WantsMute(c1) then (c1, true)
    else
      var (c2, ok) := RunPhase(c1, Unmute);
      if !ok then (Stop(c2).0, false) else (SetGate(c2, true), true)
  }

  // ----- commands -----

  function Acquire(c: Control, l: Loading): (c': Control)
    requires Proper(c) && Sound(l)
    ensures Proper(c')
  {
    var c1 := c.(users := c.users + 1);
    if c.clockStarted then c1
    else
      var c2 := c1.(clockStarted := true);
      match l
      case NotLoaded => c2
      case Mismatched(profile) => c2.(profile := Some(profile))
      case Loaded(profile) =>
        var c3 := c2.(profile := Some(profile));
        if c.quiesced then c3 else Initialize(c3).0
  }

  function Release(c: Control): Control {
    c.(users := if c.users > 0 then c.users - 1 else 0)
  }

  function Reload(c: Control, l: Loading, persisted: bool): (r: (Control, bool))
    requires Proper(c) && Sound(l)
    ensures Proper(r.0)
  {
    match l
    case Loaded(candidate) =>
      var (c1, stopped) := if c.clockStarted then Stop(c) else (c, true);
      if stopped then Replace(c1, candidate, persisted) else (c1, false)
    case _ => (c, false)
  }

  /** Takes a candidate profile into use; if it does not initialize, the one before it. */
  function Replace(c: Control, candidate: Profile, persisted: bool): (r: (Control, bool))
    requires Proper(c) && Valid(candidate)
    ensures Proper(r.0)
  {
    var c1 := c.(attached := false, profile := Some(candidate), muted := Some(true));
    if c1.clockStarted && !c1.quiesced then
      var (c2, ok) := Initialize(c1);
      if ok then (c2, persisted) else (Initialize(c2.(profile := c.profile)).0, false)
    else (c1, persisted)
  }

  function MuteAudio(c: Control): (r: (Control, bool))
    requires Proper(c)
    ensures Proper(r.0)
  {
    var c1 := SetGate(c, false).(muted := Some(true));
    if c.clockStarted then RunPhase(c1, Mute) else (c1, true)
  }

  function UnmuteAudio(c: Control): (r: (Control, bool))
    requires Proper(c)
    ensures Proper(r.0)
  {
    if c.quiesced || (c.clockStarted && !c.ready) then (c, false)
    else
      var c1 := c.(muted := Some(false));
      if !c.clockStarted then (c1, true)
      else
        var (c2, ok) := Unmuting(c1);
        if ok then (SetGate(c2, true), true) else (SetGate(Stop(c2).0.(muted := Some(true)), false), false)
  }

  function Unmuting(c: Control): (r: (Control, bool))
    requires Proper(c)
    ensures Proper(r.0)
  {
    var c1 := Tick(c);
    if c1.failed then (c1, false)
    else
      var (c2, healthy) := RunPhase(c1, Health);
      if !healthy then (c2, false) else RunPhase(c2, Unmute)
  }

  function Quiesce(c: Control): (r: (Control, bool))
    requires Proper(c)
    ensures Proper(r.0)
  {
    var c1 := c.(muted := Some(true), quiesced := true);
    if c.clockStarted then Stop(c1) else (c1, true)
  }

  function Resume(c: Control): (r: (Control, bool))
    requires Proper(c)
    ensures Proper(r.0)
  {
    var c1 := ClearFault(c.(quiesced := false, muted := Some(true)));
    if c.clockStarted then Initialize(Stop(c1).0) else (c1, true)
  }

  function CheckHealth(c: Control): (c': Control)
    requires Proper(c)
    ensures Proper(c')
  {
    if !c.clockStarted || !c.ready || c.quiesced then c
    else
      var c1 := Tick(c);
      var (c2, healthy) := if c1.failed then (c1, false) else RunPhase(c1, Health);
      if healthy then c2 else Stop(c2.(muted := Some(true))).0
  }
}
