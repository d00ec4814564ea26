/** What the module's operations on patches, port configs and streams do to its state. */
module GraphOperations {
  import opened GraphModel

  /** The whole state of the module. */
  datatype Graph = Graph(
    wiring: Wiring, configs: seq<Config>, initials: seq<Config>,
    patches: seq<Patch>, nextPatchId: int, index: Index, streams: Streams)

  /** Refused: a stream did not take its new devices. Undefined: the code aborts, or goes on with a stale iterator. */
  datatype Outcome = Done | Invalid | Conflict | Refused | Undefined

  // ----- patches -----

  const NO_PATCH := Patch(0, [], [])

  predicate AllUnique(ids: seq<int>) {
    |Elements(ids)| == |ids|
  }

  predicate AllIn(ids: seq<int>, known: seq<int>) {
    forall i | 0 <= i < |ids| :: ids[i] in known
  }

  function PortOf(configs: seq<Config>, config: int): int
    requires config in ConfigIds(configs)
  {
    configs[Find(ConfigIds(configs), config)].port
  }

  predicate Reaches(r: Route, configs: seq<Config>, sources: seq<int>)
    requires AllIn(sources, ConfigIds(configs))
  {
    exists i | 0 <= i < |sources| :: PortOf(configs, sources[i]) in r.sources
  }

  /** Some route, or some non-exclusive route, leads from the sources to the sink port. */
  predicate Leads(routes: seq<Route>, configs: seq<Config>, sources: seq<int>, sink: int, openly: bool)
    requires AllIn(sources, ConfigIds(configs))
  {
    exists i | 0 <= i < |routes| ::
      routes[i].sink == sink && Reaches(routes[i], configs, sources) && (openly ==> !routes[i].exclusive)
  }

  predicate WellAddressed(g: Graph, p: Patch) {
    && p.sources != [] && AllUnique(p.sources) && p.sinks != [] && AllUnique(p.sinks)
    && AllIn(p.sources, ConfigIds(g.configs)) && AllIn(p.sinks, ConfigIds(g.configs))
    && forall i | 0 <= i < |p.sinks| ::
        Leads(g.wiring.routes, g.configs, p.sources, PortOf(g.configs, p.sinks[i]), false)
  }

  /** A sink that the sources reach only exclusively is in use. */
  predicate Excluded(g: Graph, index: Index, p: Patch)
    requires AllIn(p.sources, ConfigIds(g.configs))
  {
    exists i | 0 <= i < |g.wiring.routes| ::
      && Reaches(g.wiring.routes[i], g.configs, p.sources)
      && !Leads(g.wiring.routes, g.configs, p.sources, g.wiring.routes[i].sink, true)
      && Uses(index, g.wiring.routes[i].sink)
  }

  /** `matches` and `sized` are what the hardware says of the endpoints and of the buffer size. */
  ghost function SetPatch(g: Graph, p: Patch, matches: bool, sized: bool): (Graph, Outcome) {
    if !WellAddressed(g, p) || !matches then (g, Invalid)
    else if p.id == 0 then
      if Excluded(g, g.index, p) || !sized then (g, Conflict) else Created(g, p.(id := g.nextPatchId))
    else
      var k := Find(PatchIds(g.patches), p.id);
      if k < 0 then (g, Invalid)
      else if Excluded(g, CleanedUp(g.index, p.id), p) || !sized then (g, Conflict)
      else Updated(g, k, p)
  }

  ghost function Created(g: Graph, p: Patch): (Graph, Outcome) {
    var (streams, ok) := Switch(g.streams, ConnectionsOf(g.streams, NO_PATCH), ConnectionsOf(g.streams, p));
    var index := if ok then g.index + Registered(g.configs, p) else g.index;
    (g.(patches := g.patches + [p], nextPatchId := g.nextPatchId + 1, index := index, streams := streams),
     if ok then Done else Undefined)
  }

  /** On a refusal the index is left as it was after cleaning up, not as it was before. */
  ghost function Updated(g: Graph, k: nat, p: Patch): (Graph, Outcome)
    requires k < |g.patches|
  {
    UpdatedFrom(g, k, p, CleanedUp(g.index, g.patches[k].id))
  }

  ghost function UpdatedFrom(g: Graph, k: nat, p: Patch, cleaned: Index): (Graph, Outcome)
    requires k < |g.patches|
  {
    var (streams, ok) := Switch(g.streams, ConnectionsOf(g.streams, g.patches[k]), ConnectionsOf(g.streams, p));
    if ok then (g.(patches := g.patches[k := p], index := cleaned + Registered(g.configs, p), streams := streams), Done)
    else (g.(index := cleaned, streams := streams), Refused)
  }

  ghost function ResetPatch(g: Graph, id: int): (Graph, Outcome) {
    var k := Find(PatchIds(g.patches), id);
    if k < 0 then (g, Invalid)
    else
      var (was, none) := (ConnectionsOf(g.streams, g.patches[k]), ConnectionsOf(g.streams, NO_PATCH));
      var (streams, ok) := Switch(g.streams, was, none);
      if ok then (g.(patches := Without(g.patches, k), index := CleanedUp(g.index, id), streams := streams), Done)
      else (g.(streams := streams), Refused)
  }

  // ----- port configs -----

  /** What a client asks of a config: an id of zero for a new one, and fields it may leave out. */
  datatype Request = Request(
    id: int, port: int, format: Option<int>, mask: Option<int>, rate: Option<int>, flags: Option<int>, ext: Ext)

  function FindProfile(profiles: seq<Profile>, format: int): (r: Option<Profile>)
    ensures r.Some? ==> r.value in profiles && r.value.format == format
  {
    if profiles == [] then None
    else if profiles[0].format == format then Some(profiles[0])
    else FindProfile(profiles[1..], format)
  }

  /** The config a port starts with: its first concrete profile, or for a device none in particular. */
  function DefaultConfig(p: Port): Option<Config> {
    DefaultFrom(p, p.profiles)
  }

  function DefaultFrom(p: Port, profiles: seq<Profile>): Option<Config> {
    if profiles == [] then if p.ext.External? then Some(Config(0, p.id, 0, 0, 0, p.flags, p.ext)) else None
    else if DynamicProfile(profiles[0]) then DefaultFrom(p, profiles[1..])
    else Some(Config(0, p.id, profiles[0].format, profiles[0].masks[0], profiles[0].rates[0], p.flags, p.ext))
  }

  /** A device with dynamic profiles configures itself. */
  predicate SelfConfiguring(p: Port) {
    p.ext.External? && DynamicOnly(p.profiles)
  }

  function Chosen(p: Port, c: Config, r: Request): int {
    if r.format.Some? && Supported(p, r.format.value) then r.format.value
    else c.format
  }

  function ProfileFor(p: Port, format: int): Profile {
    var found := FindProfile(p.profiles, format);
    if (format == 0 && SelfConfiguring(p)) || found.None? then Profile(0, [], []) else found.value
  }

  predicate Offered(p: Port, offers: seq<int>, wanted: int) {
    (wanted == 0 && SelfConfiguring(p)) || wanted in offers
  }

  predicate Requestable(p: Port, c: Config, r: Request) {
    var profile := ProfileFor(p, Chosen(p, c, r));
    && (r.flags.Some? ==> r.flags.value == p.flags)
    && (r.format.Some? ==> r.format.value == Chosen(p, c, r))
    && (r.mask.Some? ==> Offered(p, profile.masks, r.mask.value))
    && (r.rate.Some? ==> Offered(p, profile.rates, r.rate.value))
    && (r.ext.Unspecified? || (r.ext.Mix? && c.ext.Mix?) || (r.ext.External? && c.ext.External?))
  }

  predicate FullySpecified(r: Request) {
    r.flags.Some? && r.format.Some? && r.mask.Some? && r.rate.Some?
  }

  /** The config with all that can be granted. */
  function Suggested(p: Port, c: Config, r: Request): (c': Config)
    ensures c'.id == c.id && c'.port == c.port
  {
    var profile := ProfileFor(p, Chosen(p, c, r));
    c.(format := Chosen(p, c, r),
       mask := if r.mask.Some? && Offered(p, profile.masks, r.mask.value) then r.mask.value else c.mask,
       rate := if r.rate.Some? && Offered(p, profile.rates, r.rate.value) then r.rate.value else c.rate,
       ext := if r.ext.Mix? && c.ext.Mix? then c.ext.(handle := r.ext.handle, usecase := r.ext.usecase) else c.ext)
  }

  /** The port can be configured: it is not the template of external devices. */
  predicate Configurable(w: Wiring, port: int) {
    var i := Find(PortIds(w.ports), port);
    port != 0 && i >= 0 && (w.ports[i].ext.External? && w.ports[i].ext.device.connection != "" ==> port in w.connected)
  }

  predicate Supported(p: Port, format: int) {
    (format == 0 && SelfConfiguring(p)) || FindProfile(p.profiles, format).Some?
  }

  function SetConfig(g: Graph, r: Request): (Graph, Outcome, bool) {
    var k := Find(ConfigIds(g.configs), r.id);
    if r.id != 0 && k < 0 then (g, Invalid, false)
    else
      var port := if r.id != 0 then g.configs[k].port else r.port;
      if !Configurable(g.wiring, port) then (g, Invalid, false)
      else
        var p := g.wiring.ports[Find(PortIds(g.wiring.ports), port)];
        var start := if r.id != 0 then Some(g.configs[k]) else DefaultConfig(p);
        if start.None? || !Supported(p, Chosen(p, start.value, r)) then (g, Invalid, false)
        else
          var c := Suggested(p, start.value, r);
          if r.id == 0 && Requestable(p, start.value, r) && FullySpecified(r) then
            var id := g.wiring.nextPortId;
            (g.(configs := g.configs + [c.(id := id)], wiring := g.wiring.(nextPortId := id + 1)), Done, true)
          else if r.id != 0 && Requestable(p, start.value, r) then (g.(configs := g.configs[k := c]), Done, true)
          else (g, Done, false)
  }

  function ResetConfig(g: Graph, id: int): (Graph, Outcome) {
    var k := Find(ConfigIds(g.configs), id);
    if k < 0 then (g, Invalid)
    else if id in g.streams.open || Uses(g.index, id) then (g, Conflict)
    else
      var i := Find(ConfigIds(g.initials), id);
      (g.(configs := if i < 0 then Without(g.configs, k) else g.configs[k := g.initials[i]]), Done)
  }

  // ----- streams -----

  function OpenOn(s: Streams, port: int): nat {
    |set id | id in s.open && s.open[id].port == port|
  }

  function NewStreamPort(g: Graph, config: int): Outcome {
    var k := Find(ConfigIds(g.configs), config);
    if k < 0 then Invalid
    else if g.configs[k].port == config then Undefined
    else
      var i := Find(PortIds(g.wiring.ports), g.configs[k].port);
      if i < 0 then Invalid
      else if config in g.streams.open then Conflict
      else if !g.wiring.ports[i].ext.Mix? then Invalid
      else
        var most := g.wiring.ports[i].ext.maxOpen;
        if most != 0 && OpenOn(g.streams, g.wiring.ports[i].id) >= most then Conflict else Done
  }

  /** The configs at the other end of a patch, seen from one of its configs. */
  function Opposite(p: Patch, config: int): set<int> {
    if config in p.sources then Elements(p.sinks) else Elements(p.sources)
  }

  /** The patch an index entry names, which the code takes for granted. */
  function Named(g: Graph, patch: int): Patch {
    var k := Find(PatchIds(g.patches), patch);
    if k < 0 then NO_PATCH else g.patches[k]
  }

  function ConnectedConfigs(g: Graph, config: int): set<int> {
    set pair, x | pair in g.index && pair.0 == config && x in Opposite(Named(g, pair.1), config) :: x
  }

  /** Opens a stream, connected from the start if its config is in a patch; `takes` is the stream's answer. */
  function OpenStream(g: Graph, config: int, takes: bool): (Graph, Outcome) {
    var r := NewStreamPort(g, config);
    if r != Done then (g, r)
    else if Uses(g.index, config) && !takes then (g, Refused)
    else
      var stream := Stream(PortOf(g.configs, config), ConnectedConfigs(g, config));
      (g.(streams := g.streams.(open := g.streams.open[config := stream])), Done)
  }

  function CloseStream(g: Graph, config: int): Graph {
    g.(streams := g.streams.(open := g.streams.open - {config}))
  }
}
