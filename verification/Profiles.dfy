/**
A2B profiles: the register programs that bring the audio bus up, mute and unmute it, shut it down and
check its health. A profile arrives as JSON; what the executor reads of an accepted one is gathered in
the datatype Profile.
*/
module Profiles {
  import opened JsonTrees

  const MAX_NODES := 10
  const MAX_OPS := 2048
  const MAX_WAIT := 10000

  // ----- profiles -----

  datatype Phase = Init | Mute | Unmute | Shutdown | Health

  datatype Identity = Identity(vendor: int, product: int)

  datatype Peripheral = Peripheral(node: int, address: int)

  datatype Kind = Write | Update | Verify | Poll

  datatype Op =
    | Delay(ms: int)
    | Access(kind: Kind, target: string, reg: int, value: int, mask: int, timeout: int)

  datatype Profile = Profile(
    id: string, bus: int, main: int, nodes: seq<Identity>, peripherals: map<string, Peripheral>,
    startMuted: bool, init: seq<Op>, mute: seq<Op>, unmute: seq<Op>, shutdown: seq<Op>, health: seq<Op>)

  function Ops(p: Profile, phase: Phase): seq<Op> {
    match phase
    case Init => p.init
    case Mute => p.mute
    case Unmute => p.unmute
    case Shutdown => p.shutdown
    case Health => p.health
  }

  // ----- names -----

  function NodeName(i: nat): string
    requires i < MAX_NODES
  {
    "node" + ["0123456789"[i]]
  }

  /** The position of the node called `target`, or -1. */
  function NodeIndex(nodes: nat, target: string): (r: int)
    requires nodes <= MAX_NODES
    ensures -1 <= r < nodes
    ensures r >= 0 ==> target == NodeName(r)
    ensures r == -1 ==> forall i | 0 <= i < nodes :: target != NodeName(i)
  {
    if nodes == 0 then -1
    else if target == NodeName(nodes - 1) then nodes - 1
    else NodeIndex(nodes - 1, target)
  }

  predicate IdChar(c: char) {
    'a' <= c <= 'z' || '0' <= c <= '9' || c == '_' || c == '-'
  }

  predicate ValidId(id: string) {
    0 < |id| <= 64 && forall i | 0 <= i < |id| :: IdChar(id[i])
  }

  predicate StartsWith(s: string, prefix: string) {
    |prefix| <= |s| && s[..|prefix|] == prefix
  }

  predicate FreeName(name: string) {
    ValidId(name) && name != "main" && !StartsWith(name, "node")
  }

  lemma NodeNamesAreNotFree(i: nat)
    requires i < MAX_NODES
    ensures !FreeName(NodeName(i)) && NodeName(i) != "main"
  {
    assert NodeName(i)[..4] == "node";
    assert |NodeName(i)| == 5;
  }

  // ----- bits -----

  /** The low byte of an integer, as the bus carries it. */
  function Byte(i: int): bv8 {
    (i % 256) as bv8
  }

  predicate FitsMask(value: int, mask: int) {
    Byte(value) & !Byte(mask) == 0
  }

  // ----- accepting a tree -----

  function PhaseName(phase: Phase): string {
    match phase
    case Init => "init"
    case Mute => "mute"
    case Unmute => "unmute"
    case Shutdown => "shutdown"
    case Health => "health"
  }

  const PHASES: seq<Phase> := [Init, Mute, Unmute, Shutdown, Health]

  predicate HeaderOk(d: Json) {
    && Fields(d, {"version", "id", "description", "i2c_bus", "main_address", "nodes",
                  "peripherals", "sample_rate", "channels", "start_muted", "sequences"})
    && Get(d, "version") == Int(1) && Get(d, "id").String? && ValidId(AsString(Get(d, "id")))
    && Get(d, "description").String? && Number(Get(d, "i2c_bus"), 0, 255)
    && Number(Get(d, "main_address"), 0x68, 0x6a) && AsInt(Get(d, "main_address")) % 2 == 0
    && Get(d, "sample_rate") == Int(48000) && Get(d, "channels") == Int(2) && Get(d, "start_muted").Bool?
  }

  predicate NodesCount(d: Json) {
    Get(d, "nodes").Array? && 1 <= Size(Get(d, "nodes")) <= MAX_NODES
  }

  predicate NodeOk(n: Json) {
    Fields(n, {"vendor", "product"}) && Number(Get(n, "vendor"), 0, 255) && Number(Get(n, "product"), 0, 255)
  }

  predicate NodesOk(d: Json) {
    NodesCount(d) && forall i | 0 <= i < Size(Get(d, "nodes")) :: NodeOk(Get(d, "nodes").items[i])
  }

  predicate PeripheralOk(nodes: nat, name: string, v: Json) {
    && FreeName(name) && Fields(v, {"node", "address"})
    && Number(Get(v, "node"), 0, nodes - 1) && Number(Get(v, "address"), 8, 119)
  }

  predicate PeripheralsOk(nodes: nat, ps: Json) {
    ps.Object? && forall name | name in ps.members :: PeripheralOk(nodes, name, ps.members[name])
  }

  function Called(o: Json): string {
    AsString(Get(o, "op"))
  }

  predicate DelayOk(phase: Phase, o: Json) {
    Fields(o, {"op", "ms", "note"}) && Number(Get(o, "ms"), 1, 500) && phase != Health
  }

  predicate IsKind(op: string) {
    op == "write" || op == "update" || op == "verify" || op == "poll"
  }

  /** The integer comparison behind the routing guard: a real number never equals an integer. */
  predicate Claims(nodes: nat, o: Json)
    requires nodes <= MAX_NODES
  {
    var target := AsString(Get(o, "target"));
    || (target == "main" && Get(o, "reg") == Int(1))
    || (NodeIndex(nodes, target) >= 0 && Get(o, "reg") == Int(0))
  }

  predicate AccessOk(nodes: nat, peripherals: Json, phase: Phase, o: Json)
    requires nodes <= MAX_NODES
  {
    var (op, target) := (Called(o), AsString(Get(o, "target")));
    && Fields(o, {"op", "target", "reg", "value", "mask", "timeout_ms", "note"})
    && Get(o, "target").String? && Number(Get(o, "reg"), 0, 255)
    && (target == "main" || NodeIndex(nodes, target) >= 0 || Has(peripherals, target))
    && IsKind(op)
    && (phase == Health ==> op == "verify")
    && Number(Get(o, "value"), 0, 255)
    && (op != "write" ==> Number(Get(o, "mask"), 1, 255) && FitsMask(AsInt(Get(o, "value")), AsInt(Get(o, "mask"))))
    && (op == "write" ==> !Has(o, "mask")) && (op != "poll" ==> !Has(o, "timeout_ms"))
    && (op == "write" || op == "update" ==> !Claims(nodes, o))
    && (op == "poll" ==> Number(Get(o, "timeout_ms"), 1, 1000))
  }

  predicate OpOk(nodes: nat, peripherals: Json, phase: Phase, o: Json)
    requires nodes <= MAX_NODES
  {
    && o.Object? && Get(o, "op").String?
    && (if Called(o) == "delay" then DelayOk(phase, o) else AccessOk(nodes, peripherals, phase, o))
    && (Has(o, "note") ==> Get(o, "note").String?)
  }

  /** The time an operation may wait. */
  function Wait(o: Json): (w: int)
  {
    if Called(o) == "delay" then AsInt(Get(o, "ms"))
    else if Called(o) == "poll" then AsInt(Get(o, "timeout_ms"))
    else 0
  }

  function Waits(items: seq<Json>): int {
    if items == [] then 0 else Waits(items[..|items| - 1]) + Wait(items[|items| - 1])
  }

  predicate SequenceOk(nodes: nat, peripherals: Json, phase: Phase, ops: Json)
    requires nodes <= MAX_NODES
  {
    && ops.Array? && ops.items != []
    && (forall i {:trigger OpOk(nodes, peripherals, phase, ops.items[i])} | 0 <= i < |ops.items| ::
          OpOk(nodes, peripherals, phase, ops.items[i]))
    && Waits(ops.items) <= MAX_WAIT
  }

  function Sequence(d: Json, phase: Phase): Json {
    Get(Get(d, "sequences"), PhaseName(phase))
  }

  function OpCount(d: Json, phases: nat): nat
    requires phases <= 5
  {
    if phases == 0 then 0 else OpCount(d, phases - 1) + Size(Sequence(d, PHASES[phases - 1]))
  }

  /** What it takes for a tree to be a profile. */
  predicate Accepts(d: Json) {
    && HeaderOk(d) && NodesOk(d)
    && PeripheralsOk(Size(Get(d, "nodes")), Get(d, "peripherals"))
    && Fields(Get(d, "sequences"), {"init", "mute", "unmute", "shutdown", "health"})
    && (forall k | 0 <= k < 5 ::
        SequenceOk(Size(Get(d, "nodes")), Get(d, "peripherals"), PHASES[k], Sequence(d, PHASES[k])))
    && OpCount(d, 5) <= MAX_OPS
  }

  // ----- reading an accepted tree -----

  function KindOf(op: string): Kind {
    if op == "write" then Write else if op == "update" then Update else if op == "poll" then Poll else Verify
  }

  function OpOf(o: Json): Op {
    if Called(o) == "delay" then Delay(AsInt(Get(o, "ms")))
    else
      Access(KindOf(Called(o)), AsString(Get(o, "target")), AsInt(Get(o, "reg")), AsInt(Get(o, "value")),
             AsInt(Get(o, "mask")), AsInt(Get(o, "timeout_ms")))
  }

  function OpsOf(ops: Json): (r: seq<Op>)
    ensures |r| == if ops.Array? then |ops.items| else 0
    ensures forall i | 0 <= i < |r| :: r[i] == OpOf(ops.items[i])
  {
    if ops.Array? then seq(|ops.items|, i requires 0 <= i < |ops.items| => OpOf(ops.items[i])) else []
  }

  function IdentityOf(n: Json): Identity {
    Identity(AsInt(Get(n, "vendor")), AsInt(Get(n, "product")))
  }

  function PeripheralOf(v: Json): Peripheral {
    Peripheral(AsInt(Get(v, "node")), AsInt(Get(v, "address")))
  }

  function NodesOf(nodes: Json): (r: seq<Identity>)
    ensures |r| == if nodes.Array? then |nodes.items| else 0
    ensures forall i | 0 <= i < |r| :: r[i] == IdentityOf(nodes.items[i])
  {
    if nodes.Array? then seq(|nodes.items|, i requires 0 <= i < |nodes.items| => IdentityOf(nodes.items[i])) else []
  }

  function PeripheralsOf(ps: Json): map<string, Peripheral> {
    if ps.Object? then map name | name in ps.members :: PeripheralOf(ps.members[name]) else map[]
  }

  function ProfileOf(d: Json): Profile {
    Profile(AsString(Get(d, "id")), AsInt(Get(d, "i2c_bus")), AsInt(Get(d, "main_address")),
            NodesOf(Get(d, "nodes")), PeripheralsOf(Get(d, "peripherals")), Get(d, "start_muted") == Bool(true),
            OpsOf(Sequence(d, Init)), OpsOf(Sequence(d, Mute)), OpsOf(Sequence(d, Unmute)),
            OpsOf(Sequence(d, Shutdown)), OpsOf(Sequence(d, Health)))
  }

  // ----- what acceptance guarantees -----

  predicate IsByte(i: int) {
    0 <= i <= 255
  }

  predicate Known(p: Profile, target: string)
    requires |p.nodes| <= MAX_NODES
  {
    target == "main" || NodeIndex(|p.nodes|, target) >= 0 || target in p.peripherals
  }

  /** The operation writes a register that steers the bus: NODEADR of the main node or CHIP of a node. */
  predicate Meddles(p: Profile, o: Op)
    requires |p.nodes| <= MAX_NODES
  {
    && o.Access? && (o.kind == Write || o.kind == Update)
    && ((o.target == "main" && o.reg == 1) || (NodeIndex(|p.nodes|, o.target) >= 0 && o.reg == 0))
  }

  predicate ValidOp(p: Profile, phase: Phase, o: Op)
    requires |p.nodes| <= MAX_NODES
  {
    match o
    case Delay(ms) => 1 <= ms <= 500 && phase != Health
    case Access(kind, target, reg, value, mask, timeout) =>
      && Known(p, target) && IsByte(reg) && IsByte(value) && IsByte(mask)
      && (phase == Health ==> kind == Verify)
      && (kind != Write ==> FitsMask(value, mask))
      && (if kind == Poll then 1 <= timeout <= 1000 else timeout == 0)
  }

  /** The waiting an operation declares. */
  function Declared(o: Op): int {
    match o
    case Delay(ms) => ms
    case Access(_, _, _, _, _, timeout) => timeout
  }

  function DeclaredBy(ops: seq<Op>): int {
    if ops == [] then 0 else DeclaredBy(ops[..|ops| - 1]) + Declared(ops[|ops| - 1])
  }

  predicate ValidShape(p: Profile) {
    && (p.main == 0x68 || p.main == 0x6a)
    && 1 <= |p.nodes| <= MAX_NODES
    && (forall name | name in p.peripherals ::
         FreeName(name) && 0 <= p.peripherals[name].node < |p.nodes| && 8 <= p.peripherals[name].address <= 119)
  }

  predicate Valid(p: Profile) {
    && ValidShape(p) && ValidId(p.id)
    && (forall phase :: Ops(p, phase) != [] && DeclaredBy(Ops(p, phase)) <= MAX_WAIT)
    && (forall phase, i | 0 <= i < |Ops(p, phase)| :: ValidOp(p, phase, Ops(p, phase)[i]))
  }

  lemma OpIsValid(d: Json, p: Profile, phase: Phase, o: Json)
    requires |p.nodes| <= MAX_NODES
    requires OpOk(|p.nodes|, Get(d, "peripherals"), phase, o)
    requires Get(d, "peripherals").Object? && p.peripherals.Keys == Get(d, "peripherals").members.Keys
    ensures ValidOp(p, phase, OpOf(o)) && Declared(OpOf(o)) == Wait(o)
  {
  }

  lemma {:induction false} WaitsAreDeclared(items: seq<Json>, ops: seq<Op>)
    requires |ops| == |items| && forall i | 0 <= i < |ops| ::
        ops[i] == OpOf(items[i]) && Declared(ops[i]) == Wait(items[i])
    ensures DeclaredBy(ops) == Waits(items)
  {
    if items != [] {
      WaitsAreDeclared(items[..|items| - 1], ops[..|ops| - 1]);
    }
  }

  lemma SequenceIsValid(d: Json, p: Profile, phase: Phase)
    requires |p.nodes| <= MAX_NODES
    requires Get(d, "peripherals").Object? && p.peripherals.Keys == Get(d, "peripherals").members.Keys
    requires SequenceOk(|p.nodes|, Get(d, "peripherals"), phase, Sequence(d, phase))
    ensures var ops := OpsOf(Sequence(d, phase));
            && ops != [] && DeclaredBy(ops) <= MAX_WAIT
            && forall i | 0 <= i < |ops| :: ValidOp(p, phase, ops[i])
  {
    var items := Sequence(d, phase).items;
    var ops := OpsOf(Sequence(d, phase));
    forall i | 0 <= i < |ops|
      ensures ValidOp(p, phase, ops[i]) && Declared(ops[i]) == Wait(items[i])
    {
      OpIsValid(d, p, phase, items[i]);
    }
    WaitsAreDeclared(items, ops);
  }

  lemma ShapeIsValid(d: Json)
    requires Accepts(d)
    ensures ValidShape(ProfileOf(d)) && ValidId(ProfileOf(d).id)
  {
    var ps := Get(d, "peripherals");
    assert forall name | name in ps.members :: PeripheralOk(Size(Get(d, "nodes")), name, ps.members[name]);
  }

  function Place(phase: Phase): (k: nat)
    ensures k < 5 && PHASES[k] == phase
  {
    match phase
    case Init => 0
    case Mute => 1
    case Unmute => 2
    case Shutdown => 3
    case Health => 4
  }

  lemma OpsOfPhase(d: Json, phase: Phase)
    ensures Ops(ProfileOf(d), phase) == OpsOf(Sequence(d, phase))
  {
  }

  /** Everything the executor relies on holds of an accepted profile. */
  lemma AcceptedIsValid(d: Json)
    requires Accepts(d)
    ensures Valid(ProfileOf(d))
  {
    var p := ProfileOf(d);
    ShapeIsValid(d);
    forall phase
      ensures Ops(p, phase) != [] && DeclaredBy(Ops(p, phase)) <= MAX_WAIT
      ensures forall i | 0 <= i < |Ops(p, phase)| :: ValidOp(p, phase, Ops(p, phase)[i])
    {
      OpsOfPhase(d, phase);
      assert SequenceOk(|p.nodes|, Get(d, "peripherals"), PHASES[Place(phase)], Sequence(d, phase));
      SequenceIsValid(d, p, phase);
    }
  }

  /** The register is spelled as a real number. */
  predicate RealRegister(o: Json) {
    Get(o, "reg").Real?
  }

  /**
  The routing guard does its work exactly for registers that are not spelled as real numbers: an accepted
  operation writes a routing register if and only if it spells that register so.
  */
  lemma GuardMissesRealRegisters(d: Json, phase: Phase, o: Json)
    requires Accepts(d) && OpOk(Size(Get(d, "nodes")), Get(d, "peripherals"), phase, o)
    ensures var p := ProfileOf(d);
            Meddles(p, OpOf(o)) <==>
              && RealRegister(o) && (Called(o) == "write" || Called(o) == "update")
              && ((OpOf(o).target == "main" && OpOf(o).reg == 1) ||
                  (NodeIndex(|p.nodes|, OpOf(o).target) >= 0 && OpOf(o).reg == 0))
  {
  }
}
