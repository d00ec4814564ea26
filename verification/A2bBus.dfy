/**
The I2C line to an A2B main node. Its routing is hidden state: NODEADR in the main node selects a remote
node, the PERI bit in it redirects remote accesses to that node's peripheral port, and each node's CHIP
register says which peripheral answers there. Any transfer may be lost, or take effect without being
acknowledged; every transfer and every wait may take longer than asked.
*/
module A2bBus {
  const NODEADR := 1
  const CHIP := 0

  // ----- the line -----

  datatype Fate = Done | Lost | Unacknowledged

  /** What the hardware does at one step: the fate of a transfer, the byte a read gives, and the extra time. */
  datatype Response = Response(fate: Fate, value: bv8, elapsed: nat)

  datatype Cell =
    | Main(reg: int)
    | Node(node: int, reg: int)
    | Attached(node: int, address: int, reg: int)

  datatype Entry =
    | Wrote(cell: Cell, value: int, fate: Fate)
    | Got(cell: Cell, value: int)
    | Missed(cell: Cell)

  /** `nodeadr` and `chips` are the hidden routing state; `waited` is the sum of the requested delays. */
  datatype Bus = Bus(
    script: nat -> Response, nodeadr: int, chips: map<int, int>, now: int, waited: nat, step: nat, trace: seq<Entry>)

  predicate Peri(nodeadr: int) {
    (nodeadr / 32) % 2 == 1
  }

  function Selected(nodeadr: int): int {
    nodeadr % 16
  }

  function Chip(b: Bus, node: int): int {
    if node in b.chips then b.chips[node] else 0
  }

  /** The register an access reaches: the main node answers even addresses, the selected node odd ones. */
  function Resolve(b: Bus, address: int, reg: int): Cell {
    if address % 2 == 0 then Main(reg)
    else if Peri(b.nodeadr) then Attached(Selected(b.nodeadr), Chip(b, Selected(b.nodeadr)), reg)
    else Node(Selected(b.nodeadr), reg)
  }

  predicate Steers(cell: Cell) {
    match cell
    case Main(reg) => reg == NODEADR
    case Node(_, reg) => reg == CHIP
    case Attached(_, _, _) => false
  }

  function Land(b: Bus, cell: Cell, value: int): Bus {
    match cell
    case Main(reg) => if reg == NODEADR then b.(nodeadr := value) else b
    case Node(node, reg) => if reg == CHIP then b.(chips := b.chips[node := value]) else b
    case Attached(_, _, _) => b
  }

  function Send(b: Bus, address: int, reg: int, value: int): (Bus, bool) {
    var r := b.script(b.step);
    var cell := Resolve(b, address, reg);
    var landed := if r.fate.Lost? then b else Land(b, cell, value);
    (landed.(now := b.now + r.elapsed, step := b.step + 1, trace := b.trace + [Wrote(cell, value, r.fate)]),
     r.fate.Done?)
  }

  function Receive(b: Bus, address: int, reg: int): (Bus, bool, int) {
    var r := b.script(b.step);
    var cell := Resolve(b, address, reg);
    var entry := if r.fate.Done? then Got(cell, r.value as int) else Missed(cell);
    (b.(now := b.now + r.elapsed, step := b.step + 1, trace := b.trace + [entry]), r.fate.Done?, r.value as int)
  }

  function Sleep(b: Bus, ms: nat): Bus {
    var r := b.script(b.step);
    b.(now := b.now + ms + r.elapsed, waited := b.waited + ms, step := b.step + 1)
  }

  class Transport {
    var bus: Bus

    constructor (bus: Bus)
      ensures this.bus == bus
    {
      this.bus := bus;
    }

    method Write(address: int, reg: int, value: int) returns (ok: bool)
      modifies this
      ensures (bus, ok) == Send(old(bus), address, reg, value)
    {
      var r := bus.script(bus.step);
      var cell := Resolve(bus, address, reg);
      if !r.fate.Lost? {
        bus := Land(bus, cell, value);
      }
      bus := bus.(now := bus.now + r.elapsed, step := bus.step + 1, trace := bus.trace + [Wrote(cell, value, r.fate)]);
      return r.fate.Done?;
    }

    method Read(address: int, reg: int) returns (ok: bool, value: int)
      modifies this
      ensures (bus, ok, value) == Receive(old(bus), address, reg)
    {
      var r := bus.script(bus.step);
      var cell := Resolve(bus, address, reg);
      var entry := if r.fate.Done? then Got(cell, r.value as int) else Missed(cell);
      bus := bus.(now := bus.now + r.elapsed, step := bus.step + 1, trace := bus.trace + [entry]);
      return r.fate.Done?, r.value as int;
    }

    method Delay(ms: nat)
      modifies this
      ensures bus == Sleep(old(bus), ms)
    {
      var r := bus.script(bus.step);
      bus := bus.(now := bus.now + ms + r.elapsed, waited := bus.waited + ms, step := bus.step + 1);
    }
  }
}
