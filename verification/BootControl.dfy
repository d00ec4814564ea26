/**
The boot control block: a packed 32-byte record in the misc device, sealed with a CRC-32, and the slot
operations on it. Properties of the device, such as the slot the system was booted from, are parameters;
opening, reading and writing the device and the boot files may each fail.
*/
module BootControls {
  import opened Crc32

  const MAGIC: bv32 := 0x4241_4342
  const VERSION: bv8 := 1
  const SLOT_COUNT: bv8 := 2
  const DEFAULT_TRIES: bv8 := 7

  // ----- one slot -----

  datatype Slot = Slot(flags: bv8, reserved: bv8)

  function Priority(s: Slot): bv8 {
    s.flags & 0x0f
  }

  function Tries(s: Slot): bv8 {
    (s.flags >> 4) & 0x07
  }

  predicate Successful(s: Slot) {
    s.flags & 0x80 != 0
  }

  predicate Bootable(s: Slot) {
    Priority(s) != 0 && (Tries(s) != 0 || Successful(s))
  }

  function WithState(s: Slot, priority: bv8, tries: bv8, successful: bool): Slot {
    s.(flags := (priority & 0x0f) | ((tries & 0x07) << 4) | (if successful then 0x80 else 0))
  }

  /** Packing a state into the flags and unpacking it gives the state back, as far as its fields are wide. */
  lemma FlagsUnpack(s: Slot, priority: bv8, tries: bv8, successful: bool)
    ensures var s' := WithState(s, priority, tries, successful);
            Priority(s') == priority & 0x0f && Tries(s') == tries & 0x07 && Successful(s') == successful
  {
  }

  /** The flags hold nothing but the state: packing what was unpacked gives the flags back. */
  lemma FlagsPack(s: Slot)
    ensures WithState(s, Priority(s), Tries(s), Successful(s)) == s
  {
  }

  // ----- the record -----

  datatype Control = Control(
    suffix: seq<bv8>, magic: bv32, version: bv8, slotCount: bv8, reserved0: bv8,
    slots: seq<Slot>, reserved1: seq<bv8>, crc: bv32) {

    ghost predicate Shaped() {
      |suffix| == 4 && |slots| == 4 && |reserved1| == 9
    }
  }

  /** A word as it lies in memory, least significant byte first. */
  function Bytes(w: bv32): (d: seq<bv8>)
    ensures |d| == 4
  {
    [(w & 0xff) as bv8, ((w >> 8) & 0xff) as bv8, ((w >> 16) & 0xff) as bv8, (w >> 24) as bv8]
  }

  lemma WordOfBytes(w: bv32)
    ensures Word(Bytes(w)) == w
  {
  }

  lemma BytesOfWord(d: seq<bv8>)
    requires |d| == 4
    ensures Bytes(Word(d)) == d
  {
    WordOfBytes(Word(d));
    WordsInjective(Bytes(Word(d)), d);
  }

  function SlotBytes(slots: seq<Slot>): (d: seq<bv8>)
    requires |slots| == 4
    ensures |d| == 8
  {
    [slots[0].flags, slots[0].reserved, slots[1].flags, slots[1].reserved,
     slots[2].flags, slots[2].reserved, slots[3].flags, slots[3].reserved]
  }

  /** The bytes the checksum covers. */
  function Covered(c: Control): (d: seq<bv8>)
    requires c.Shaped()
    ensures |d| == 28
  {
    c.suffix + Bytes(c.magic) + [c.version, c.slotCount, c.reserved0] + SlotBytes(c.slots) + c.reserved1
  }

  /** The 32 bytes of the record. */
  function Pack(c: Control): (d: seq<bv8>)
    requires c.Shaped()
    ensures |d| == 32
  {
    Covered(c) + Bytes(c.crc)
  }

  function Unpack(d: seq<bv8>): (c: Control)
    requires |d| == 32
    ensures c.Shaped()
  {
    Control(d[..4], Word(d[4..8]), d[8], d[9], d[10],
            [Slot(d[11], d[12]), Slot(d[13], d[14]), Slot(d[15], d[16]), Slot(d[17], d[18])],
            d[19..28], Word(d[28..]))
  }

  lemma UnpackPack(c: Control)
    requires c.Shaped()
    ensures Unpack(Pack(c)) == c
  {
    var d := Pack(c);
    WordOfBytes(c.magic);
    WordOfBytes(c.crc);
    assert d[4..8] == Bytes(c.magic) && d[28..] == Bytes(c.crc);
    assert d[..4] == c.suffix && d[19..28] == c.reserved1;
    assert Unpack(d).slots == c.slots;
  }

  lemma PackUnpack(d: seq<bv8>)
    requires |d| == 32
    ensures Pack(Unpack(d)) == d && Covered(Unpack(d)) == d[..28]
  {
    BytesOfWord(d[4..8]);
    BytesOfWord(d[28..]);
    var c := Unpack(d);
    assert Covered(c) == d[..28];
    assert d == d[..28] + d[28..];
  }

  // ----- sealing and accepting -----

  function Seal(c: Control): (c': Control)
    requires c.Shaped()
    ensures c'.Shaped() && Covered(c') == Covered(c)
  {
    c.(crc := Crc(Covered(c)))
  }

  function Suffix(slot: nat): (d: seq<bv8>)
    ensures |d| == 3
  {
    if slot == 0 then [0x5f, 0x61, 0] else [0x5f, 0x62, 0]
  }

  /** What `strcmp` sees of the suffix field. */
  predicate HasSuffix(c: Control, slot: nat) {
    |c.suffix| >= 3 && c.suffix[..3] == Suffix(slot)
  }

  function ActiveSlot(c: Control): nat {
    if HasSuffix(c, 1) then 1 else 0
  }

  /** Everything about a record but its seal. */
  predicate Plausible(c: Control) {
    && c.magic == MAGIC && c.version == VERSION && c.slotCount == SLOT_COUNT
    && (HasSuffix(c, 0) || HasSuffix(c, 1))
  }

  predicate Acceptable(c: Control)
    requires c.Shaped()
  {
    Plausible(c) && c.crc == Crc(Covered(c))
  }

  /** A restart accepts the record. */
  predicate Accepts(record: seq<bv8>)
    requires |record| == 32
  {
    Acceptable(Unpack(record))
  }

  /**
  Corruption of an acceptable record, wherever in its 32 bytes, makes it unacceptable if it is confined
  to four consecutive bytes: the checksum field itself is protected like the bytes it covers.
  */
  lemma CorruptionIsRejected(record: seq<bv8>, corrupted: seq<bv8>, k: nat)
    requires |record| == 32 && Accepts(record)
    requires DifferInBurst(record, corrupted, k)
    ensures !Accepts(corrupted)
  {
    BurstChangesRegister(0xffff_ffff, record, corrupted, k);
    SealedOnce(record);
    SealedOnce(corrupted);
  }

  lemma SealedOnce(record: seq<bv8>)
    requires |record| == 32
    ensures Unpack(record).crc == Crc(Covered(Unpack(record)))
       <==> Crc32Kind().Register(0xffff_ffff, record) == Crc32Kind().Shifts(0xffff_ffff, 32)
  {
    PackUnpack(record);
    SealedIffResidue(record[..28], record[28..]);
    assert record[..28] + record[28..] == record;
  }

  // ----- operations -----

  /** What the device does with a write: whether it opens, and how many bytes it takes. */
  datatype WriteIo = WriteIo(isOpen: bool, wrote: nat)

  datatype Op =
    | MarkSuccessful(current: nat, io: WriteIo, synced: bool)
    | SetActive(slot: int, current: nat, io: WriteIo, synced: bool)
    | SetUnbootable(slot: int, io: WriteIo)

  datatype Status = Done | InvalidSlot | CommandFailed

  predicate ValidSlot(slot: int) {
    0 <= slot < 2
  }

  ghost predicate ValidOp(op: Op) {
    op.io.wrote <= 32 && (op.SetUnbootable? || op.current < 2)
  }

  /** The device record after an attempt to write `c`: possibly torn. */
  function Written(record: seq<bv8>, c: Control, io: WriteIo): (d: seq<bv8>)
    requires |record| == 32 && c.Shaped() && io.wrote <= 32
    ensures |d| == 32
  {
    if io.isOpen then Pack(c)[..io.wrote] + record[io.wrote..] else record
  }

  predicate SaveOk(io: WriteIo) {
    io.isOpen && io.wrote == 32
  }

  function Activated(c: Control, slot: nat): (c': Control)
    requires c.Shaped()
    ensures c'.Shaped()
  {
    c.(suffix := Suffix(slot) + c.suffix[3..])
  }

  function WithSlot(c: Control, slot: nat, priority: bv8, tries: bv8, successful: bool): (c': Control)
    requires c.Shaped() && slot < 2
    ensures c'.Shaped()
  {
    c.(slots := c.slots[slot := WithState(c.slots[slot], priority, tries, successful)])
  }

  predicate Rejected(op: Op) {
    !op.MarkSuccessful? && !ValidSlot(op.slot)
  }

  /** What an operation makes of the record it keeps in memory. */
  function Changed(c: Control, op: Op): (c': Control)
    requires c.Shaped() && ValidOp(op) && !Rejected(op)
    ensures c'.Shaped()
  {
    match op
    case MarkSuccessful(current, _, _) => Activated(WithSlot(c, current, 15, DEFAULT_TRIES, true), current)
    case SetActive(slot, _, _, _) => Activated(WithSlot(c, slot, 15, DEFAULT_TRIES, false), slot)
    case SetUnbootable(slot, _) => WithSlot(c, slot, 0, 0, false)
  }

  /** The record in memory, the record in the device, and whether the last save succeeded. */
  datatype Boot = Boot(control: Control, record: seq<bv8>, saved: bool)

  function Step(b: Boot, op: Op): (Boot, Status)
    requires b.control.Shaped() && |b.record| == 32 && ValidOp(op)
  {
    if Rejected(op) then (b, InvalidSlot)
    else
      var c := Seal(Changed(b.control, op));
      (Boot(c, Written(b.record, c, op.io), SaveOk(op.io)),
       if SaveOk(op.io) && (op.SetUnbootable? || op.synced) then Done else CommandFailed)
  }

  /** A new service: the record of the device if it is acceptable, else a default one that is saved. */
  function Restart(record: seq<bv8>, readOk: bool, current: nat, io: WriteIo): Boot
    requires |record| == 32 && current < 2 && io.wrote <= 32
  {
    if readOk && Accepts(record) then Boot(Unpack(record), record, true)
    else
      var c := Seal(Default(current));
      Boot(c, Written(record, c, io), SaveOk(io))
  }

  function Default(current: nat): (c: Control)
    ensures c.Shaped()
  {
    var empty := Slot(0, 0);
    Control(Suffix(current) + [0], MAGIC, VERSION, SLOT_COUNT, 0,
            [WithState(empty, 7, DEFAULT_TRIES, current == 0), WithState(empty, 7, DEFAULT_TRIES, current == 1),
             empty, empty],
            [0, 0, 0, 0, 0, 0, 0, 0, 0], 0)
  }

  // ----- every run can be restarted -----

  /** The record in memory is plausible and sealed, and it is the one in the device if the last save succeeded. */
  ghost predicate Inv(b: Boot) {
    && b.control.Shaped() && |b.record| == 32
    && Acceptable(b.control)
    && (b.saved ==> b.record == Pack(b.control))
  }

  lemma SealKeepsPlausible(c: Control)
    requires c.Shaped() && Plausible(c)
    ensures Acceptable(Seal(c))
  {
  }

  lemma ChangeKeepsPlausible(c: Control, op: Op)
    requires c.Shaped() && Plausible(c) && ValidOp(op) && !Rejected(op)
    ensures Plausible(Changed(c, op))
  {
  }

  lemma StepKeepsInv(b: Boot, op: Op)
    requires Inv(b) && ValidOp(op)
    ensures Inv(Step(b, op).0)
  {
    if !Rejected(op) {
      var c := Changed(b.control, op);
      ChangeKeepsPlausible(b.control, op);
      SealKeepsPlausible(c);
      assert Pack(Seal(c))[..32] + b.record[32..] == Pack(Seal(c));
    }
  }

  lemma RestartEstablishesInv(record: seq<bv8>, readOk: bool, current: nat, io: WriteIo)
    requires |record| == 32 && current < 2 && io.wrote <= 32
    ensures Inv(Restart(record, readOk, current, io))
  {
    PackUnpack(record);
    var c := Default(current);
    assert c.suffix[..3] == Suffix(current);
    SealKeepsPlausible(c);
    assert Pack(Seal(c))[..32] + record[32..] == Pack(Seal(c));
  }

  function Run(b: Boot, ops: seq<Op>): Boot
    requires Inv(b) && forall i | 0 <= i < |ops| :: ValidOp(ops[i])
    ensures Inv(Run(b, ops))
    decreases |ops|
  {
    if ops == [] then b
    else
      StepKeepsInv(b, ops[0]);
      Run(Step(b, ops[0]).0, ops[1..])
  }

  /**
  Restart round trip: after any operations whose last save succeeded, a new service reads back the very
  record the old one had, so its active slot and what it says of every slot are unchanged.
  */
  lemma RestartRoundTrip(b: Boot, ops: seq<Op>, current: nat, io: WriteIo)
    requires Inv(b) && (forall i | 0 <= i < |ops| :: ValidOp(ops[i])) && current < 2 && io.wrote <= 32
    requires Run(b, ops).saved
    ensures Restart(Run(b, ops).record, true, current, io) == Run(b, ops)
  {
    UnpackPack(Run(b, ops).control);
  }

  // ----- a torn save -----

  /** The slot an operation is about. */
  function Target(op: Op): int {
    if op.MarkSuccessful? then op.current else op.slot
  }

  ghost predicate SameBut(d: seq<bv8>, d': seq<bv8>, k: int) {
    |d| == |d'| && forall i | 0 <= i < |d| && i != k :: d[i] == d'[i]
  }

  lemma ChangedSuffix(c: Control, op: Op)
    requires c.Shaped() && Plausible(c) && ValidOp(op) && !Rejected(op)
    ensures SameBut(c.suffix, Changed(c, op).suffix, 1)
  {
    assert c.suffix == c.suffix[..3] + c.suffix[3..];
  }

  lemma ChangedSlots(c: Control, op: Op)
    requires c.Shaped() && Plausible(c) && ValidOp(op) && !Rejected(op)
    ensures SameBut(SlotBytes(c.slots), SlotBytes(Changed(c, op).slots), 2 * Target(op))
  {
    var (slots, slots') := (c.slots, Changed(c, op).slots);
    assert forall i | 0 <= i < 4 && i != Target(op) :: slots'[i] == slots[i];
    assert slots'[Target(op)].reserved == slots[Target(op)].reserved;
  }

  /** Where an operation can change a record: the letter of the suffix and the flags of one slot. */
  lemma ChangedBytes(c: Control, op: Op)
    requires c.Shaped() && Plausible(c) && ValidOp(op) && !Rejected(op)
    ensures forall i | 0 <= i < 28 && i != 1 && i != 11 + 2 * Target(op) :: Covered(Changed(c, op))[i] == Covered(c)[i]
  {
    var c' := Changed(c, op);
    ChangedSuffix(c, op);
    ChangedSlots(c, op);
    var between := Bytes(c.magic) + [c.version, c.slotCount, c.reserved0];
    Spread(c.suffix, between, SlotBytes(c.slots), c.reserved1, c'.suffix, SlotBytes(c'.slots), 2 * Target(op));
    assert Covered(c) == c.suffix + between + SlotBytes(c.slots) + c.reserved1;
    assert Covered(c') == c'.suffix + between + SlotBytes(c'.slots) + c.reserved1;
  }

  lemma Spread(a: seq<bv8>, b: seq<bv8>, s: seq<bv8>, e: seq<bv8>, a': seq<bv8>, s': seq<bv8>, k: int)
    requires |a| == 4 && |b| == 7 && SameBut(a, a', 1) && SameBut(s, s', k)
    ensures var (d, d') := (a + b + s + e, a' + b + s' + e);
            forall i | 0 <= i < |d| && i != 1 && i != 11 + k :: d'[i] == d[i]
  {
  }

  lemma AlikeOrBurst(m: seq<bv8>, m': seq<bv8>, k: nat)
    requires |m| == |m'| && forall i | 0 <= i < |m| && !(k <= i < k + 4) :: m[i] == m'[i]
    ensures m == m' || DifferInBurst(m, m', k)
  {
  }

  lemma TornIsOldNewOrRejected(before: seq<bv8>, after: seq<bv8>, wrote: nat, k: nat)
    requires |before| == |after| == 32 && wrote <= 32 && k < 4
    requires Accepts(before) && Accepts(after)
    requires forall i | 0 <= i < 28 && i != 1 && i != 11 + k :: after[i] == before[i]
    ensures var torn := after[..wrote] + before[wrote..];
            torn == before || torn == after || !Accepts(torn)
  {
    var torn := after[..wrote] + before[wrote..];
    assert forall i | 0 <= i < 32 :: torn[i] == if i < wrote then after[i] else before[i];
    var (whole, at) := if wrote <= 11 + k then (before, 1) else (after, 28);
    AlikeOrBurst(whole, torn, at);
    if torn != whole {
      CorruptionIsRejected(whole, torn, at);
    }
  }

  lemma PackedBytes(c: Control)
    requires c.Shaped()
    ensures forall i | 0 <= i < 28 :: Pack(c)[i] == Covered(c)[i]
  {
  }

  lemma PackedAlike(c: Control, c': Control, k: int)
    requires c.Shaped() && c'.Shaped()
    requires forall i | 0 <= i < 28 && i != 1 && i != 11 + k :: Covered(c')[i] == Covered(c)[i]
    ensures forall i | 0 <= i < 28 && i != 1 && i != 11 + k :: Pack(Seal(c'))[i] == Pack(c)[i]
  {
    PackedBytes(c);
    PackedBytes(Seal(c'));
  }

  /**
  A save that stops after any number of bytes leaves the old record, the new one, or one that a restart
  rejects: no third record ever becomes acceptable.
  */
  lemma TornSaveIsOldNewOrRejected(b: Boot, op: Op)
    requires Inv(b) && b.saved && ValidOp(op) && !Rejected(op)
    ensures var (was, intended) := (b.record, Pack(Seal(Changed(b.control, op))));
            var torn := Step(b, op).0.record;
            torn == was || torn == intended || !Accepts(torn)
  {
    var c := Changed(b.control, op);
    var after := Pack(Seal(c));
    assert Accepts(b.record) && Accepts(after) by {
      ChangeKeepsPlausible(b.control, op);
      SealKeepsPlausible(c);
      UnpackPack(b.control);
      UnpackPack(Seal(c));
    }
    assert forall i | 0 <= i < 28 && i != 1 && i != 11 + 2 * Target(op) :: after[i] == b.record[i] by {
      ChangedBytes(b.control, op);
      PackedAlike(b.control, c, 2 * Target(op));
    }
    TornIsOldNewOrRejected(b.record, after, op.io.wrote, 2 * Target(op));
  }

  // ----- what the operations mean -----

  lemma MarkedSlotBoots(c: Control, op: Op)
    requires c.Shaped() && Plausible(c) && ValidOp(op) && !Rejected(op)
    ensures var (slot, c') := (Target(op), Changed(c, op));
            && Bootable(c'.slots[slot]) == !op.SetUnbootable?
            && Successful(c'.slots[slot]) == op.MarkSuccessful?
            && ActiveSlot(c') == (if op.SetUnbootable? then ActiveSlot(c) else slot)
            && (forall i | 0 <= i < 4 && i != slot :: c'.slots[i] == c.slots[i])
  {
    match op
    case MarkSuccessful(current, _, _) => FlagsUnpack(c.slots[current], 15, DEFAULT_TRIES, true);
    case SetActive(slot, _, _, _) => FlagsUnpack(c.slots[slot], 15, DEFAULT_TRIES, false);
    case SetUnbootable(slot, _) => FlagsUnpack(c.slots[slot], 0, 0, false);
  }

  // ----- the service object -----

  /** The misc device: 32 bytes at the offset of the control block. */
  class MiscDevice {
    var record: seq<bv8>

    constructor (record: seq<bv8>)
      ensures this.record == record
    {
      this.record := record;
    }

    /** `pwrite`: the first `wrote` bytes of `d` reach the device. */
    method Write(d: seq<bv8>, wrote: nat)
      requires |record| == |d| == 32 && wrote <= 32
      modifies this
      ensures record == d[..wrote] + old(record)[wrote..]
    {
      record := d[..wrote] + record[wrote..];
    }
  }

  class BootControl {
    const misc: MiscDevice
    var control: Control

    constructor (misc: MiscDevice, isOpen: bool, got: nat, current: nat, io: WriteIo)
      requires |misc.record| == 32 && current < 2 && io.wrote <= 32
      modifies misc
      ensures this.misc == misc && control.Shaped() && |misc.record| == 32
      ensures (control, misc.record) ==
          var b := Restart(old(misc.record), isOpen && got == 32, current, io); (b.control, b.record)
    {
      this.misc := misc;
      this.control := Default(current);
      new;
      var loaded := Load(isOpen, got);
      if !loaded {
        control := Default(current);
        var _ := Save(io);
      }
    }

    method Load(isOpen: bool, got: nat) returns (ok: bool)
      requires |misc.record| == 32
      modifies this
      ensures ok == (isOpen && got == 32 && Accepts(misc.record))
      ensures control == if ok then Unpack(misc.record) else old(control)
    {
      if !isOpen || got != 32 {
        return false;
      }
      var candidate := Unpack(misc.record);
      PackUnpack(misc.record);
      var expected := Compute(misc.record[..28]);
      if candidate.magic != MAGIC || candidate.version != VERSION || candidate.slotCount != SLOT_COUNT
        || candidate.crc != expected || (!HasSuffix(candidate, 0) && !HasSuffix(candidate, 1)) {
        return false;
      }
      control := candidate;
      return true;
    }

    method Save(io: WriteIo) returns (ok: bool)
      requires control.Shaped() && |misc.record| == 32 && io.wrote <= 32
      modifies this, misc
      ensures control == Seal(old(control)) && control.Shaped()
      ensures misc.record == Written(old(misc.record), control, io) && ok == SaveOk(io)
    {
      var crc := Compute(Covered(control));
      control := control.(crc := crc);
      if !io.isOpen {
        return false;
      }
      misc.Write(Pack(control), io.wrote);
      return io.wrote == 32;
    }

    method SetState(slot: nat, priority: bv8, tries: bv8, successful: bool)
      requires control.Shaped() && slot < 2
      modifies this
      ensures control == WithSlot(old(control), slot, priority, tries, successful)
    {
      var flags := (priority & 0x0f) | ((tries & 0x07) << 4) | (if successful then 0x80 else 0);
      control := control.(slots := control.slots[slot := control.slots[slot].(flags := flags)]);
    }

    method MarkBootSuccessful(current: nat, io: WriteIo, synced: bool) returns (status: Status)
      requires control.Shaped() && |misc.record| == 32 && current < 2 && io.wrote <= 32
      modifies this, misc
      ensures control.Shaped() && |misc.record| == 32
      ensures forall saved :: (Boot(control, misc.record, SaveOk(io)), status)
                           == Step(Boot(old(control), old(misc.record), saved), MarkSuccessful(current, io, synced))
    {
      SetState(current, 15, DEFAULT_TRIES, true);
      control := control.(suffix := Suffix(current) + control.suffix[3..]);
      var ok := Save(io);
      status := if !ok || !synced then CommandFailed else Done;
    }

    method SetActiveBootSlot(slot: int, current: nat, io: WriteIo, synced: bool) returns (status: Status)
      requires control.Shaped() && |misc.record| == 32 && current < 2 && io.wrote <= 32
      modifies this, misc
      ensures control.Shaped() && |misc.record| == 32
      ensures forall saved :: Step(Boot(old(control), old(misc.record), saved), SetActive(slot, current, io, synced))
                           == (Boot(control, misc.record, if ValidSlot(slot) then SaveOk(io) else saved), status)
    {
      if !ValidSlot(slot) {
        return InvalidSlot;
      }
      SetState(slot, 15, DEFAULT_TRIES, false);
      control := control.(suffix := Suffix(slot) + control.suffix[3..]);
      var ok := Save(io);
      status := if !ok || !synced then CommandFailed else Done;
    }

    method SetSlotAsUnbootable(slot: int, io: WriteIo) returns (status: Status)
      requires control.Shaped() && |misc.record| == 32 && io.wrote <= 32
      modifies this, misc
      ensures control.Shaped() && |misc.record| == 32
      ensures forall saved :: Step(Boot(old(control), old(misc.record), saved), SetUnbootable(slot, io))
                           == (Boot(control, misc.record, if ValidSlot(slot) then SaveOk(io) else saved), status)
    {
      if !ValidSlot(slot) {
        return InvalidSlot;
      }
      SetState(slot, 0, 0, false);
      var ok := Save(io);
      status := if ok then Done else CommandFailed;
    }
  }
}
