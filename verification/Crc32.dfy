/**
The bitwise CRC-32 of the boot control block (the reflected polynomial of section 8 of RFC 1952) as a
shift register. Its shift is linear, and loses nothing because the top bit of the polynomial is set;
so no corruption confined to four consecutive bytes goes unseen.
*/
module Crc32 {
  import opened ShiftRegisters

  function Xor(x: bv32, y: bv32): bv32 {
    x ^ y
  }

  function Half(v: bv32): bv32 {
    v >> 1
  }

  /** The polynomial is fed back when a one falls out. */
  function Feedback(v: bv32): bv32 {
    0xedb8_8320 & (0 - (v & 1))
  }

  predicate Even(v: bv32) {
    v & 1 == 0
  }

  function Widen(b: bv8): bv32 {
    b as bv32
  }

  function Crc32Kind(): Kind<bv32, bv8> {
    Kind(Xor, 0, Half, Feedback, Even, Widen)
  }

  function Crc(data: seq<bv8>): bv32 {
    Xor(Crc32Kind().Register(0xffff_ffff, data), 0xffff_ffff)
  }

  /** The checksum as it is computed, byte by byte and bit by bit. */
  method Compute(data: seq<bv8>) returns (crc: bv32)
    ensures crc == Crc(data)
  {
    var value: bv32 := 0xffff_ffff;
    for i := 0 to |data|
      invariant value == Crc32Kind().Register(0xffff_ffff, data[..i])
    {
      ghost var before := value;
      value := Xor(value, Widen(data[i]));
      for bit := 0 to 8
        invariant value == Crc32Kind().Shifts(Xor(before, Widen(data[i])), bit)
      {
        value := Xor(Half(value), Feedback(value));
      }
      Crc32Kind().RegisterAppend(0xffff_ffff, data[..i], data[i]);
      assert data[..i + 1] == data[..i] + [data[i]];
    }
    assert data[..|data|] == data;
    ComplementIsXor(value);
    return !value;
  }

  lemma ComplementIsXor(v: bv32)
    ensures !v == Xor(v, 0xffff_ffff)
  {
  }

  // ----- the laws hold for this register -----

  lemma XorLaws()
    ensures Crc32Kind().Associative() && Crc32Kind().Commutative() && Crc32Kind().SelfInverse()
  {
    forall x, y, z {:trigger Xor(Xor(x, y), z)}
      ensures Xor(Xor(x, y), z) == Xor(x, Xor(y, z))
    {
      XorAssociative(x, y, z);
    }
  }

  lemma XorAssociative(x: bv32, y: bv32, z: bv32)
    ensures Xor(Xor(x, y), z) == Xor(x, Xor(y, z))
  {
  }

  lemma HalfLinear(x: bv32, y: bv32)
    ensures Half(Xor(x, y)) == Xor(Half(x), Half(y))
  {
  }

  lemma FeedbackLinear(x: bv32, y: bv32)
    ensures Feedback(Xor(x, y)) == Xor(Feedback(x), Feedback(y))
  {
  }

  lemma ShiftInjective(x: bv32, y: bv32)
    requires Xor(Half(x), Feedback(x)) == Xor(Half(y), Feedback(y))
    ensures x == y
  {
  }

  lemma EvenShift(x: bv32)
    requires Even(x)
    ensures Xor(Half(x), Feedback(x)) == Half(x)
  {
  }

  lemma PartsAreLinear()
    ensures Crc32Kind().PartsLinear()
  {
    forall x, y
      ensures Half(Xor(x, y)) == Xor(Half(x), Half(y))
      ensures Feedback(Xor(x, y)) == Xor(Feedback(x), Feedback(y))
    {
      HalfLinear(x, y);
      FeedbackLinear(x, y);
    }
  }

  lemma ShiftIsLossless()
    ensures Crc32Kind().ShiftLossless()
  {
    forall x, y | Xor(Half(x), Feedback(x)) == Xor(Half(y), Feedback(y))
      ensures x == y
    {
      ShiftInjective(x, y);
    }
  }

  lemma EvenHasNoFeedback()
    ensures Crc32Kind().NoFeedbackIfEven()
  {
    forall x | Even(x)
      ensures Xor(Half(x), Feedback(x)) == Half(x)
    {
      EvenShift(x);
    }
  }

  // ----- a byte in a raised position -----

  lemma ClearByteIsEven(x: bv32)
    requires x & 0xff == 0
    ensures Crc32Kind().EvenByte(x)
  {
  }

  lemma HalvedIsDown(x: bv32)
    ensures Crc32Kind().Halved(x) == x >> 8
  {
  }

  /** A byte raised by `n` of its own widths comes down by one of them. */
  lemma RaisedByte(w: bv32)
    requires w <= 0xff
    ensures (w << 8) & 0xff == 0 && (w << 8) >> 8 == w
    ensures (w << 16) & 0xff == 0 && (w << 16) >> 8 == w << 8
    ensures (w << 24) & 0xff == 0 && (w << 24) >> 8 == w << 16
  {
  }

  lemma ByteDown(x: bv32)
    requires x & 0xff == 0
    ensures Crc32Kind().Shifts(x, 8) == x >> 8
  {
    EvenHasNoFeedback();
    ClearByteIsEven(x);
    Crc32Kind().ByteDown(x);
    HalvedIsDown(x);
  }

  function Raise(b: bv8, n: nat): bv32 {
    if n == 1 then Widen(b) << 8 else if n == 2 then Widen(b) << 16 else if n == 3 then Widen(b) << 24 else Widen(b)
  }

  lemma RaisedShift(b: bv8, n: nat)
    requires 1 <= n <= 3
    ensures Crc32Kind().Shifts(Raise(b, n), 8) == Raise(b, n - 1)
  {
    RaisedByte(Widen(b));
    ByteDown(Raise(b, n));
  }

  lemma {:induction false} RaisedShifts(b: bv8, n: nat)
    requires n <= 3
    ensures Crc32Kind().Shifts(Raise(b, n), 8 * n) == Widen(b)
  {
    if n > 0 {
      RaisedShift(b, n);
      RaisedShifts(b, n - 1);
      Crc32Kind().ShiftsAdd(Raise(b, n), 8, 8 * (n - 1));
    }
  }

  // ----- detection -----

  /** Four bytes as a little-endian word. */
  function Word(d: seq<bv8>): bv32
    requires |d| == 4
  {
    Crc32Kind().Sum4(Widen(d[0]), Raise(d[1], 1), Raise(d[2], 2), Raise(d[3], 3))
  }

  lemma WordInjective(a0: bv8, a1: bv8, a2: bv8, a3: bv8, b0: bv8, b1: bv8, b2: bv8, b3: bv8)
    requires Crc32Kind().Sum4(Widen(a0), Raise(a1, 1), Raise(a2, 2), Raise(a3, 3))
          == Crc32Kind().Sum4(Widen(b0), Raise(b1, 1), Raise(b2, 2), Raise(b3, 3))
    ensures a0 == b0 && a1 == b1 && a2 == b2 && a3 == b3
  {
  }

  lemma WordsInjective(a: seq<bv8>, b: seq<bv8>)
    requires |a| == |b| == 4 && Word(a) == Word(b)
    ensures a == b
  {
    WordInjective(a[0], a[1], a[2], a[3], b[0], b[1], b[2], b[3]);
  }

  lemma RegisterIsLinear()
    ensures Crc32Kind().Linear()
  {
    XorLaws();
    PartsAreLinear();
    Crc32Kind().ShiftIsLinear();
  }

  lemma FourBytesShift(v: bv32, d: seq<bv8>)
    requires |d| == 4
    ensures Crc32Kind().Register(v, d) == Crc32Kind().Shifts(Xor(v, Word(d)), 32)
  {
    var (r1, r2, r3) := (Raise(d[1], 1), Raise(d[2], 2), Raise(d[3], 3));
    Crc32Kind().FourBytes(v, d, r1, r2, r3) by {
      XorLaws();
      RegisterIsLinear();
      RaisedShifts(d[1], 1);
      RaisedShifts(d[2], 2);
      RaisedShifts(d[3], 3);
    }
  }

  /** From the same register, different runs of four bytes lead to different registers. */
  lemma FourBytesInjective(v: bv32, a: seq<bv8>, b: seq<bv8>)
    requires |a| == |b| == 4 && Crc32Kind().Register(v, a) == Crc32Kind().Register(v, b)
    ensures a == b
  {
    FourBytesShift(v, a);
    FourBytesShift(v, b);
    Crc32Kind().ShiftsInjective(Xor(v, Word(a)), Xor(v, Word(b)), 32) by { ShiftIsLossless(); }
    XorInjective(v, Word(a), Word(b));
    WordsInjective(a, b);
  }

  lemma XorInjective(v: bv32, x: bv32, y: bv32)
    requires Xor(v, x) == Xor(v, y)
    ensures x == y
  {
  }

  /** So do different runs of at most four bytes. */
  lemma BurstInjective(v: bv32, a: seq<bv8>, b: seq<bv8>)
    requires |a| == |b| <= 4 && Crc32Kind().Register(v, a) == Crc32Kind().Register(v, b)
    ensures a == b
  {
    var zeros := seq(4 - |a|, _ => 0 as bv8);
    Crc32Kind().RegisterConcat(v, a, zeros);
    Crc32Kind().RegisterConcat(v, b, zeros);
    FourBytesInjective(v, a + zeros, b + zeros);
    assert a == (a + zeros)[..|a|] && b == (b + zeros)[..|b|];
  }

  /** Two messages that differ, and only inside four consecutive bytes. */
  ghost predicate DifferInBurst(m: seq<bv8>, m': seq<bv8>, k: nat) {
    && |m| == |m'| && m != m'
    && forall i | 0 <= i < |m| && !(k <= i < k + 4) :: m[i] == m'[i]
  }

  lemma BurstChangesRegister(v: bv32, m: seq<bv8>, m': seq<bv8>, k: nat)
    requires DifferInBurst(m, m', k)
    ensures Crc32Kind().Register(v, m) != Crc32Kind().Register(v, m')
  {
    var start := if k < |m| then k else |m|;
    var end := if k + 4 <= |m| then k + 4 else |m|;
    var (head, a, b, tail) := (m[..start], m[start..end], m'[start..end], m[end..]);
    assert m == head + a + tail;
    assert m' == head + b + tail;
    Crc32Kind().RegisterConcat(v, head + a, tail);
    Crc32Kind().RegisterConcat(v, head, a);
    Crc32Kind().RegisterConcat(v, head + b, tail);
    Crc32Kind().RegisterConcat(v, head, b);
    if Crc32Kind().Register(v, m) == Crc32Kind().Register(v, m') {
      TailInjective(Crc32Kind().Register(v, head + a), Crc32Kind().Register(v, head + b), tail);
      BurstInjective(Crc32Kind().Register(v, head), a, b);
    }
  }

  lemma TailInjective(x: bv32, y: bv32, tail: seq<bv8>)
    requires Crc32Kind().Register(x, tail) == Crc32Kind().Register(y, tail)
    ensures x == y
  {
    XorLaws();
    ShiftIsLossless();
    Crc32Kind().AddIsLossless();
    Crc32Kind().RegisterInjective(x, y, tail);
  }

  /** Messages of any one length that differ only inside four consecutive bytes have different checksums. */
  lemma BurstChangesCrc(m: seq<bv8>, m': seq<bv8>, k: nat)
    requires DifferInBurst(m, m', k)
    ensures Crc(m) != Crc(m')
  {
    BurstChangesRegister(0xffff_ffff, m, m', k);
    var (x, y) := (Crc32Kind().Register(0xffff_ffff, m), Crc32Kind().Register(0xffff_ffff, m'));
    if Crc(m) == Crc(m') {
      Crc32Kind().Undo(x, 0xffff_ffff) by { XorLaws(); }
      Crc32Kind().Undo(y, 0xffff_ffff) by { XorLaws(); }
    }
  }

  /** A message followed by its little-endian checksum leaves a constant in the register, and nothing else does. */
  lemma SealedIffResidue(m: seq<bv8>, c: seq<bv8>)
    requires |c| == 4
    ensures Word(c) == Crc(m)
       <==> Crc32Kind().Register(0xffff_ffff, m + c) == Crc32Kind().Shifts(0xffff_ffff, 32)
  {
    var r := Crc32Kind().Register(0xffff_ffff, m);
    Crc32Kind().RegisterConcat(0xffff_ffff, m, c);
    FourBytesShift(r, c);
    Crc32Kind().ComplementIff(r, Word(c), 0xffff_ffff) by { XorLaws(); }
    if Crc32Kind().Shifts(Xor(r, Word(c)), 32) == Crc32Kind().Shifts(0xffff_ffff, 32) {
      ShiftIsLossless();
      Crc32Kind().ShiftsInjective(Xor(r, Word(c)), 0xffff_ffff, 32);
    }
  }
}
