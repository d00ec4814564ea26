/**
Shift registers in general. A register is shifted by halving it and adding back a feedback that depends
on what falls out; bytes are added to it and shifted eight times. If halving and feedback respect
addition and a shift loses nothing, then a byte added late could as well have been added early in a
raised position, and registers that differ stay different.
*/
module ShiftRegisters {

  /** Registers `T`, how they are added and shifted, and how a byte `B` enters one. */
  datatype Kind<!T(!new), !B> =
    Kind(plus: (T, T) -> T, zero: T, half: T -> T, feedback: T -> T, even: T -> bool, lift: B -> T) {

    function Shift(v: T): T {
      plus(half(v), feedback(v))
    }

    function Shifts(v: T, n: nat): T {
      if n == 0 then v else Shift(Shifts(v, n - 1))
    }

    function Absorb(v: T, b: B): T {
      Shifts(plus(v, lift(b)), 8)
    }

    /** The register after `data`, starting from `v`. */
    function Register(v: T, data: seq<B>): T {
      if data == [] then v else Absorb(Register(v, data[..|data| - 1]), data[|data| - 1])
    }

    // ----- laws -----

    ghost predicate Associative() {
      forall x, y, z {:trigger plus(plus(x, y), z)} :: plus(plus(x, y), z) == plus(x, plus(y, z))
    }

    ghost predicate Commutative() {
      forall x, y {:trigger plus(x, y)} :: plus(x, y) == plus(y, x)
    }

    /** Adding is undone by adding the same again. */
    ghost predicate SelfInverse() {
      (forall x {:trigger plus(x, x)} :: plus(x, x) == zero) &&
          (forall x {:trigger plus(zero, x)} :: plus(zero, x) == x)
    }

    ghost predicate PartsLinear() {
      && (forall x, y {:trigger half(plus(x, y))} :: half(plus(x, y)) == plus(half(x), half(y)))
      && (forall x, y {:trigger feedback(plus(x, y))} :: feedback(plus(x, y)) == plus(feedback(x), feedback(y)))
    }

    ghost predicate NoFeedbackIfEven() {
      forall x | even(x) :: plus(half(x), feedback(x)) == half(x)
    }

    ghost predicate Linear() {
      forall x, y {:trigger Shift(plus(x, y))} :: Shift(plus(x, y)) == plus(Shift(x), Shift(y))
    }

    ghost predicate ShiftLossless() {
      forall x, y :: Shift(x) == Shift(y) ==> x == y
    }

    ghost predicate AddLossless() {
      forall x, y, z {:trigger plus(x, z), plus(y, z)} :: plus(x, z) == plus(y, z) ==> x == y
    }

    // ----- consequences -----

    lemma AddIsLossless()
      requires Associative() && Commutative() && SelfInverse()
      ensures AddLossless()
    {
      forall x, y, z | plus(x, z) == plus(y, z)
        ensures x == y
      {
        Undo(x, z);
        Undo(y, z);
      }
    }

    lemma Undo(x: T, z: T)
      requires Associative() && Commutative() && SelfInverse()
      ensures plus(plus(x, z), z) == x
    {
      assert plus(plus(x, z), z) == plus(x, plus(z, z)) == plus(x, zero) == plus(zero, x);
    }

    lemma Interchange(a: T, b: T, c: T, d: T)
      requires Associative() && Commutative()
      ensures plus(plus(a, b), plus(c, d)) == plus(plus(a, c), plus(b, d))
    {
      calc {
        plus(plus(a, b), plus(c, d));
        plus(a, plus(b, plus(c, d)));
        { assert plus(b, plus(c, d)) == plus(plus(b, c), d) == plus(plus(c, b), d) == plus(c, plus(b, d)); }
        plus(a, plus(c, plus(b, d)));
        plus(plus(a, c), plus(b, d));
      }
    }

    lemma ShiftIsLinear()
      requires Associative() && Commutative() && PartsLinear()
      ensures Linear()
    {
      forall x, y
        ensures Shift(plus(x, y)) == plus(Shift(x), Shift(y))
      {
        Interchange(half(x), half(y), feedback(x), feedback(y));
      }
    }

    lemma {:induction false} ShiftsInjective(x: T, y: T, n: nat)
      requires ShiftLossless() && Shifts(x, n) == Shifts(y, n)
      ensures x == y
    {
      if n > 0 {
        ShiftsInjective(x, y, n - 1);
      }
    }

    lemma {:induction false} ShiftsLinear(x: T, y: T, n: nat)
      requires Linear()
      ensures Shifts(plus(x, y), n) == plus(Shifts(x, n), Shifts(y, n))
    {
      if n > 0 {
        ShiftsLinear(x, y, n - 1);
        assert Shift(plus(Shifts(x, n - 1), Shifts(y, n - 1))) == plus(Shifts(x, n), Shifts(y, n));
      }
    }

    lemma {:induction false} ShiftsAdd(x: T, m: nat, n: nat)
      ensures Shifts(Shifts(x, m), n) == Shifts(x, m + n)
    {
      if n > 0 {
        ShiftsAdd(x, m, n - 1);
      }
    }

    /** Halving eight times, written out. */
    function Halved(x: T): T {
      half(half(half(half(half(half(half(half(x))))))))
    }

    predicate EvenByte(x: T) {
      && even(x) && even(half(x)) && even(half(half(x))) && even(half(half(half(x))))
      && even(half(half(half(half(x))))) && even(half(half(half(half(half(x))))))
      && even(half(half(half(half(half(half(x))))))) && even(half(half(half(half(half(half(half(x))))))))
    }

    lemma ByteDown(x: T)
      requires NoFeedbackIfEven() && EvenByte(x)
      ensures Shifts(x, 8) == Halved(x)
    {
      var x4 := half(half(half(half(x))));
      ShiftsAdd(x, 4, 4);
      assert Shifts(x, 1) == half(x) && Shifts(x, 2) == half(half(x)) && Shifts(x, 3) == half(half(half(x)));
      assert Shifts(x, 4) == x4;
      assert Shifts(x4, 1) == half(x4) && Shifts(x4, 2) == half(half(x4)) && Shifts(x4, 3) == half(half(half(x4)));
    }

    /** A byte absorbed later could as well have been put into the register higher up and earlier. */
    lemma AbsorbEarly(v: T, n: nat, b: B, raised: T)
      requires Linear() && Shifts(raised, n) == lift(b)
      ensures Absorb(Shifts(v, n), b) == Shifts(plus(v, raised), n + 8)
    {
      ShiftsLinear(v, raised, n);
      ShiftsAdd(plus(v, raised), n, 8);
    }

    lemma {:induction false} RegisterConcat(v: T, a: seq<B>, b: seq<B>)
      ensures Register(v, a + b) == Register(Register(v, a), b)
    {
      if b == [] {
        assert a + b == a;
      } else {
        assert (a + b)[..|a + b| - 1] == a + b[..|b| - 1];
        RegisterConcat(v, a, b[..|b| - 1]);
      }
    }

    lemma RegisterAppend(v: T, d: seq<B>, b: B)
      ensures Register(v, d + [b]) == Absorb(Register(v, d), b)
    {
      assert (d + [b])[..|d|] == d;
    }

    /** Four bytes as one summand: the first as it is, the others raised by one, two and three bytes. */
    function Sum4(w0: T, w1: T, w2: T, w3: T): T {
      plus(plus(plus(w0, w1), w2), w3)
    }

    /** Four bytes shift the register, with all of them added in their raised positions, by 32 bits. */
    lemma FourBytes(v: T, d: seq<B>, r1: T, r2: T, r3: T)
      requires Linear() && Associative() && |d| == 4
      requires Shifts(r1, 8) == lift(d[1]) && Shifts(r2, 16) == lift(d[2]) && Shifts(r3, 24) == lift(d[3])
      ensures Register(v, d) == Shifts(plus(v, Sum4(lift(d[0]), r1, r2, r3)), 32)
    {
      var v0 := plus(v, lift(d[0]));
      RegisterAppend(v, [], d[0]);
      RegisterAppend(v, [d[0]], d[1]);
      RegisterAppend(v, [d[0], d[1]], d[2]);
      RegisterAppend(v, [d[0], d[1], d[2]], d[3]);
      assert [] + [d[0]] == [d[0]] && [d[0]] + [d[1]] == [d[0], d[1]];
      assert [d[0], d[1]] + [d[2]] == [d[0], d[1], d[2]] && [d[0], d[1], d[2]] + [d[3]] == d;
      AbsorbEarly(v0, 8, d[1], r1);
      AbsorbEarly(plus(v0, r1), 16, d[2], r2);
      AbsorbEarly(plus(plus(v0, r1), r2), 24, d[3], r3);
      Regroup(v, lift(d[0]), r1, r2, r3);
    }

    lemma Regroup(v: T, w0: T, w1: T, w2: T, w3: T)
      requires Associative()
      ensures plus(plus(plus(plus(v, w0), w1), w2), w3) == plus(v, Sum4(w0, w1, w2, w3))
    {
      assert plus(plus(v, w0), w1) == plus(v, plus(w0, w1));
      assert plus(plus(v, plus(w0, w1)), w2) == plus(v, plus(plus(w0, w1), w2));
      assert plus(plus(v, plus(plus(w0, w1), w2)), w3) == plus(v, plus(plus(plus(w0, w1), w2), w3));
    }

    /** Different registers stay different whatever is shifted through both. */
    lemma {:induction false} RegisterInjective(x: T, y: T, data: seq<B>)
      requires ShiftLossless() && AddLossless() && Register(x, data) == Register(y, data)
      ensures x == y
    {
      if data != [] {
        var (d, b) := (data[..|data| - 1], lift(data[|data| - 1]));
        ShiftsInjective(plus(Register(x, d), b), plus(Register(y, d), b), 8);
        RegisterInjective(x, y, d);
      }
    }

    /** Adding `w` to `r` gives `ones` exactly if `w` is `r` with `ones` added. */
    lemma ComplementIff(r: T, w: T, ones: T)
      requires Associative() && Commutative() && SelfInverse()
      ensures plus(r, w) == ones <==> w == plus(r, ones)
    {
      Undo(w, r);
      Undo(ones, r);
    }
  }
}
