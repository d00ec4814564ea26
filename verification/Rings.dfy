/**
A client's queue: a vector used as a ring. The window of the ring that holds queued samples is a
plain sequence, oldest first; writing behind it and reading from its front are appending to and
dropping from that sequence, however often the ring wraps around.
*/
module Rings {
  import opened MixerModel

  /** The fields of one client's queue. */
  datatype Queue = Queue(samples: seq<int>, read: nat, count: nat, generation: nat, started: bool, underrunning: bool) {

    ghost predicate Valid() {
      |samples| == CAPACITY && read < CAPACITY && count <= CAPACITY
    }

    /** What the queue is to its clients: a sequence and its flags. */
    ghost function Model(): QueueState
      requires Valid()
    {
      QueueState(Window(samples, read, count), generation, started, underrunning)
    }
  }

  /** The `count` elements that start at `read`, wrapping at the end of the buffer. */
  function Window(buffer: seq<int>, read: nat, count: nat): (r: seq<int>)
    requires |buffer| == CAPACITY
    ensures |r| == count
  {
    seq(count, i requires 0 <= i < count => buffer[(read + i) % CAPACITY])
  }

  /** Writing one element behind a window that has room appends to it and disturbs nothing in it. */
  lemma WindowAppend(buffer: seq<int>, read: nat, count: nat, x: int)
    requires |buffer| == CAPACITY
    requires read < CAPACITY && count < CAPACITY
    ensures Window(buffer[(read + count) % CAPACITY := x], read, count + 1) == Window(buffer, read, count) + [x]
  {
  }

  /** Moving the front of the window drops the elements it passed. */
  lemma WindowDrop(buffer: seq<int>, read: nat, count: nat, n: nat)
    requires |buffer| == CAPACITY
    requires read < CAPACITY && n <= count <= CAPACITY
    ensures Window(buffer, (read + n) % CAPACITY, count - n) == Window(buffer, read, count)[n..]
  {
  }

  /** A queue as `attach` creates it. */
  function EmptyQueue(): (q: Queue)
    ensures q.Valid() && q.Model() == QueueState([], 0, false, false)
  {
    var q := Queue(seq(CAPACITY, _ => 0), 0, 0, 0, false, false);
    assert Window(q.samples, 0, 0) == [];
    q
  }

  /** A queue as `clear` leaves it: the ring itself is not touched. */
  function Flushed(q: Queue): (q': Queue)
    requires q.Valid()
    ensures q'.Valid() && q'.Model() == QueueState([], q.generation + 1, false, false)
  {
    var q' := q.(count := 0, generation := q.generation + 1, started := false, underrunning := false);
    assert Window(q'.samples, q'.read, 0) == [];
    q'
  }

  /** Copies `n` samples of `input` behind those already queued, scaled to 32 bits. */
  method Append(q: Queue, input: seq<Sample16>, from: nat, n: nat) returns (q': Queue)
    requires q.Valid() && 0 < n && from + n <= |input| && q.count + n <= CAPACITY
    ensures q'.Valid() && q'.Model() == Appended(q.Model(), input[from..from + n])
  {
    var samples := q.samples;
    for i := 0 to n
      invariant |samples| == CAPACITY
      invariant Window(samples, q.read, q.count + i)
             == Window(q.samples, q.read, q.count) + Scaled(input[from..from + i])
    {
      WindowAppend(samples, q.read, q.count + i, input[from + i] * SCALE);
      samples := samples[(q.read + q.count + i) % CAPACITY := input[from + i] * SCALE];
      assert Scaled(input[from..from + i + 1]) == Scaled(input[from..from + i]) + [input[from + i] * SCALE];
    }
    q' := q.(samples := samples, count := q.count + n, started := true);
  }

  /** Adds the next samples, at most one period of them, to `mix` and removes them from the queue. */
  method MixInto(q: Queue, mix: array<int>) returns (q': Queue, n: nat)
    requires q.Valid() && mix.Length == PERIOD
    modifies mix
    ensures q'.Valid() && n == Taken(q.Model())
    ensures q'.Model() == q.Model().(pending := q.Model().pending[n..])
    ensures forall i | 0 <= i < PERIOD :: mix[i] == old(mix[i]) + SampleAt(q.Model(), i)
  {
    n := Min(q.count, mix.Length);
    for i := 0 to n
      invariant forall j | 0 <= j < i :: mix[j] == old(mix[j]) + Window(q.samples, q.read, q.count)[j]
      invariant forall j | i <= j < PERIOD :: mix[j] == old(mix[j])
    {
      mix[i] := mix[i] + q.samples[(q.read + i) % CAPACITY];
    }
    WindowDrop(q.samples, q.read, q.count, n);
    q' := q.(read := (q.read + n) % CAPACITY, count := q.count - n);
  }

  /** The writer's turn at one queue. */
  method Serve(q: Queue, audible: bool, mix: array<int>) returns (q': Queue, underruns: nat, missing: nat)
    requires q.Valid() && mix.Length == PERIOD
    modifies mix
    ensures q'.Valid() && q'.Model() == Drained(q.Model(), audible)
    ensures underruns == NewUnderrun(q.Model(), audible) && missing == Missing(q.Model(), audible)
    ensures forall i | 0 <= i < PERIOD :: mix[i] == old(mix[i]) + SampleAt(q.Model(), i)
  {
    underruns, missing := 0, 0;
    var n;
    q', n := MixInto(q, mix);
    var starved := audible && q.started && n < PERIOD;
    if starved {
      if !q.underrunning {
        underruns := 1;
      }
      missing := (PERIOD - n) / 2;
    }
    q' := q'.(underrunning := starved);
  }
}
