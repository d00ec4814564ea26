/**
The continuous A2B output as values: what each critical section of the mixer does to the queues
of the attached clients and to the statistics. A ring is seen here as the sequence of samples it
holds, oldest first; `ContinuousOutput` ties the in-place rings to this view.
*/
module MixerModel {
  import opened Sums

  /** Samples per period: 240 stereo frames. */
  const PERIOD: nat := 480

  /** Samples per ring: 4096 stereo frames. */
  const CAPACITY: nat := 8192

  /** A 16-bit sample becomes a 32-bit one by this factor. */
  const SCALE: int := 65536

  const INT32_MIN: int := -0x8000_0000
  const INT32_MAX: int := 0x7fff_ffff

  type Sample16 = x: int | -0x8000 <= x < 0x8000 witness 0

  datatype QueueState = QueueState(pending: seq<int>, generation: nat, started: bool, underrunning: bool)

  datatype Statistics = Statistics(producerWaits: nat, underruns: nat, starvedFrames: nat, canceledFrames: nat)

  datatype MixerState = MixerState(clients: map<nat, QueueState>, next: nat, stats: Statistics, running: bool)

  /** The local variables of an `enqueue` call: what it must keep across its condition wait. */
  datatype Producer = Producer(client: nat, generation: nat, input: seq<Sample16>, copied: nat) {
    /** Whole frames only: a trailing odd sample is never queued. */
    function Total(): nat {
      |input| / 2 * 2
    }

    /** Frames not yet copied. */
    function TailFrames(): nat {
      if copied < Total() then (Total() - copied) / 2 else 0
    }
  }

  datatype Admission = Admission(mixer: MixerState, producer: Producer, waiting: bool)

  function Min(a: int, b: int): int {
    if a < b then a else b
  }

  function Clamp(x: int): int {
    if x < INT32_MIN then INT32_MIN else if x > INT32_MAX then INT32_MAX else x
  }

  function Scaled(samples: seq<Sample16>): (r: seq<int>)
    ensures |r| == |samples|
  {
    seq(|samples|, i requires 0 <= i < |samples| => samples[i] * SCALE)
  }

  // ----- clients -----

  function Initial(): MixerState {
    MixerState(map[], 1, Statistics(0, 0, 0, 0), true)
  }

  function Attach(m: MixerState): MixerState {
    m.(clients := m.clients[m.next := QueueState([], 0, false, false)], next := m.next + 1)
  }

  function Detach(m: MixerState, client: nat): MixerState {
    if client in m.clients then
      m.(clients := m.clients - {client}, stats := Cancel(m.stats, |m.clients[client].pending| / 2))
    else m
  }

  function Clear(m: MixerState, client: nat): MixerState {
    if client in m.clients then
      var q := m.clients[client];
      m.(clients := m.clients[client := QueueState([], q.generation + 1, false, false)],
         stats := Cancel(m.stats, |q.pending| / 2))
    else m
  }

  function Cancel(st: Statistics, frames: nat): Statistics {
    st.(canceledFrames := st.canceledFrames + frames)
  }

  // ----- producers -----

  /** A waiting call gives up when the output stops or its queue was flushed or detached. */
  predicate Canceled(m: MixerState, p: Producer) {
    !m.running || p.client !in m.clients || m.clients[p.client].generation != p.generation
  }

  /** The condition an `enqueue` call waits for. */
  predicate Wakeable(m: MixerState, p: Producer) {
    Canceled(m, p) || |m.clients[p.client].pending| < CAPACITY
  }

  /** The ring a call copies into never holds more than it can. */
  predicate Fits(m: MixerState, p: Producer) {
    && p.copied <= p.Total()
    && (p.client in m.clients ==> |m.clients[p.client].pending| <= CAPACITY)
  }

  /** The samples one pass copies: all that are left, or as many as the ring has room for. */
  function Room(m: MixerState, p: Producer): (n: nat)
    requires Fits(m, p) && !Canceled(m, p)
    ensures p.copied + n <= p.Total() <= |p.input|
    ensures |m.clients[p.client].pending| + n <= CAPACITY
    ensures p.copied + n == p.Total() || |m.clients[p.client].pending| + n == CAPACITY
  {
    Min(p.Total() - p.copied, CAPACITY - |m.clients[p.client].pending|)
  }

  /** One pass of the copying loop. */
  function Copy(m: MixerState, p: Producer): (r: (MixerState, Producer))
    requires Fits(m, p) && !Canceled(m, p)
    ensures p.client in r.0.clients
    ensures r.1.copied < p.Total() ==> |r.0.clients[p.client].pending| == CAPACITY
  {
    var n := Room(m, p);
    (m.(clients := m.clients[p.client := Appended(m.clients[p.client], p.input[p.copied..p.copied + n])]),
     p.(copied := p.copied + n))
  }

  /** Everything an `enqueue` call does from entering its loop to its next wait or its return. */
  function Admit(m: MixerState, p: Producer): Admission
    requires Fits(m, p)
  {
    if p.copied == p.Total() then Admission(m, p, false)
    else if Canceled(m, p) then Admission(m.(stats := Cancel(m.stats, p.TailFrames())), p, false)
    else
      var (m', p') := Copy(m, p);
      if p'.copied == p.Total() then Admission(m', p', false)
      else Admission(m'.(stats := m'.stats.(producerWaits := m'.stats.producerWaits + 1)), p', true)
  }

  function Appended(q: QueueState, samples: seq<Sample16>): QueueState {
    if samples == [] then q else q.(pending := q.pending + Scaled(samples), started := true)
  }

  // ----- the writer -----

  function Taken(q: QueueState): nat {
    Min(|q.pending|, PERIOD)
  }

  predicate Starves(q: QueueState, audible: bool) {
    audible && q.started && Taken(q) < PERIOD
  }

  function Missing(q: QueueState, audible: bool): nat {
    if Starves(q, audible) then (PERIOD - Taken(q)) / 2 else 0
  }

  function NewUnderrun(q: QueueState, audible: bool): nat {
    if Starves(q, audible) && !q.underrunning then 1 else 0
  }

  function Drained(q: QueueState, audible: bool): QueueState {
    q.(pending := q.pending[Taken(q)..], underrunning := Starves(q, audible))
  }

  /** What a queue contributes at offset `i` of a period: its next samples, padded with zeros. */
  function SampleAt(q: QueueState, i: nat): int {
    if i < Taken(q) then q.pending[i] else 0
  }

  function Contributions(m: MixerState, i: nat): map<nat, int> {
    map c | c in m.clients :: SampleAt(m.clients[c], i)
  }

  function MissingFrames(m: MixerState, audible: bool): map<nat, nat> {
    map c | c in m.clients :: Missing(m.clients[c], audible)
  }

  function NewUnderruns(m: MixerState, audible: bool): map<nat, nat> {
    map c | c in m.clients :: NewUnderrun(m.clients[c], audible)
  }

  function QueuedFrames(m: MixerState): map<nat, nat> {
    map c | c in m.clients :: |m.clients[c].pending| / 2
  }

  /** The sum over all clients at offset `i` of a period. */
  function MixAt(m: MixerState, i: nat): int {
    Sum(Contributions(m, i), m.next)
  }

  /** The samples handed to the PCM: the saturated sum over all clients, or silence. */
  function Output(m: MixerState, audible: bool): (r: seq<int>)
    ensures |r| == PERIOD
  {
    seq(PERIOD, i requires 0 <= i < PERIOD => if audible then Clamp(MixAt(m, i)) else 0)
  }

  /** The queues and statistics after the writer took one period from every client. */
  function Period(m: MixerState, audible: bool): MixerState {
    m.(clients := map c | c in m.clients :: Drained(m.clients[c], audible),
       stats := m.stats.(underruns := m.stats.underruns + PartialSum(NewUnderruns(m, audible), m.next),
                         starvedFrames := m.stats.starvedFrames + PartialSum(MissingFrames(m, audible), m.next)))
  }

  /** The writer's turn at one client. */
  function ServeOne(m: MixerState, audible: bool, c: nat): MixerState {
    if c in m.clients then
      var q := m.clients[c];
      m.(clients := m.clients[c := Drained(q, audible)],
         stats := m.stats.(underruns := m.stats.underruns + NewUnderrun(q, audible),
                           starvedFrames := m.stats.starvedFrames + Missing(q, audible)))
    else m
  }

  /** The writer's loop over the clients, in the order of their ids, up to `n`. */
  function ServeUpTo(m: MixerState, audible: bool, n: nat): MixerState {
    if n == 0 then m else ServeOne(ServeUpTo(m, audible, n - 1), audible, n - 1)
  }

  /** Serving one client after the other is what `Period` does to all of them at once. */
  lemma {:induction false} ServingAllIsPeriod(m: MixerState, audible: bool)
    requires forall c | c in m.clients :: c < m.next
    ensures ServeUpTo(m, audible, m.next) == Period(m, audible)
  {
    ServedSoFar(m, audible, m.next);
    assert ServeUpTo(m, audible, m.next).clients == Period(m, audible).clients;
  }

  lemma {:induction false} ServedSoFar(m: MixerState, audible: bool, n: nat)
    ensures var r := ServeUpTo(m, audible, n);
            && r == m.(clients := r.clients, stats := r.stats)
            && r.clients.Keys == m.clients.Keys
            && (forall c | c in m.clients ::
                  r.clients[c] == if c < n then Drained(m.clients[c], audible) else m.clients[c])
            && r.stats == m.stats.(
                 underruns := m.stats.underruns + PartialSum(NewUnderruns(m, audible), n),
                 starvedFrames := m.stats.starvedFrames + PartialSum(MissingFrames(m, audible), n))
  {
    if n > 0 {
      ServedSoFar(m, audible, n - 1);
    }
  }

  /** A sum of counts is a count. */
  function PartialSum(w: map<nat, nat>, n: nat): (r: nat)
    ensures r == Sum(w, n)
  {
    SumZero(map[], n);
    SumMonotone(map[], w, n);
    Sum(w, n)
  }

  // ----- the invariant of the queues -----

  ghost predicate QueueOk(q: QueueState) {
    && |q.pending| <= CAPACITY
    && |q.pending| % 2 == 0
    && (forall i | 0 <= i < |q.pending| :: INT32_MIN <= q.pending[i] <= INT32_MAX)
  }

  /** Client ids were handed out in order, and every ring holds whole frames of 32-bit samples. */
  ghost predicate WellFormed(m: MixerState) {
    forall c | c in m.clients :: c < m.next && QueueOk(m.clients[c])
  }
}
