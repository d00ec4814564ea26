/**
A client that is alone, from whatever state on: what the PCM is given is exactly what its ring held and what
its calls copy, in order.
*/
module MixerLone {
  import opened Sums
  import opened MixerModel
  import opened MixerSystem
  import opened MixerIsolation

  // ----- periods with a single client -----

  /** What the PCM was given, with the padding of each period removed. */
  function Heard(periods: seq<PeriodRecord>): seq<int> {
    if periods == [] then []
    else
      var last := periods[|periods| - 1];
      Heard(periods[..|periods| - 1]) + if last.filled <= |last.output| then last.output[..last.filled] else last.output
  }

  ghost predicate PaddedWithZeros(r: PeriodRecord) {
    forall i | r.filled <= i < |r.output| :: r.output[i] == 0
  }

  /** No other client is attached, the output is audible, and the client is not flushed. */
  ghost predicate Solo(events: seq<Event>, c: nat) {
    NeverFlushed(events, c) && AttachClient !in events && WritePeriod(false) !in events
  }

  ghost predicate Alone(s: System, c: nat) {
    s.mixer.clients.Keys == {c}
  }

  lemma {:induction false} LongestAlone(m: MixerState, c: nat, n: nat)
    requires m.clients.Keys == {c}
    ensures Longest(m, n) == if c < n then Taken(m.clients[c]) else 0
  {
    if n > 0 {
      LongestAlone(m, c, n - 1);
    }
  }

  /** With one client a period is its next samples, then zeros: 32-bit samples are never clamped. */
  lemma LonePeriod(m: MixerState, c: nat)
    requires WellFormed(m) && m.clients.Keys == {c}
    ensures var (q, out) := (m.clients[c], Output(m, true));
            && Longest(m, m.next) == Taken(q)
            && out[..Taken(q)] == q.pending[..Taken(q)]
            && forall i | Taken(q) <= i < PERIOD :: out[i] == 0
  {
    var q := m.clients[c];
    assert QueueOk(q);
    forall i | 0 <= i < PERIOD
      ensures Output(m, true)[i] == SampleAt(q, i)
    {
      SumSingle(Contributions(m, i), c, m.next);
    }
    LongestAlone(m, c, m.next);
  }

  lemma ValuesConcat(calls: map<nat, Call>, a: seq<Tag>, b: seq<Tag>)
    ensures Values(calls, a + b) == Values(calls, a) + Values(calls, b)
  {
  }

  lemma HeardAppend(periods: seq<PeriodRecord>, r: PeriodRecord)
    requires r.filled <= |r.output|
    ensures Heard(periods + [r]) == Heard(periods) + r.output[..r.filled]
  {
    assert (periods + [r])[..|periods|] == periods;
  }

  // ----- since a state -----

  /** The state `s` comes after `s0`, as far as a client's journal and the periods tell. */
  ghost predicate Since(s0: System, s: System, c: nat) {
    && c in s0.journals && c in s.journals && s0.periods <= s.periods
    && |s0.journals[c].mixed| <= |s.journals[c].mixed|
  }

  function HeardSince(s0: System, s: System): seq<int>
    requires |s0.periods| <= |s.periods|
  {
    Heard(s.periods[|s0.periods|..])
  }

  function MixedSince(s0: System, s: System, c: nat): seq<Tag>
    requires c in s0.journals && c in s.journals && |s0.journals[c].mixed| <= |s.journals[c].mixed|
  {
    s.journals[c].mixed[|s0.journals[c].mixed|..]
  }

  ghost predicate SilentlyPadded(s0: System, s: System) {
    forall k | |s0.periods| <= k < |s.periods| :: PaddedWithZeros(s.periods[k])
  }

  /** What was heard since is what was mixed of the client since. */
  ghost predicate Reproduces(s0: System, s: System, c: nat)
    requires Inv(s)
  {
    && Alone(s, c) && Since(s0, s, c)
    && HeardSince(s0, s) == Values(s.calls, MixedSince(s0, s, c))
    && (forall t | t in MixedSince(s0, s, c) :: t.call in s.calls)
    && SilentlyPadded(s0, s)
  }

  // ----- one period -----

  lemma LonePeriodRecorded(s: System, c: nat, n: nat, r: PeriodRecord)
    requires Inv(s) && Alone(s, c) && n == Taken(s.mixer.clients[c]) == Longest(s.mixer, s.mixer.next)
    requires c in s.journals && r == PeriodRecord(true, Output(s.mixer, true), n)
    ensures var (s', j) := (Step(s, WritePeriod(true)), s.journals[c]);
            && s'.periods == s.periods + [r] && c in s'.journals
            && j.head + n <= |j.log| && s'.journals[c].head == j.head + n
            && s'.journals[c].mixed == j.mixed + j.log[j.head..j.head + n]
  {
    PeriodKeepsQueue(s, true, c);
    PeriodAdvances(s, c);
  }

  lemma PeriodAdvances(s: System, c: nat)
    requires Inv(s) && Alone(s, c) && c in s.journals
    ensures var s' := Step(s, WritePeriod(true));
            && c in s'.journals && s'.journals[c] == Advanced(s.journals[c], s.mixer.clients[c], true)
            && s'.periods == s.periods + [PeriodRecord(true, Output(s.mixer, true), Longest(s.mixer, s.mixer.next))]
  {
  }

  /** What a lone client hears in one period is what its journal advances over. */
  lemma LonePeriodIsHeard(s: System, c: nat)
    requires Inv(s) && Alone(s, c)
    ensures c in s.journals && c in Step(s, WritePeriod(true)).journals
    ensures var (s', j) := (Step(s, WritePeriod(true)), s.journals[c]);
            var n := Taken(s.mixer.clients[c]);
            && j.head + n <= |j.log|
            && |s'.periods| == |s.periods| + 1 && s'.periods[..|s.periods|] == s.periods
            && PaddedWithZeros(s'.periods[|s.periods|])
            && s'.periods[|s.periods|].filled == n <= |s'.periods[|s.periods|].output|
            && s'.periods[|s.periods|].output[..n] == Values(s.calls, j.log[j.head..j.head + n])
            && s'.journals[c].mixed == j.mixed + j.log[j.head..j.head + n]
  {
    var (q, j, n) := (s.mixer.clients[c], s.journals[c], Taken(s.mixer.clients[c]));
    var r := PeriodRecord(true, Output(s.mixer, true), n);
    assert q.pending[..n] == Values(s.calls, j.log[j.head..j.head + n]) by {
      assert QueueIsLog(s, c) && JournalOk(s, c, j);
    }
    LonePeriod(s.mixer, c);
    LonePeriodRecorded(s, c, n, r);
  }

  lemma PeriodReproduces(s0: System, s: System, c: nat)
    requires Inv(s) && Reproduces(s0, s, c)
    ensures Inv(Step(s, WritePeriod(true))) && Reproduces(s0, Step(s, WritePeriod(true)), c)
  {
    var (s', j, n) := (Step(s, WritePeriod(true)), s.journals[c], Taken(s.mixer.clients[c]));
    StepKeepsInv(s, WritePeriod(true));
    PeriodKeepsAlone(s, c);
    LonePeriodIsHeard(s, c);
    TagsAreCalls(s, c, n);
    OneMorePeriod(s0, s, s', c, j.log[j.head..j.head + n]);
  }

  lemma PeriodKeepsAlone(s: System, c: nat)
    requires Inv(s) && Alone(s, c)
    ensures var s' := Step(s, WritePeriod(true)); Alone(s', c) && s'.calls == s.calls
  {
  }

  lemma TagsAreCalls(s: System, c: nat, n: nat)
    requires Inv(s) && c in s.journals && s.journals[c].head + n <= |s.journals[c].log|
    ensures forall t | t in s.journals[c].log[s.journals[c].head..s.journals[c].head + n] :: t.call in s.calls
  {
    assert JournalOk(s, c, s.journals[c]);
  }

  lemma OneMorePeriod(s0: System, s: System, s': System, c: nat, tags: seq<Tag>)
    requires Inv(s) && Inv(s') && Reproduces(s0, s, c) && Alone(s', c) && s'.calls == s.calls && c in s'.journals
    requires |s'.periods| == |s.periods| + 1 && s'.periods[..|s.periods|] == s.periods
    requires var r := s'.periods[|s.periods|];
             PaddedWithZeros(r) && r.filled <= |r.output| && r.output[..r.filled] == Values(s.calls, tags)
    requires s'.journals[c].mixed == s.journals[c].mixed + tags && forall t | t in tags :: t.call in s.calls
    ensures Reproduces(s0, s', c)
  {
    var r := s'.periods[|s.periods|];
    assert s'.periods[|s0.periods|..] == s.periods[|s0.periods|..] + [r];
    HeardAppend(s.periods[|s0.periods|..], r);
    assert MixedSince(s0, s', c) == MixedSince(s0, s, c) + tags;
    ValuesConcat(s.calls, MixedSince(s0, s, c), tags);
    forall k | |s0.periods| <= k < |s'.periods|
      ensures PaddedWithZeros(s'.periods[k])
    {
      if k < |s.periods| {
        assert s'.periods[..|s.periods|][k] == s'.periods[k];
      }
    }
  }

  // ----- the other steps -----

  /** A step that keeps the client alone, the periods and what was mixed, and knows the calls as before. */
  ghost predicate Quiet(s: System, s': System, c: nat) {
    && s'.mixer.clients.Keys == s.mixer.clients.Keys && s'.periods == s.periods && CallsGrow(s.calls, s'.calls)
    && c in s.journals && c in s'.journals && s'.journals[c].mixed == s.journals[c].mixed
  }

  /** Calls are never forgotten, keep their input and client, and copy more and more of it. */
  ghost predicate CallsGrow(calls: map<nat, Call>, calls': map<nat, Call>) {
    forall id | id in calls ::
      && id in calls'
      && calls'[id].producer.input == calls[id].producer.input
      && calls[id].producer.copied <= calls'[id].producer.copied
  }

  lemma CallsGrowStep(s: System, e: Event)
    requires Inv(s)
    ensures CallsGrow(s.calls, Step(s, e).calls)
  {
    if Admits(s, e) {
      CallEnters(s, e);
    }
  }

  lemma {:induction false} CallsGrowRun(s: System, events: seq<Event>)
    requires Inv(s)
    ensures CallsGrow(s.calls, Run(s, events).calls)
    decreases |events|
  {
    if events != [] {
      CallsGrowStep(s, events[0]);
      StepKeepsInv(s, events[0]);
      CallsGrowRun(Step(s, events[0]), events[1..]);
    }
  }

  lemma OthersAreQuiet(s: System, e: Event, c: nat)
    requires Inv(s) && Alone(s, c) && c in s.journals && Solo([e], c) && e != WritePeriod(true)
    ensures Quiet(s, Step(s, e), c)
  {
    assert [e][0] == e;
    CallsGrowStep(s, e);
    JournalStep(s, e, c);
    if Admits(s, e) {
      CallEnters(s, e);
    }
  }

  lemma QuietReproduces(s0: System, s: System, s': System, c: nat)
    requires Inv(s) && Inv(s') && Reproduces(s0, s, c) && Quiet(s, s', c)
    ensures Reproduces(s0, s', c)
  {
    ValuesSame(s.calls, s'.calls, MixedSince(s0, s, c));
  }

  lemma StepReproduces(s0: System, s: System, e: Event, c: nat)
    requires Inv(s) && Reproduces(s0, s, c) && Solo([e], c)
    ensures Inv(Step(s, e)) && Reproduces(s0, Step(s, e), c)
  {
    assert [e][0] == e;
    if e == WritePeriod(true) {
      PeriodReproduces(s0, s, c);
    } else {
      StepKeepsInv(s, e);
      OthersAreQuiet(s, e, c);
      QuietReproduces(s0, s, Step(s, e), c);
    }
  }

  lemma {:induction false} RunReproduces(s0: System, s: System, events: seq<Event>, c: nat)
    requires Inv(s) && Reproduces(s0, s, c) && Solo(events, c)
    ensures Reproduces(s0, Run(s, events), c)
    decreases |events|
  {
    if events != [] {
      assert Solo([events[0]], c);
      StepReproduces(s0, s, events[0], c);
      RunReproduces(s0, Step(s, events[0]), events[1..], c);
    }
  }

  lemma StartsReproducing(s: System, c: nat)
    requires Inv(s) && Alone(s, c)
    ensures Reproduces(s, s, c)
  {
    assert c in s.mixer.clients;
  }

  /** What the client's calls have copied into its journal since. */
  function LoggedSince(s0: System, s: System, c: nat): seq<Tag>
    requires c in s0.journals && c in s.journals && |s0.journals[c].log| <= |s.journals[c].log|
  {
    s.journals[c].log[|s0.journals[c].log|..]
  }

  /**
  From any state in which a client is the only one: what is heard since, padding removed, followed by what is
  still queued, is exactly what was queued then followed by everything its calls copied since, in order, and
  the padding is silent.
  */
  lemma LoneClientIsReproduced(s0: System, events: seq<Event>, c: nat)
    requires Inv(s0) && Alone(s0, c) && Solo(events, c)
    ensures var s := Run(s0, events);
            && c in s0.mixer.clients && c in s.mixer.clients && c in s0.journals && c in s.journals
            && |s0.journals[c].log| <= |s.journals[c].log| && s0.periods <= s.periods && SilentlyPadded(s0, s)
            && HeardSince(s0, s) + s.mixer.clients[c].pending
               == s0.mixer.clients[c].pending + Values(s.calls, LoggedSince(s0, s, c))
  {
    var s := Run(s0, events);
    StartsReproducing(s0, c);
    RunReproduces(s0, s0, events, c);
    UnflushedSamplesAreMixedInOrder(s0, events, c);
    CallsGrowRun(s0, events);
    QueuesAreValues(s0, s, c);
    var (j0, j) := (s0.journals[c], s.journals[c]);
    ValuesConcat(s.calls, MixedSince(s0, s, c), j.log[j.head..]);
    ValuesConcat(s.calls, j0.log[j0.head..], LoggedSince(s0, s, c));
  }

  lemma QueuesAreValues(s0: System, s: System, c: nat)
    requires Inv(s0) && Inv(s) && Alone(s0, c) && Alone(s, c) && CallsGrow(s0.calls, s.calls)
    ensures c in s0.journals && c in s.journals
    ensures var (j0, j) := (s0.journals[c], s.journals[c]);
            && j0.head <= |j0.log| && s0.mixer.clients[c].pending == Values(s.calls, j0.log[j0.head..])
            && j.head <= |j.log| && s.mixer.clients[c].pending == Values(s.calls, j.log[j.head..])
  {
    assert QueueIsLog(s0, c) && JournalOk(s0, c, s0.journals[c]);
    assert QueueIsLog(s, c) && JournalOk(s, c, s.journals[c]);
    ValuesSame(s0.calls, s.calls, s0.journals[c].log[s0.journals[c].head..]);
  }

  // ----- one call at a time -----

  /** The call waits on the client and has not been canceled. */
  predicate Waits(s: System, c: nat, id: nat) {
    id in s.calls && s.calls[id].waiting && s.calls[id].producer.client == c && !Canceled(s.mixer, s.calls[id].producer)
  }

  ghost predicate NoneWaits(s: System, c: nat) {
    forall id :: !Waits(s, c, id)
  }

  ghost predicate AtMostOneWaits(s: System, c: nat) {
    forall id, other | Waits(s, c, id) && Waits(s, c, other) :: id == other
  }

  /** No call starts while another one waits on the client. */
  ghost predicate OneAtATime(s: System, events: seq<Event>, c: nat)
    requires Inv(s)
    decreases |events|
  {
    StepKeepsInv(s, if events == [] then Shutdown else events[0]);
    events != [] ==>
      && (events[0].Enqueue? ==> NoneWaits(s, c))
      && OneAtATime(Step(s, events[0]), events[1..], c)
  }

  function Copied(calls: map<nat, Call>, id: nat): nat {
    if id in calls then calls[id].producer.copied else 0
  }

  /** What call `id` has copied since. */
  function Piece(calls0: map<nat, Call>, calls: map<nat, Call>, id: nat): seq<Tag> {
    Tags(id, Copied(calls0, id), Copied(calls, id))
  }

  /** What calls 0, 1, 2, ... have copied since, one after the other. */
  function Pieces(calls0: map<nat, Call>, calls: map<nat, Call>, n: nat): seq<Tag> {
    if n == 0 then [] else Pieces(calls0, calls, n - 1) + Piece(calls0, calls, n - 1)
  }

  lemma {:induction false} PiecesSame(calls0: map<nat, Call>, calls: map<nat, Call>, calls': map<nat, Call>, n: nat)
    requires forall id: nat | id < n :: Copied(calls', id) == Copied(calls, id)
    ensures Pieces(calls0, calls', n) == Pieces(calls0, calls, n)
  {
    if n > 0 {
      PiecesSame(calls0, calls, calls', n - 1);
    }
  }

  /** If no later call has copied anything since, what a call copies goes to the end. */
  lemma {:induction false} PieceGrows(calls0: map<nat, Call>, calls: map<nat, Call>, calls': map<nat, Call>,
      id: nat, n: nat)
    requires id < n && Copied(calls0, id) <= Copied(calls, id) <= Copied(calls', id)
    requires forall k: nat | k < n && k != id :: Copied(calls', k) == Copied(calls, k)
    requires forall k: nat | id < k < n :: Copied(calls, k) == Copied(calls0, k)
    ensures Pieces(calls0, calls', n) == Pieces(calls0, calls, n) + Tags(id, Copied(calls, id), Copied(calls', id))
  {
    if id < n - 1 {
      PieceGrows(calls0, calls, calls', id, n - 1);
      NoTags(Pieces(calls0, calls, n - 1), n - 1, Copied(calls, n - 1));
      NoTags(Pieces(calls0, calls', n - 1), n - 1, Copied(calls, n - 1));
    } else {
      PiecesSame(calls0, calls, calls', id);
      TagsJoin(Pieces(calls0, calls, id), id, Copied(calls0, id), Copied(calls, id), Copied(calls', id));
    }
  }

  lemma NoTags(before: seq<Tag>, id: nat, at: nat)
    ensures before + Tags(id, at, at) == before
  {
  }

  lemma TagsJoin(before: seq<Tag>, id: nat, a: nat, b: nat, c: nat)
    requires a <= b <= c
    ensures before + Tags(id, a, c) == before + Tags(id, a, b) + Tags(id, b, c)
  {
    assert Tags(id, a, c) == Tags(id, a, b) + Tags(id, b, c);
  }

  lemma {:induction false} NoPiecesYet(calls: map<nat, Call>, n: nat)
    ensures Pieces(calls, calls, n) == []
  {
    if n > 0 {
      NoPiecesYet(calls, n - 1);
    }
  }

  /** The client's journal since is what its calls copied since, call after call. */
  ghost predicate Sequential(s0: System, s: System, c: nat) {
    && Alone(s, c) && c in s0.journals && c in s.journals && |s0.journals[c].log| <= |s.journals[c].log|
    && LoggedSince(s0, s, c) == Pieces(s0.calls, s.calls, s.nextCall)
    && CallsGrow(s0.calls, s.calls) && s0.nextCall <= s.nextCall
    && AtMostOneWaits(s, c) && NewestWaits(s0, s, c)
  }

  /** No call after the one that waits has copied anything since. */
  ghost predicate NewestWaits(s0: System, s: System, c: nat) {
    forall id: nat, k: nat | Waits(s, c, id) && id < k :: Copied(s.calls, k) == Copied(s0.calls, k)
  }

  /** What a call's turn leaves, told without the mixer. */
  ghost predicate Turned(s: System, s': System, c: nat, id: nat, p: Producer, end: nat) {
    && s'.mixer.clients.Keys == s.mixer.clients.Keys
    && (forall q: Producer :: Canceled(s'.mixer, q) <==> Canceled(s.mixer, q))
    && id in s'.calls && s'.calls == s.calls[id := s'.calls[id]]
    && s'.calls[id].producer == p.(copied := end) && p.copied <= end
    && (Canceled(s.mixer, p) ==> end == p.copied && !s'.calls[id].waiting)
    && c in s.journals && c in s'.journals
    && s'.journals[c].log == s.journals[c].log + (if p.client == c then Tags(id, p.copied, end) else [])
  }

  lemma CallTurns(s: System, e: Event, c: nat)
    requires Inv(s) && Alone(s, c) && Admits(s, e)
    ensures var s' := Step(s, e);
            && s'.nextCall == Opened(s, e).nextCall && CallId(s, e) in s'.calls
            && Turned(s, s', c, CallId(s, e), Caller(s, e), s'.calls[CallId(s, e)].producer.copied)
  {
    CallEnters(s, e);
  }

  lemma TurnKeepsSequential(s0: System, s: System, s': System, c: nat, id: nat, p: Producer, end: nat)
    requires Sequential(s0, s, c) && Turned(s, s', c, id, p, end) && CallsGrow(s0.calls, s'.calls)
    requires s.nextCall <= s'.nextCall && id < s'.nextCall && p.copied == Copied(s.calls, id)
    requires forall k | k >= s.nextCall :: k !in s.calls && k !in s0.calls
    requires Canceled(s.mixer, p) ||
        (p.client == c && forall k: nat | id < k :: Copied(s.calls, k) == Copied(s0.calls, k))
    requires Canceled(s.mixer, p) || forall other | Waits(s, c, other) :: other == id
    ensures Sequential(s0, s', c)
  {
    assert forall k: nat | k != id :: Copied(s'.calls, k) == Copied(s.calls, k);
    LaterPiecesAreEmpty(s0.calls, s.calls, s.nextCall, s'.nextCall);
    var (log0, log) := (s0.journals[c].log, s.journals[c].log);
    if Canceled(s.mixer, p) {
      assert Tags(id, p.copied, end) == [] && s'.journals[c].log == log;
      PiecesSame(s0.calls, s.calls, s'.calls, s'.nextCall);
    } else {
      PieceGrows(s0.calls, s.calls, s'.calls, id, s'.nextCall);
      assert (log + Tags(id, p.copied, end))[|log0|..] == log[|log0|..] + Tags(id, p.copied, end);
    }
    assert forall k | Waits(s', c, k) :: k == id || Waits(s, c, k);
  }

  lemma {:induction false} LaterPiecesAreEmpty(calls0: map<nat, Call>, calls: map<nat, Call>, m: nat, n: nat)
    requires m <= n && forall k | k >= m :: k !in calls && k !in calls0
    ensures Pieces(calls0, calls, n) == Pieces(calls0, calls, m)
  {
    if m < n {
      LaterPiecesAreEmpty(calls0, calls, m, n - 1);
    }
  }

  lemma CallKeepsSequential(s0: System, s: System, e: Event, c: nat)
    requires Inv(s0) && Inv(s) && Sequential(s0, s, c) && Admits(s, e) && (e.Enqueue? ==> NoneWaits(s, c))
    ensures Sequential(s0, Step(s, e), c)
  {
    var (s', id, p) := (Step(s, e), CallId(s, e), Caller(s, e));
    CallTurns(s, e, c);
    CallsGrowStep(s, e);
    assert forall k | k >= s.nextCall :: k !in s.calls && k !in s0.calls;
    CallOfClient(s, e, c);
    TurnKeepsSequential(s0, s, s', c, id, p, s'.calls[id].producer.copied);
  }

  /** The call that takes its turn is new, or canceled, or the one that waits. */
  lemma CallOfClient(s: System, e: Event, c: nat)
    requires Inv(s) && Alone(s, c) && Admits(s, e)
    ensures var (id, p) := (CallId(s, e), Caller(s, e));
            && id < Opened(s, e).nextCall && p.copied == Copied(s.calls, id)
            && (if e.Enqueue? then id == s.nextCall && p.client == c
                else Canceled(s.mixer, p) || (p.client == c && Waits(s, c, id)))
  {
    assert forall k | k in s.calls :: k < s.nextCall;
  }

  lemma QuietKeepsSequential(s0: System, s: System, s': System, c: nat)
    requires Sequential(s0, s, c) && s'.calls == s.calls && s'.nextCall == s.nextCall
    requires s'.mixer.clients.Keys == s.mixer.clients.Keys && c in s'.journals
    requires s'.journals[c].log == s.journals[c].log
    requires forall q: Producer | Canceled(s.mixer, q) :: Canceled(s'.mixer, q)
    ensures Sequential(s0, s', c)
  {
    assert forall id | Waits(s', c, id) :: Waits(s, c, id);
  }

  lemma StepKeepsSequential(s0: System, s: System, e: Event, c: nat)
    requires Inv(s0) && Inv(s) && Sequential(s0, s, c) && Solo([e], c) && (e.Enqueue? ==> NoneWaits(s, c))
    ensures Inv(Step(s, e)) && Sequential(s0, Step(s, e), c)
  {
    assert [e][0] == e;
    StepKeepsInv(s, e);
    if Admits(s, e) {
      CallKeepsSequential(s0, s, e, c);
    } else {
      JournalStep(s, e, c);
      OthersKeepCalls(s, e, c);
      QuietKeepsSequential(s0, s, Step(s, e), c);
    }
  }

  lemma OthersKeepCalls(s: System, e: Event, c: nat)
    requires Inv(s) && Alone(s, c) && c in s.journals && Solo([e], c) && !Admits(s, e)
    ensures var s' := Step(s, e);
            && s'.calls == s.calls && s'.nextCall == s.nextCall && s'.mixer.clients.Keys == s.mixer.clients.Keys
            && c in s'.journals && s'.journals[c].log == s.journals[c].log
            && forall q: Producer | Canceled(s.mixer, q) :: Canceled(s'.mixer, q)
  {
    assert [e][0] == e;
    assert JournalOk(s, c, s.journals[c]);
  }

  lemma {:induction false} RunKeepsSequential(s0: System, s: System, events: seq<Event>, c: nat)
    requires Inv(s0) && Inv(s) && Sequential(s0, s, c) && Solo(events, c) && OneAtATime(s, events, c)
    ensures Sequential(s0, Run(s, events), c)
    decreases |events|
  {
    if events != [] {
      assert Solo([events[0]], c);
      StepKeepsSequential(s0, s, events[0], c);
      RunKeepsSequential(s0, Step(s, events[0]), events[1..], c);
    }
  }

  /** The scaled inputs of calls 0, 1, 2, ..., as far as they were copied since. */
  function InputsSince(calls0: map<nat, Call>, calls: map<nat, Call>, n: nat): seq<int>
    requires CallsGrow(calls0, calls) && WholeCalls(calls)
  {
    if n == 0 then []
    else
      InputsSince(calls0, calls, n - 1)
      + (if n - 1 in calls then Scaled(calls[n - 1].producer.input[Copied(calls0, n - 1)..Copied(calls, n - 1)])
         else [])
  }

  ghost predicate WholeCalls(calls: map<nat, Call>) {
    forall id | id in calls :: calls[id].producer.copied <= |calls[id].producer.input|
  }

  lemma {:induction false} PiecesAreInputs(calls0: map<nat, Call>, calls: map<nat, Call>, n: nat)
    requires CallsGrow(calls0, calls) && WholeCalls(calls)
    ensures Values(calls, Pieces(calls0, calls, n)) == InputsSince(calls0, calls, n)
  {
    if n > 0 {
      PiecesAreInputs(calls0, calls, n - 1);
      ValuesConcat(calls, Pieces(calls0, calls, n - 1), Piece(calls0, calls, n - 1));
      if n - 1 in calls {
        PieceIsInput(calls, n - 1, Copied(calls0, n - 1), Copied(calls, n - 1));
      }
    }
  }

  lemma PieceIsInput(calls: map<nat, Call>, id: nat, from: nat, end: nat)
    requires id in calls && from <= end <= |calls[id].producer.input|
    ensures Values(calls, Tags(id, from, end)) == Scaled(calls[id].producer.input[from..end])
  {
  }

  /**
  If besides no call starts while another waits on the client, that is what was queued, then what the waiting
  call still copied, then the inputs of the later calls: whole frames, scaled, call after call.
  */
  lemma LoneClientHearsItsInputs(s0: System, events: seq<Event>, c: nat)
    requires Inv(s0) && Alone(s0, c) && Solo(events, c)
    requires AtMostOneWaits(s0, c) && OneAtATime(s0, events, c)
    ensures var s := Run(s0, events);
            && c in s0.mixer.clients && c in s.mixer.clients && s0.periods <= s.periods
            && CallsGrow(s0.calls, s.calls) && WholeCalls(s.calls)
            && HeardSince(s0, s) + s.mixer.clients[c].pending
               == s0.mixer.clients[c].pending + InputsSince(s0.calls, s.calls, s.nextCall)
  {
    var s := Run(s0, events);
    LoneClientIsReproduced(s0, events, c);
    StartsSequential(s0, c);
    RunKeepsSequential(s0, s0, events, c);
    AllCallsAreWhole(s);
    PiecesAreInputs(s0.calls, s.calls, s.nextCall);
  }

  lemma StartsSequential(s: System, c: nat)
    requires Inv(s) && Alone(s, c) && AtMostOneWaits(s, c)
    ensures Sequential(s, s, c)
  {
    assert c in s.mixer.clients;
    NoPiecesYet(s.calls, s.nextCall);
  }

  lemma AllCallsAreWhole(s: System)
    requires Inv(s)
    ensures WholeCalls(s.calls)
  {
    forall id | id in s.calls
      ensures s.calls[id].producer.copied <= |s.calls[id].producer.input|
    {
      assert CallOk(s, s.calls[id]);
    }
  }
}
