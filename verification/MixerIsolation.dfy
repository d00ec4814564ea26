/** What one client's flushes and calls can and cannot do to the samples that are mixed. */
module MixerIsolation {
  import opened MixerModel
  import opened MixerSystem

  /** What a step does to one client's journal. */
  lemma JournalStep(s: System, e: Event, c: nat)
    requires Inv(s) && c in s.journals
    ensures var s' := Step(s, e);
            && c in s'.journals
            && var (j, j') := (s.journals[c], s'.journals[c]);
            && j.log <= j'.log && j.mixed <= j'.mixed
            && j.head <= j'.head <= |j'.log|
            && (e.WritePeriod? && c in s.mixer.clients ==>
                j'.log == j.log && j'.mixed == j.mixed + j.log[j.head..j'.head])
            && (!e.WritePeriod? || c !in s.mixer.clients ==> j'.mixed == j.mixed)
            && (!e.WritePeriod? && !(e == ClearClient(c) || e == DetachClient(c)) ==> j'.head == j.head)
            && (e == ClearClient(c) || e == DetachClient(c) ==> j'.log == j.log)
            && ((e == ClearClient(c) || e == DetachClient(c)) && c in s.mixer.clients ==> j'.head == |j.log|)
  {
    StepKeepsInv(s, e);
    assert JournalOk(s, c, s.journals[c]);
    if e.WritePeriod? && c in s.mixer.clients {
      PeriodKeepsQueue(s, e.audible, c);
    }
  }

  // ----- flush isolation -----

  /**
  Nothing older than call number `first` can reach the mix of client `c` any more: what was mixed since
  position `from` and what is queued come from later calls, and every older call that is still waiting
  on the client is going to give up.
  */
  ghost predicate Isolated(s: System, c: nat, first: nat, from: nat)
    requires Inv(s)
  {
    && c in s.journals
    && first <= s.nextCall
    && from <= |s.journals[c].mixed|
    && (forall i | from <= i < |s.journals[c].mixed| :: s.journals[c].mixed[i].call >= first)
    && (forall i | s.journals[c].head <= i < |s.journals[c].log| :: s.journals[c].log[i].call >= first)
    && (forall id | id in s.calls && id < first && s.calls[id].waiting && s.calls[id].producer.client == c ::
          Canceled(s.mixer, s.calls[id].producer))
  }

  /** A flush or a detach isolates the client from all calls made so far. */
  lemma FlushIsolates(s: System, e: Event, c: nat)
    requires Inv(s) && c in s.mixer.clients
    requires e == ClearClient(c) || e == DetachClient(c)
    ensures Inv(Step(s, e))
    ensures Isolated(Step(s, e), c, s.nextCall, |s.journals[c].mixed|)
  {
    StepKeepsInv(s, e);
    JournalStep(s, e, c);
    forall id | id in s.calls && s.calls[id].producer.client == c
      ensures Canceled(Step(s, e).mixer, s.calls[id].producer)
    {
      assert CallOk(s, s.calls[id]);
    }
  }

  /** A canceled call stays canceled: generations only grow and client ids are never reused. */
  lemma CanceledForGood(s: System, e: Event, p: Producer)
    requires Inv(s) && Canceled(s.mixer, p) && p.client in s.journals
    requires p.client in s.mixer.clients ==> p.generation <= s.mixer.clients[p.client].generation
    ensures Canceled(Step(s, e).mixer, p)
  {
    if Admits(s, e) {
      CallEnters(s, e);
    }
  }

  /** Copying is the only way into the log, and only a call that is not canceled copies. */
  lemma LogStep(s: System, e: Event, c: nat)
    requires Inv(s) && c in s.journals
    ensures c in Step(s, e).journals
    ensures var (j, j') := (s.journals[c], Step(s, e).journals[c]);
            forall i | |j.log| <= i < |j'.log| ::
              || j'.log[i].call == s.nextCall
              || (&& j'.log[i].call in s.calls && s.calls[j'.log[i].call].waiting
                  && s.calls[j'.log[i].call].producer.client == c
                  && !Canceled(s.mixer, s.calls[j'.log[i].call].producer))
  {
    if Admits(s, e) {
      CallEnters(s, e);
    }
  }

  lemma StepKeepsIsolated(s: System, e: Event, c: nat, first: nat, from: nat)
    requires Inv(s) && Isolated(s, c, first, from)
    ensures Inv(Step(s, e)) && Isolated(Step(s, e), c, first, from)
  {
    StepKeepsInv(s, e);
    JournalStep(s, e, c);
    LogStep(s, e, c);
    var s' := Step(s, e);
    forall id | id in s'.calls && id < first && s'.calls[id].waiting && s'.calls[id].producer.client == c
      ensures Canceled(s'.mixer, s'.calls[id].producer)
    {
      OldCallStaysCanceled(s, e, c, first, from, id);
    }
  }

  lemma OldCallStaysCanceled(s: System, e: Event, c: nat, first: nat, from: nat, id: nat)
    requires Inv(s) && Isolated(s, c, first, from) && id in Step(s, e).calls && id < first
    requires Step(s, e).calls[id].waiting && Step(s, e).calls[id].producer.client == c
    ensures Canceled(Step(s, e).mixer, Step(s, e).calls[id].producer)
  {
    OldCallsWait(s, e, id);
    assert CallOk(s, s.calls[id]);
    CanceledForGood(s, e, s.calls[id].producer);
  }

  /** A call that still waits after a step waited before it, for the same generation of the same client. */
  lemma OldCallsWait(s: System, e: Event, id: nat)
    requires Inv(s) && id < s.nextCall
    requires id in Step(s, e).calls && Step(s, e).calls[id].waiting
    ensures id in s.calls && s.calls[id].waiting
    ensures var (p, p') := (s.calls[id].producer, Step(s, e).calls[id].producer);
            p' == p.(copied := p'.copied)
  {
    if Admits(s, e) {
      CallEnters(s, e);
    }
  }

  /**
  Flush isolation: whatever happens after client `c` was flushed or detached, nothing that was queued
  before and nothing of a call that was made before is mixed any more.
  */
  lemma {:induction false} FlushedSamplesAreNeverMixed(s: System, e: Event, c: nat, events: seq<Event>)
    requires Inv(s) && c in s.mixer.clients
    requires e == ClearClient(c) || e == DetachClient(c)
    ensures Inv(Step(s, e))
    ensures var s' := Run(Step(s, e), events);
            && c in s'.journals
            && s.journals[c].mixed <= s'.journals[c].mixed
            && forall i | |s.journals[c].mixed| <= i < |s'.journals[c].mixed| ::
                 s'.journals[c].mixed[i].call >= s.nextCall
  {
    FlushIsolates(s, e, c);
    JournalStep(s, e, c);
    RunKeepsIsolated(Step(s, e), events, c, s.nextCall, |s.journals[c].mixed|);
  }

  lemma {:induction false} RunKeepsIsolated(s: System, events: seq<Event>, c: nat, first: nat, from: nat)
    requires Inv(s) && Isolated(s, c, first, from)
    ensures Isolated(Run(s, events), c, first, from)
    ensures s.journals[c].mixed <= Run(s, events).journals[c].mixed
    decreases |events|
  {
    if events != [] {
      StepKeepsIsolated(s, events[0], c, first, from);
      JournalStep(s, events[0], c);
      RunKeepsIsolated(Step(s, events[0]), events[1..], c, first, from);
    }
  }

  // ----- nothing else is lost -----

  ghost predicate NeverFlushed(events: seq<Event>, c: nat) {
    forall i | 0 <= i < |events| :: events[i] != ClearClient(c) && events[i] != DetachClient(c)
  }

  /** What was mixed after `j`, and what is still queued in `j'`, is what `j` had queued and what came later. */
  ghost predicate InOrder(j: Journal, j': Journal) {
    && j.mixed <= j'.mixed && j.log <= j'.log && j.head <= |j.log| && j'.head <= |j'.log|
    && j'.mixed[|j.mixed|..] + j'.log[j'.head..] == j.log[j.head..] + j'.log[|j.log|..]
  }

  lemma InOrderStep(s: System, e: Event, c: nat)
    requires Inv(s) && c in s.mixer.clients && e != ClearClient(c) && e != DetachClient(c)
    ensures c in Step(s, e).journals && InOrder(s.journals[c], Step(s, e).journals[c])
  {
    JournalStep(s, e, c);
    var (j, j') := (s.journals[c], Step(s, e).journals[c]);
    assert JournalOk(s, c, j);
    if e.WritePeriod? {
      TakingIsInOrder(j, j');
    } else {
      LoggingIsInOrder(j, j');
    }
  }

  lemma TakingIsInOrder(j: Journal, j': Journal)
    requires j.head <= j'.head <= |j.log| && j'.log == j.log && j'.mixed == j.mixed + j.log[j.head..j'.head]
    ensures InOrder(j, j')
  {
    assert j'.mixed[|j.mixed|..] == j.log[j.head..j'.head];
    assert j.log[j.head..j'.head] + j.log[j'.head..] == j.log[j.head..];
  }

  lemma LoggingIsInOrder(j: Journal, j': Journal)
    requires j.head == j'.head <= |j.log| && j.log <= j'.log && j'.mixed == j.mixed
    ensures InOrder(j, j')
  {
    assert j'.log[j.head..] == j.log[j.head..] + j'.log[|j.log|..];
  }

  lemma InOrderTransitive(j0: Journal, j1: Journal, j2: Journal)
    requires InOrder(j0, j1) && InOrder(j1, j2)
    ensures InOrder(j0, j2)
  {
    var (m, q) := (j1.mixed[|j0.mixed|..], j1.log[j1.head..]);
    var (m', q') := (j2.mixed[|j1.mixed|..], j2.log[j2.head..]);
    var (a, a') := (j1.log[|j0.log|..], j2.log[|j1.log|..]);
    calc {
      j2.mixed[|j0.mixed|..] + q';
    == { assert j2.mixed[|j0.mixed|..] == m + m'; }
      m + m' + q';
    == { assert m + m' + q' == m + (m' + q'); }
      m + (q + a');
    == { assert m + (q + a') == (m + q) + a'; }
      j0.log[j0.head..] + a + a';
    == { assert j2.log[|j0.log|..] == a + a'; assert j0.log[j0.head..] + a + a' == j0.log[j0.head..] + (a + a'); }
      j0.log[j0.head..] + j2.log[|j0.log|..];
    }
  }

  /**
  Without a flush, every sample queued now or copied later is mixed or still queued, in the order in
  which it entered the ring, however the other clients and the writer interleave.
  */
  lemma {:induction false} UnflushedSamplesAreMixedInOrder(s: System, events: seq<Event>, c: nat)
    requires Inv(s) && c in s.mixer.clients && NeverFlushed(events, c)
    ensures c in Run(s, events).mixer.clients && c in Run(s, events).journals
    ensures InOrder(s.journals[c], Run(s, events).journals[c])
    decreases |events|
  {
    if events == [] {
      assert JournalOk(s, c, s.journals[c]);
    } else {
      StepKeepsInv(s, events[0]);
      InOrderStep(s, events[0], c);
      ClientStays(s, events[0], c);
      UnflushedSamplesAreMixedInOrder(Step(s, events[0]), events[1..], c);
      InOrderTransitive(s.journals[c], Step(s, events[0]).journals[c], Run(s, events).journals[c]);
    }
  }

  lemma ClientStays(s: System, e: Event, c: nat)
    requires Inv(s) && c in s.mixer.clients && e != DetachClient(c)
    ensures c in Step(s, e).mixer.clients
  {
    if Admits(s, e) {
      CallEnters(s, e);
    }
  }

  // ----- how soon a sample is taken -----

  function Periods(events: seq<Event>): nat {
    if events == [] then 0 else (if events[0].WritePeriod? then 1 else 0) + Periods(events[1..])
  }

  function Queued(s: System, c: nat): nat {
    if c in s.journals && s.journals[c].head <= |s.journals[c].log| then |s.journals[c].log| - s.journals[c].head else 0
  }

  function MixedLength(s: System, c: nat): nat {
    if c in s.journals then |s.journals[c].mixed| else 0
  }

  lemma StepTakes(s: System, e: Event, c: nat)
    requires Inv(s) && c in s.mixer.clients && e != ClearClient(c) && e != DetachClient(c)
    ensures var n := if e.WritePeriod? then Min(PERIOD, Queued(s, c)) else 0;
            MixedLength(Step(s, e), c) == MixedLength(s, c) + n && Queued(Step(s, e), c) >= Queued(s, c) - n
  {
    JournalStep(s, e, c);
    assert JournalOk(s, c, s.journals[c]) && QueueIsLog(s, c);
    if e.WritePeriod? {
      PeriodKeepsQueue(s, e.audible, c);
    }
  }

  /** Each period takes 480 samples, or all that are left of those queued at the start. */
  lemma {:induction false} PeriodsTake(s: System, events: seq<Event>, c: nat)
    requires Inv(s) && c in s.mixer.clients && NeverFlushed(events, c)
    ensures MixedLength(Run(s, events), c) - MixedLength(s, c) >= Min(Queued(s, c), PERIOD * Periods(events))
    decreases |events|
  {
    if events != [] {
      StepKeepsInv(s, events[0]);
      ClientStays(s, events[0], c);
      StepTakes(s, events[0], c);
      PeriodsTake(Step(s, events[0]), events[1..], c);
    }
  }

  /**
  The sample at depth `d` of a ring that is not flushed is taken by the writer within d / 480 + 1 periods
  (the smallest number k with d < 480 k), and it is the next but `d` of those taken.
  */
  lemma QueuedSamplesAreTaken(s: System, events: seq<Event>, c: nat, d: nat)
    requires Inv(s) && c in s.mixer.clients && NeverFlushed(events, c)
    requires d < |s.mixer.clients[c].pending| && d < PERIOD * Periods(events)
    ensures c in s.journals && c in Run(s, events).journals
    ensures TakenInTurn(s.journals[c], Run(s, events).journals[c], d)
  {
    QueuedIsPending(s, c);
    UnflushedSamplesAreMixedInOrder(s, events, c);
    PeriodsTake(s, events, c);
    InOrderAt(s.journals[c], Run(s, events).journals[c], d);
  }

  /** The sample `d` places behind the cursor has since been taken, after `d` others. */
  predicate TakenInTurn(j: Journal, j': Journal, d: nat) {
    j.head + d < |j.log| && |j.mixed| + d < |j'.mixed| && j'.mixed[|j.mixed| + d] == j.log[j.head + d]
  }

  lemma QueuedIsPending(s: System, c: nat)
    requires Inv(s) && c in s.mixer.clients
    ensures c in s.journals && s.journals[c].head <= |s.journals[c].log|
    ensures Queued(s, c) == |s.mixer.clients[c].pending|
  {
    assert JournalOk(s, c, s.journals[c]) && QueueIsLog(s, c);
  }

  lemma InOrderAt(j: Journal, j': Journal, d: nat)
    requires InOrder(j, j') && j.head + d < |j.log| && |j.mixed| + d < |j'.mixed|
    ensures TakenInTurn(j, j', d)
  {
    assert (j'.mixed[|j.mixed|..] + j'.log[j'.head..])[d] == j'.mixed[|j.mixed| + d];
    assert (j.log[j.head..] + j'.log[|j.log|..])[d] == j.log[j.head + d];
  }

  // ----- each call is queued as a prefix of its input -----

  /** The part of a log that comes from one call. */
  function OfCall(log: seq<Tag>, id: nat): seq<Tag> {
    if log == [] then []
    else OfCall(log[..|log| - 1], id) + if log[|log| - 1].call == id then [log[|log| - 1]] else []
  }

  lemma {:induction false} OfCallAppend(log: seq<Tag>, id: nat, call: nat, from: nat, end: nat)
    requires from <= end
    ensures OfCall(log + Tags(call, from, end), id) == OfCall(log, id) + if call == id then Tags(id, from, end) else []
    decreases end
  {
    if from == end {
      assert log + Tags(call, from, end) == log;
    } else {
      var longer := log + Tags(call, from, end);
      assert longer[..|longer| - 1] == log + Tags(call, from, end - 1);
      assert longer[|longer| - 1] == Tag(call, end - 1);
      OfCallAppend(log, id, call, from, end - 1);
      assert Tags(call, from, end) == Tags(call, from, end - 1) + [Tag(call, end - 1)];
    }
  }

  /** In its client's log a call has left exactly its first `copied` samples, in input order. */
  ghost predicate CallsArePrefixes(s: System)
    requires Inv(s)
  {
    forall id | id in s.calls ::
      && s.calls[id].producer.client in s.journals
      && OfCall(s.journals[s.calls[id].producer.client].log, id) == Tags(id, 0, s.calls[id].producer.copied)
  }

  lemma RunCallKeepsPrefix(s: System, id: nat, p: Producer, k: nat)
    requires Inv(s) && CallsArePrefixes(s) && Runnable(s, id, p) && Fits(s.mixer, p)
    requires id !in s.calls ==> OfCall(s.journals[p.client].log, id) == []
    requires k in RunCall(s, id, p).calls
    ensures var s' := RunCall(s, id, p);
            && s'.calls[k].producer.client in s'.journals
            && OfCall(s'.journals[s'.calls[k].producer.client].log, k) == Tags(k, 0, s'.calls[k].producer.copied)
  {
    AdmittedSamples(s.mixer, p);
    var end := Admit(s.mixer, p).producer.copied;
    var log := s.journals[p.client].log;
    if k == id {
      assert OfCall(log, id) == Tags(id, 0, p.copied);
      PrefixGrows(log, id, id, p.copied, end);
    } else if s.calls[k].producer.client == p.client {
      PrefixGrows(log, k, id, p.copied, end);
    }
  }

  lemma PrefixGrows(log: seq<Tag>, k: nat, id: nat, from: nat, end: nat)
    requires from <= end && (k == id ==> OfCall(log, id) == Tags(id, 0, from))
    ensures OfCall(log + Tags(id, from, end), k) == if k == id then Tags(id, 0, end) else OfCall(log, k)
  {
    OfCallAppend(log, k, id, from, end);
    if k == id {
      assert Tags(id, 0, end) == Tags(id, 0, from) + Tags(id, from, end);
    }
  }

  lemma RunCallKeepsPrefixes(s: System, id: nat, p: Producer)
    requires Inv(s) && CallsArePrefixes(s) && Runnable(s, id, p) && Fits(s.mixer, p)
    requires id !in s.calls ==> OfCall(s.journals[p.client].log, id) == []
    ensures Inv(RunCall(s, id, p)) && CallsArePrefixes(RunCall(s, id, p))
  {
    RunCallKeepsInv(s, id, p);
    forall k | k in RunCall(s, id, p).calls {
      RunCallKeepsPrefix(s, id, p, k);
    }
  }

  lemma {:induction false} UnusedCall(s: System, log: seq<Tag>)
    requires forall i | 0 <= i < |log| :: log[i].call < s.nextCall
    ensures OfCall(log, s.nextCall) == []
  {
    if log != [] {
      UnusedCall(s, log[..|log| - 1]);
    }
  }

  lemma StepKeepsPrefixes(s: System, e: Event)
    requires Inv(s) && CallsArePrefixes(s)
    ensures Inv(Step(s, e)) && CallsArePrefixes(Step(s, e))
  {
    StepKeepsInv(s, e);
    if Admits(s, e) {
      CallEnters(s, e);
      var c := Caller(s, e).client;
      assert JournalOk(s, c, s.journals[c]);
      UnusedCall(s, s.journals[c].log);
      RunCallKeepsPrefixes(Opened(s, e), CallId(s, e), Caller(s, e));
    }
  }

  /** In every reachable state, whatever producers share a client, no call is reordered or torn apart. */
  lemma {:induction false} EveryCallIsAPrefix(s: System, events: seq<Event>)
    requires Inv(s) && CallsArePrefixes(s)
    ensures CallsArePrefixes(Run(s, events))
    decreases |events|
  {
    if events != [] {
      StepKeepsPrefixes(s, events[0]);
      EveryCallIsAPrefix(Step(s, events[0]), events[1..]);
    }
  }
}
