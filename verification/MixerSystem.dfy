/**
Producers, clients and the writer interleaved. A system state pairs the mixer with the calls in
flight and with observations nothing in the mixer depends on: for every client ever attached an
unbounded journal of the samples that entered its ring, each tagged with the call and the input
position it came from, and for every period what the PCM was given.
*/
module MixerSystem {
  import opened MixerModel

  /** The origin of a queued sample: position `index` of the input of call `call`. */
  datatype Tag = Tag(call: nat, index: nat)

  /** How one period, or a flush, went for a client. */
  datatype Mark = Fed | Starved(frames: nat) | Flushed

  /** All samples that ever entered a client's ring, the first one still queued, and those mixed. */
  datatype Journal = Journal(log: seq<Tag>, head: nat, mixed: seq<Tag>, marks: seq<Mark>)

  datatype Call = Call(producer: Producer, waiting: bool)

  /** What the PCM got in one period; from offset `filled` on no client had a sample left. */
  datatype PeriodRecord = PeriodRecord(audible: bool, output: seq<int>, filled: nat)

  datatype System = System(
    mixer: MixerState,
    calls: map<nat, Call>, nextCall: nat,
    journals: map<nat, Journal>,
    submitted: nat, taken: nat,
    periods: seq<PeriodRecord>)

  datatype Event =
    | AttachClient
    | DetachClient(client: nat)
    | ClearClient(client: nat)
    | Enqueue(client: nat, samples: seq<Sample16>)
    | Wake(call: nat)
    | WritePeriod(audible: bool)
    | Shutdown

  function Start(): System {
    System(Initial(), map[], 0, map[], 0, 0, [])
  }

  /** One critical section, by whichever thread holds the lock next. */
  function Step(s: System, e: Event): System
    requires Inv(s)
  {
    assert Admits(s, e) && e.Wake? ==> CallOk(s, s.calls[e.call]);
    match e
    case AttachClient =>
      s.(mixer := Attach(s.mixer), journals := s.journals[s.mixer.next := Journal([], 0, [], [])])
    case DetachClient(c) =>
      if c in s.mixer.clients then
        s.(mixer := Detach(s.mixer, c), journals := s.journals[c := Emptied(s.journals[c], [])])
      else s
    case ClearClient(c) =>
      if c in s.mixer.clients then
        s.(mixer := Clear(s.mixer, c), journals := s.journals[c := Emptied(s.journals[c], [Flushed])])
      else s
    case Enqueue(_, _) =>
      if Admits(s, e) then RunCall(Opened(s, e), CallId(s, e), Caller(s, e)) else s
    case Wake(_) =>
      if Admits(s, e) then RunCall(Opened(s, e), CallId(s, e), Caller(s, e)) else s
    case WritePeriod(audible) =>
      s.(mixer := Period(s.mixer, audible),
         journals := map c | c in s.journals ::
           if c in s.mixer.clients then Advanced(s.journals[c], s.mixer.clients[c], audible) else s.journals[c],
         taken := s.taken + PartialSum(TakenFrames(s.mixer), s.mixer.next),
         periods := s.periods + [PeriodRecord(audible, Output(s.mixer, audible), Longest(s.mixer, s.mixer.next))])
    case Shutdown => s.(mixer := s.mixer.(running := false))
  }

  /** Whether the event lets a call into the copying loop: a new one, or one whose wait is over. */
  predicate Admits(s: System, e: Event) {
    match e
    case Enqueue(c, _) => c in s.mixer.clients
    case Wake(id) => id in s.calls && s.calls[id].waiting && Wakeable(s.mixer, s.calls[id].producer)
    case _ => false
  }

  function CallId(s: System, e: Event): nat
    requires Admits(s, e)
  {
    if e.Enqueue? then s.nextCall else e.call
  }

  function Caller(s: System, e: Event): Producer
    requires Admits(s, e)
  {
    if e.Enqueue? then Producer(e.client, s.mixer.clients[e.client].generation, e.samples, 0)
    else s.calls[e.call].producer
  }

  /** A new call is numbered and its frames count as submitted. */
  function Opened(s: System, e: Event): System
    requires Admits(s, e)
  {
    if e.Enqueue? then s.(nextCall := s.nextCall + 1, submitted := s.submitted + Caller(s, e).Total() / 2) else s
  }

  /** Call `id` holds the lock: it copies what fits, gives up, or goes back to waiting. */
  function RunCall(s: System, id: nat, p: Producer): System
    requires Fits(s.mixer, p) && p.client in s.journals
  {
    var a := Admit(s.mixer, p);
    var j := s.journals[p.client];
    s.(mixer := a.mixer,
       calls := s.calls[id := Call(a.producer, a.waiting)],
       journals := s.journals[p.client := j.(log := j.log + Tags(id, p.copied, a.producer.copied))])
  }

  function Tags(call: nat, from: nat, to: nat): (r: seq<Tag>)
    ensures |r| == if from <= to then to - from else 0
  {
    if from <= to then seq(to - from, i requires 0 <= i < to - from => Tag(call, from + i)) else []
  }

  /** Everything queued is dropped. */
  function Emptied(j: Journal, marks: seq<Mark>): Journal {
    j.(head := |j.log|, marks := j.marks + marks)
  }

  /** The writer takes the next samples. */
  function Advanced(j: Journal, q: QueueState, audible: bool): Journal {
    var to := Min(j.head + Taken(q), |j.log|);
    j.(head := to,
       mixed := j.mixed + (if j.head <= to then j.log[j.head..to] else []),
       marks := j.marks + [if Starves(q, audible) then Starved(Missing(q, audible)) else Fed])
  }

  function TakenFrames(m: MixerState): map<nat, nat> {
    map c | c in m.clients :: Taken(m.clients[c]) / 2
  }

  /** The longest stretch any client below `n` supplies in a period. */
  function Longest(m: MixerState, n: nat): nat {
    if n == 0 then 0
    else
      var rest := Longest(m, n - 1);
      if n - 1 in m.clients && Taken(m.clients[n - 1]) > rest then Taken(m.clients[n - 1]) else rest
  }

  function Run(s: System, events: seq<Event>): System
    requires Inv(s)
    ensures Inv(Run(s, events))
    decreases |events|
  {
    if events == [] then s
    else
      StepKeepsInv(s, events[0]);
      Run(Step(s, events[0]), events[1..])
  }

  // ----- the structural invariant -----

  /** The 32-bit sample a tag stands for. */
  function Value(calls: map<nat, Call>, t: Tag): int {
    if t.call in calls && t.index < |calls[t.call].producer.input| then
      calls[t.call].producer.input[t.index] * SCALE
    else 0
  }

  function Values(calls: map<nat, Call>, tags: seq<Tag>): (r: seq<int>)
    ensures |r| == |tags|
  {
    seq(|tags|, i requires 0 <= i < |tags| => Value(calls, tags[i]))
  }

  ghost predicate CallOk(s: System, k: Call) {
    var p := k.producer;
    && p.copied <= p.Total() && p.copied % 2 == 0
    && p.client in s.journals
    && (p.client in s.mixer.clients ==> p.generation <= s.mixer.clients[p.client].generation)
    && (k.waiting ==> p.copied < p.Total())
  }

  /** Every tag in a client's journal names a sample some call to that client has copied. */
  ghost predicate JournalOk(s: System, c: nat, j: Journal) {
    && j.head <= |j.log|
    && (forall i | 0 <= i < |j.log| ::
          && j.log[i].call in s.calls
          && s.calls[j.log[i].call].producer.client == c
          && j.log[i].index < s.calls[j.log[i].call].producer.copied)
  }

  /** The ring of an attached client holds exactly the part of its journal from the cursor on. */
  ghost predicate QueueIsLog(s: System, c: nat)
    requires c in s.mixer.clients && c in s.journals && s.journals[c].head <= |s.journals[c].log|
  {
    s.mixer.clients[c].pending == Values(s.calls, s.journals[c].log[s.journals[c].head..])
  }

  ghost predicate ClientsOk(s: System) {
    && s.mixer.clients.Keys <= s.journals.Keys
    && (forall c | c in s.journals :: c < s.mixer.next)
  }

  ghost predicate CallsOk(s: System) {
    forall id | id in s.calls :: id < s.nextCall && CallOk(s, s.calls[id])
  }

  ghost predicate JournalsOk(s: System) {
    forall c | c in s.journals :: JournalOk(s, c, s.journals[c])
  }

  ghost predicate QueuesAreLogs(s: System)
    requires ClientsOk(s) && JournalsOk(s)
  {
    forall c | c in s.mixer.clients :: QueueIsLog(s, c)
  }

  ghost predicate Inv(s: System) {
    WellFormed(s.mixer) && ClientsOk(s) && CallsOk(s) && JournalsOk(s) && QueuesAreLogs(s)
  }

  // ----- every step keeps it -----

  /** A call that may take the lock next. */
  ghost predicate Runnable(s: System, id: nat, p: Producer) {
    && id < s.nextCall
    && CallOk(s, Call(p, false))
    && (if id in s.calls then s.calls[id].producer == p else p.copied == 0)
  }

  lemma AdmittedSamples(m: MixerState, p: Producer)
    requires Fits(m, p)
    ensures var a := Admit(m, p);
            && p.copied <= a.producer.copied <= p.Total() <= |p.input|
            && a.producer == p.(copied := a.producer.copied)
            && (a.waiting ==> a.producer.copied < p.Total())
            && a.mixer.clients.Keys == m.clients.Keys
            && a.mixer == m.(clients := a.mixer.clients, stats := a.mixer.stats)
            && (forall c | c in m.clients && c != p.client :: a.mixer.clients[c] == m.clients[c])
            && (p.client in m.clients ==>
                  a.mixer.clients[p.client] == Appended(m.clients[p.client], p.input[p.copied..a.producer.copied]))
            && (p.client !in m.clients ==> a.producer.copied == p.copied)
  {
    var a := Admit(m, p);
    if p.client in m.clients && a.producer.copied == p.copied {
      assert p.input[p.copied..p.copied] == [];
      assert a.mixer.clients == m.clients;
    }
  }

  /** Whole frames in, whole frames out: a pass copies an even number of samples. */
  lemma EvenPass(m: MixerState, p: Producer)
    requires WellFormed(m) && Fits(m, p) && p.copied % 2 == 0
    ensures Admit(m, p).producer.copied % 2 == 0
    ensures p.client in m.clients ==> QueueOk(Admit(m, p).mixer.clients[p.client])
  {
    AdmittedSamples(m, p);
  }

  /** The values of an extended journal, read with the calls as they are afterwards. */
  lemma ValuesAppend(calls: map<nat, Call>, calls': map<nat, Call>, tags: seq<Tag>, id: nat, from: nat, to: nat)
    requires id in calls' && from <= to <= |calls'[id].producer.input|
    requires forall t | t in tags :: t.call in calls && t.call in calls'
               && calls'[t.call].producer.input == calls[t.call].producer.input
    ensures Values(calls', tags + Tags(id, from, to))
         == Values(calls, tags) + Scaled(calls'[id].producer.input[from..to])
  {
  }

  lemma RunCallKeepsCalls(s: System, id: nat, p: Producer)
    requires Inv(s) && Runnable(s, id, p) && Fits(s.mixer, p)
    ensures var s' := RunCall(s, id, p); WellFormed(s'.mixer) && ClientsOk(s') && CallsOk(s')
  {
    AdmittedSamples(s.mixer, p);
    EvenPass(s.mixer, p);
  }

  lemma RunCallKeepsJournals(s: System, id: nat, p: Producer)
    requires Inv(s) && Runnable(s, id, p) && Fits(s.mixer, p)
    ensures JournalsOk(RunCall(s, id, p))
  {
    AdmittedSamples(s.mixer, p);
    var s' := RunCall(s, id, p);
    forall c | c in s'.journals
      ensures JournalOk(s', c, s'.journals[c])
    {
      assert JournalOk(s, c, s.journals[c]);
    }
  }

  /** Values do not depend on how far calls have come, only on their inputs. */
  lemma ValuesSame(calls: map<nat, Call>, calls': map<nat, Call>, tags: seq<Tag>)
    requires forall t | t in tags :: t.call in calls && t.call in calls'
               && calls'[t.call].producer.input == calls[t.call].producer.input
    ensures Values(calls', tags) == Values(calls, tags)
  {
  }

  lemma RunCallKeepsQueue(s: System, id: nat, p: Producer, c: nat)
    requires Inv(s) && Runnable(s, id, p) && Fits(s.mixer, p)
    requires c in s.mixer.clients
    ensures var s' := RunCall(s, id, p);
            && c in s'.mixer.clients
            && s'.mixer.clients[c].pending == Values(s'.calls, s'.journals[c].log[s'.journals[c].head..])
  {
    var a := Admit(s.mixer, p);
    var calls' := s.calls[id := Call(a.producer, a.waiting)];
    AdmittedSamples(s.mixer, p);
    var j := s.journals[c];
    var queued := j.log[j.head..];
    assert QueueIsLog(s, c) && JournalOk(s, c, j);
    if c == p.client {
      var added := Tags(id, p.copied, a.producer.copied);
      assert (j.log + added)[j.head..] == queued + added;
      ValuesAppend(s.calls, calls', queued, id, p.copied, a.producer.copied);
    } else {
      ValuesSame(s.calls, calls', queued);
    }
  }

  lemma RunCallKeepsInv(s: System, id: nat, p: Producer)
    requires Inv(s) && Runnable(s, id, p) && Fits(s.mixer, p)
    ensures Inv(RunCall(s, id, p))
  {
    var s' := RunCall(s, id, p);
    RunCallKeepsCalls(s, id, p);
    RunCallKeepsJournals(s, id, p);
    AdmittedSamples(s.mixer, p);
    forall c | c in s'.mixer.clients
      ensures QueueIsLog(s', c)
    {
      RunCallKeepsQueue(s, id, p, c);
    }
  }

  lemma AttachKeepsInv(s: System)
    requires Inv(s)
    ensures Inv(Step(s, AttachClient))
  {
    var s' := Step(s, AttachClient);
    forall c | c in s'.journals
      ensures JournalOk(s', c, s'.journals[c])
    {
      assert c in s.journals ==> JournalOk(s, c, s.journals[c]);
    }
    forall c | c in s'.mixer.clients
      ensures s'.mixer.clients[c].pending == Values(s'.calls, s'.journals[c].log[s'.journals[c].head..])
    {
      assert c in s.mixer.clients ==> QueueIsLog(s, c);
    }
  }

  lemma EmptyingKeepsInv(s: System, e: Event)
    requires Inv(s) && (e.DetachClient? || e.ClearClient?)
    ensures Inv(Step(s, e))
  {
    var s' := Step(s, e);
    forall c | c in s'.journals
      ensures JournalOk(s', c, s'.journals[c])
    {
      assert JournalOk(s, c, s.journals[c]);
    }
    forall c | c in s'.mixer.clients
      ensures s'.mixer.clients[c].pending == Values(s'.calls, s'.journals[c].log[s'.journals[c].head..])
    {
      assert QueueIsLog(s, c);
    }
  }

  /** Taking a period moves the cursor of the journal by what was taken from the ring. */
  lemma PeriodKeepsQueue(s: System, audible: bool, c: nat)
    requires Inv(s) && c in s.mixer.clients
    ensures var (q, j) := (s.mixer.clients[c], s.journals[c]);
            var j' := Advanced(j, q, audible);
            && j.head + Taken(q) == j'.head <= |j.log|
            && QueueOk(Drained(q, audible))
            && Drained(q, audible).pending == Values(s.calls, j.log[j'.head..])
            && j'.mixed == j.mixed + j.log[j.head..j'.head]
  {
    assert QueueIsLog(s, c) && QueueOk(s.mixer.clients[c]) && JournalOk(s, c, s.journals[c]);
    var n := Taken(s.mixer.clients[c]);
    var j := s.journals[c];
    assert |j.log[j.head..]| == |s.mixer.clients[c].pending|;
    assert j.log[j.head..][n..] == j.log[j.head + n..];
  }

  lemma PeriodKeepsInv(s: System, audible: bool)
    requires Inv(s)
    ensures Inv(Step(s, WritePeriod(audible)))
  {
    var s' := Step(s, WritePeriod(audible));
    forall c | c in s'.mixer.clients
      ensures QueueOk(s'.mixer.clients[c])
      ensures s'.journals[c].head <= |s'.journals[c].log|
      ensures s'.mixer.clients[c].pending == Values(s'.calls, s'.journals[c].log[s'.journals[c].head..])
    {
      PeriodKeepsQueue(s, audible, c);
    }
    forall c | c in s'.journals
      ensures JournalOk(s', c, s'.journals[c])
    {
      assert JournalOk(s, c, s.journals[c]);
    }
  }

  /** What every proof needs to know about a call entering the loop. */
  lemma CallEnters(s: System, e: Event)
    requires Inv(s) && Admits(s, e)
    ensures var (id, p, s1) := (CallId(s, e), Caller(s, e), Opened(s, e));
            && Inv(s1) && Runnable(s1, id, p) && Fits(s.mixer, p) && p.client in s.journals
            && Step(s, e) == RunCall(s1, id, p)
            && var (a, s') := (Admit(s.mixer, p), Step(s, e));
            && a.producer == p.(copied := a.producer.copied)
            && p.copied <= a.producer.copied <= p.Total() <= |p.input|
            && s'.mixer.next == s.mixer.next
            && s'.mixer.clients.Keys == s.mixer.clients.Keys
            && (forall c | c in s.mixer.clients :: s'.mixer.clients[c].generation == s.mixer.clients[c].generation)
            && s'.mixer.running == s.mixer.running
            && s'.calls == s.calls[id := Call(a.producer, a.waiting)]
            && (Canceled(s.mixer, p) || p.copied == p.Total() ==> a.producer.copied == p.copied && !a.waiting)
  {
    var p := Caller(s, e);
    if e.Wake? {
      assert CallOk(s, s.calls[e.call]);
    } else {
      assert forall c | c in s.mixer.clients :: QueueIsLog(s, c) ==> QueueIsLog(Opened(s, e), c);
    }
    AdmittedSamples(s.mixer, p);
  }

  lemma StepKeepsInv(s: System, e: Event)
    requires Inv(s)
    ensures Inv(Step(s, e))
  {
    if Admits(s, e) {
      CallEnters(s, e);
      RunCallKeepsInv(Opened(s, e), CallId(s, e), Caller(s, e));
    } else {
      match e
      case AttachClient => AttachKeepsInv(s);
      case WritePeriod(audible) => PeriodKeepsInv(s, audible);
      case DetachClient(_) => EmptyingKeepsInv(s, e);
      case ClearClient(_) => EmptyingKeepsInv(s, e);
      case Shutdown =>
        assert forall c | c in s.mixer.clients :: QueueIsLog(s, c) ==> QueueIsLog(Step(s, e), c);
      case _ =>
    }
  }
}
