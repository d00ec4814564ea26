/** Where every submitted frame is, and what the starvation counters count, in every reachable state. */
module MixerLedger {
  import opened Sums
  import opened MixerModel
  import opened MixerSystem

  // ----- conservation of frames -----

  /** The frames each call still holds back while it waits. */
  function Tails(calls: map<nat, Call>): map<nat, nat> {
    map id | id in calls :: if calls[id].waiting then calls[id].producer.TailFrames() else 0
  }

  /**
  Every frame handed to an attached client was taken by the writer, is queued, was counted as canceled,
  or is in the uncopied tail of a waiting call.
  */
  ghost predicate Balanced(s: System) {
    s.submitted == s.taken + Sum(QueuedFrames(s.mixer), s.mixer.next)
                 + s.mixer.stats.canceledFrames + Sum(Tails(s.calls), s.nextCall)
  }

  /** One call moves frames out of its tail, into the ring or into the canceled frames. */
  lemma CallMovesFrames(m: MixerState, p: Producer)
    requires WellFormed(m) && Fits(m, p) && p.copied % 2 == 0
    ensures var a := Admit(m, p);
            p.TailFrames() == At(QueuedFrames(a.mixer), p.client) - At(QueuedFrames(m), p.client)
                            + a.mixer.stats.canceledFrames - m.stats.canceledFrames
                            + if a.waiting then a.producer.TailFrames() else 0
  {
    AdmittedSamples(m, p);
    EvenPass(m, p);
    assert p.client in m.clients ==> QueueOk(m.clients[p.client]);
  }

  lemma CallKeepsBalance(s: System, e: Event)
    requires Inv(s) && Balanced(s) && Admits(s, e)
    ensures Balanced(Step(s, e))
  {
    CallEnters(s, e);
    var (id, p, s') := (CallId(s, e), Caller(s, e), Step(s, e));
    CallMovesFrames(s.mixer, p);
    CallKeepsOtherQueues(s.mixer, p);
    SumChange(Tails(s'.calls), Tails(s.calls), id, s'.nextCall);
    if e.Enqueue? {
      assert At(Tails(s.calls), id) == 0;
    }
  }

  lemma CallKeepsOtherQueues(m: MixerState, p: Producer)
    requires WellFormed(m) && Fits(m, p)
    ensures var a := Admit(m, p);
            Sum(QueuedFrames(a.mixer), m.next) - Sum(QueuedFrames(m), m.next)
            == At(QueuedFrames(a.mixer), p.client) - At(QueuedFrames(m), p.client)
  {
    AdmittedSamples(m, p);
    SumChange(QueuedFrames(Admit(m, p).mixer), QueuedFrames(m), p.client, m.next);
  }

  lemma EmptyingKeepsBalance(s: System, e: Event)
    requires Inv(s) && Balanced(s) && (e.DetachClient? || e.ClearClient?)
    ensures Balanced(Step(s, e))
  {
    if e.client in s.mixer.clients {
      SumChange(QueuedFrames(Step(s, e).mixer), QueuedFrames(s.mixer), e.client, s.mixer.next);
    }
  }

  lemma ClientDrains(m: MixerState, audible: bool, c: nat)
    requires WellFormed(m)
    ensures At(QueuedFrames(m), c) == At(QueuedFrames(Period(m, audible)), c) + At(TakenFrames(m), c)
  {
    if c in m.clients {
      assert QueueOk(m.clients[c]);
      assert QueuedFrames(Period(m, audible))[c] == |Drained(m.clients[c], audible).pending| / 2;
    }
  }

  lemma DrainMovesFrames(m: MixerState, audible: bool)
    requires WellFormed(m)
    ensures Sum(QueuedFrames(m), m.next) == Sum(QueuedFrames(Period(m, audible)), m.next) + Sum(TakenFrames(m), m.next)
  {
    var m' := Period(m, audible);
    forall c: nat | c < m.next
      ensures At(QueuedFrames(m), c) == At(QueuedFrames(m'), c) + At(TakenFrames(m), c)
    {
      ClientDrains(m, audible, c);
    }
    SumAdd(QueuedFrames(m), QueuedFrames(m'), TakenFrames(m), m.next);
  }

  lemma PeriodKeepsBalance(s: System, audible: bool)
    requires Inv(s) && Balanced(s)
    ensures Balanced(Step(s, WritePeriod(audible)))
  {
    DrainMovesFrames(s.mixer, audible);
  }

  lemma StepKeepsBalance(s: System, e: Event)
    requires Inv(s) && Balanced(s)
    ensures Balanced(Step(s, e))
  {
    if Admits(s, e) {
      CallKeepsBalance(s, e);
    } else {
      match e
      case AttachClient =>
        var n := s.mixer.next;
        SumChange(QueuedFrames(Step(s, e).mixer), QueuedFrames(s.mixer), n, n + 1);
        assert At(QueuedFrames(s.mixer), n) == 0;
      case DetachClient(_) => EmptyingKeepsBalance(s, e);
      case ClearClient(_) => EmptyingKeepsBalance(s, e);
      case WritePeriod(audible) => PeriodKeepsBalance(s, audible);
      case _ =>
    }
  }

  /** Conservation, over every interleaving of producers, flushes, detaches, mutes and writer periods. */
  lemma {:induction false} FramesAreConserved(s: System, events: seq<Event>)
    requires Inv(s) && Balanced(s)
    ensures Balanced(Run(s, events))
    decreases |events|
  {
    if events != [] {
      StepKeepsBalance(s, events[0]);
      StepKeepsInv(s, events[0]);
      FramesAreConserved(Step(s, events[0]), events[1..]);
    }
  }

  // ----- starvation statistics -----

  /** The positions at which a run of starved periods begins. */
  ghost function RunStarts(marks: seq<Mark>): set<nat> {
    set k: nat {:trigger marks[k]} | k < |marks| && marks[k].Starved? && (k == 0 || !marks[k - 1].Starved?)
  }

  function StarvedFrames(marks: seq<Mark>): nat {
    if marks == [] then 0
    else
      var last := marks[|marks| - 1];
      StarvedFrames(marks[..|marks| - 1]) + if last.Starved? then last.frames else 0
  }

  predicate EndsStarved(marks: seq<Mark>) {
    marks != [] && marks[|marks| - 1].Starved?
  }

  lemma RunStartsAppend(marks: seq<Mark>, m: Mark)
    ensures |RunStarts(marks + [m])| == |RunStarts(marks)| + if m.Starved? && !EndsStarved(marks) then 1 else 0
    ensures StarvedFrames(marks + [m]) == StarvedFrames(marks) + if m.Starved? then m.frames else 0
    ensures EndsStarved(marks + [m]) == m.Starved?
  {
    var longer := marks + [m];
    assert longer[..|longer| - 1] == marks;
    if m.Starved? && !EndsStarved(marks) {
      assert RunStarts(longer) == RunStarts(marks) + {|marks|};
    } else {
      assert RunStarts(longer) == RunStarts(marks);
    }
  }

  ghost function RunCounts(journals: map<nat, Journal>): map<nat, int> {
    map c | c in journals :: |RunStarts(journals[c].marks)|
  }

  function FrameCounts(journals: map<nat, Journal>): map<nat, int> {
    map c | c in journals :: StarvedFrames(journals[c].marks)
  }

  /**
  `underruns` counts the maximal runs of starved periods of all clients ever attached, and
  `starvedFrames` adds up the frames they lacked; the flag of a queue says whether its run goes on.
  */
  ghost predicate StatisticsExact(s: System) {
    && s.mixer.stats.underruns == Sum(RunCounts(s.journals), s.mixer.next)
    && s.mixer.stats.starvedFrames == Sum(FrameCounts(s.journals), s.mixer.next)
    && (forall c | c in s.mixer.clients && c in s.journals ::
          s.mixer.clients[c].underrunning == EndsStarved(s.journals[c].marks))
    && (forall c | c in s.journals :: LacksFrames(s.journals[c].marks))
  }

  ghost predicate LacksFrames(marks: seq<Mark>) {
    forall k | 0 <= k < |marks| && marks[k].Starved? :: marks[k].frames >= 1
  }

  /** What a starved client lacks is a whole number of frames, at least one: rings hold whole frames. */
  lemma MissingIsExact(q: QueueState, audible: bool)
    requires QueueOk(q) && Starves(q, audible)
    ensures 2 * Missing(q, audible) == PERIOD - |q.pending| && Missing(q, audible) >= 1
  {
  }

  /** What one period adds to the counts of one client. */
  lemma AdvancedCounts(j: Journal, q: QueueState, audible: bool)
    requires QueueOk(q) && q.underrunning == EndsStarved(j.marks) && LacksFrames(j.marks)
    ensures var j' := Advanced(j, q, audible);
            && |RunStarts(j'.marks)| == |RunStarts(j.marks)| + NewUnderrun(q, audible)
            && StarvedFrames(j'.marks) == StarvedFrames(j.marks) + Missing(q, audible)
            && EndsStarved(j'.marks) == Drained(q, audible).underrunning
            && LacksFrames(j'.marks)
  {
    RunStartsAppend(j.marks, if Starves(q, audible) then Starved(Missing(q, audible)) else Fed);
  }

  lemma PeriodAddsCounts(m: MixerState, journals: map<nat, Journal>, journals': map<nat, Journal>, audible: bool)
    requires WellFormed(m) && m.clients.Keys <= journals.Keys
    requires journals' == map c | c in journals ::
                 if c in m.clients then Advanced(journals[c], m.clients[c], audible) else journals[c]
    requires forall c | c in m.clients :: m.clients[c].underrunning == EndsStarved(journals[c].marks)
    requires forall c | c in journals :: LacksFrames(journals[c].marks)
    ensures Sum(RunCounts(journals'), m.next) == Sum(RunCounts(journals), m.next) +
        Sum(NewUnderruns(m, audible), m.next)
    ensures Sum(FrameCounts(journals'), m.next) == Sum(FrameCounts(journals), m.next) +
        Sum(MissingFrames(m, audible), m.next)
  {
    forall c: nat | c in m.clients
      ensures At(RunCounts(journals'), c) == At(RunCounts(journals), c) + At(NewUnderruns(m, audible), c)
      ensures At(FrameCounts(journals'), c) == At(FrameCounts(journals), c) + At(MissingFrames(m, audible), c)
    {
      assert QueueOk(m.clients[c]);
      AdvancedCounts(journals[c], m.clients[c], audible);
    }
    SumAdd(RunCounts(journals'), RunCounts(journals), NewUnderruns(m, audible), m.next);
    SumAdd(FrameCounts(journals'), FrameCounts(journals), MissingFrames(m, audible), m.next);
  }

  lemma PeriodKeepsStatistics(s: System, audible: bool)
    requires Inv(s) && StatisticsExact(s)
    ensures StatisticsExact(Step(s, WritePeriod(audible)))
  {
    var s' := Step(s, WritePeriod(audible));
    PeriodAddsCounts(s.mixer, s.journals, s'.journals, audible);
    forall c | c in s.mixer.clients
      ensures s'.mixer.clients[c].underrunning == EndsStarved(s'.journals[c].marks)
      ensures LacksFrames(s'.journals[c].marks)
    {
      assert QueueOk(s.mixer.clients[c]);
      AdvancedCounts(s.journals[c], s.mixer.clients[c], audible);
    }
  }

  /** The counts depend on the marks alone. */
  lemma SameMarksSameCounts(journals: map<nat, Journal>, journals': map<nat, Journal>)
    requires journals.Keys == journals'.Keys
    requires forall c | c in journals :: journals'[c].marks == journals[c].marks
    ensures RunCounts(journals') == RunCounts(journals) && FrameCounts(journals') == FrameCounts(journals)
  {
  }

  lemma CallKeepsMarks(s: System, e: Event)
    requires Inv(s) && Admits(s, e)
    ensures var s' := Step(s, e);
            && s'.journals.Keys == s.journals.Keys
            && (forall c | c in s.journals :: s'.journals[c].marks == s.journals[c].marks)
            && s'.mixer.next == s.mixer.next && s'.mixer.clients.Keys == s.mixer.clients.Keys
            && (forall c | c in s.mixer.clients :: s'.mixer.clients[c].underrunning == s.mixer.clients[c].underrunning)
            && s'.mixer.stats.underruns == s.mixer.stats.underruns
            && s'.mixer.stats.starvedFrames == s.mixer.stats.starvedFrames
  {
    CallEnters(s, e);
    AdmittedSamples(s.mixer, Caller(s, e));
  }

  lemma CallKeepsStatistics(s: System, e: Event)
    requires Inv(s) && StatisticsExact(s) && Admits(s, e)
    ensures StatisticsExact(Step(s, e))
  {
    CallKeepsMarks(s, e);
    SameMarksSameCounts(s.journals, Step(s, e).journals);
  }

  /** A flush ends a run and adds to no count; a detach leaves the marks alone. */
  lemma EmptyingKeepsStatistics(s: System, e: Event)
    requires Inv(s) && StatisticsExact(s) && (e.DetachClient? || e.ClearClient?)
    ensures StatisticsExact(Step(s, e))
  {
    if e.client in s.mixer.clients {
      var c := e.client;
      var marks := if e.ClearClient? then [Flushed] else [];
      var j' := Emptied(s.journals[c], marks);
      RunStartsAppend(s.journals[c].marks, Flushed);
      assert s.journals[c].marks + [] == s.journals[c].marks;
      OneJournalChanges(s.journals, c, j', s.mixer.next);
    }
  }

  lemma OneJournalChanges(journals: map<nat, Journal>, c: nat, j': Journal, n: nat)
    ensures Sum(RunCounts(journals[c := j']), n)
         == Sum(RunCounts(journals), n) + if c < n then |RunStarts(j'.marks)| - At(RunCounts(journals), c) else 0
    ensures Sum(FrameCounts(journals[c := j']), n)
         == Sum(FrameCounts(journals), n) + if c < n then StarvedFrames(j'.marks) - At(FrameCounts(journals), c) else 0
  {
    SumChange(RunCounts(journals[c := j']), RunCounts(journals), c, n);
    SumChange(FrameCounts(journals[c := j']), FrameCounts(journals), c, n);
  }

  lemma AttachKeepsStatistics(s: System)
    requires Inv(s) && StatisticsExact(s)
    ensures StatisticsExact(Step(s, AttachClient))
  {
    var n := s.mixer.next;
    assert n !in s.journals && RunStarts([]) == {};
    OneJournalChanges(s.journals, n, Journal([], 0, [], []), n);
  }

  lemma StepKeepsStatistics(s: System, e: Event)
    requires Inv(s) && StatisticsExact(s)
    ensures StatisticsExact(Step(s, e))
  {
    if Admits(s, e) {
      CallKeepsStatistics(s, e);
    } else {
      match e
      case AttachClient => AttachKeepsStatistics(s);
      case DetachClient(_) => EmptyingKeepsStatistics(s, e);
      case ClearClient(_) => EmptyingKeepsStatistics(s, e);
      case WritePeriod(audible) => PeriodKeepsStatistics(s, audible);
      case _ =>
    }
  }

  /** In every reachable state the starvation counters are exact. */
  lemma {:induction false} StarvationIsCountedExactly(s: System, events: seq<Event>)
    requires Inv(s) && StatisticsExact(s)
    ensures StatisticsExact(Run(s, events))
    decreases |events|
  {
    if events != [] {
      StepKeepsStatistics(s, events[0]);
      StepKeepsInv(s, events[0]);
      StarvationIsCountedExactly(Step(s, events[0]), events[1..]);
    }
  }

  /** A run of starved periods lacks at least one frame. */
  lemma {:induction false} RunsCostFrames(marks: seq<Mark>)
    requires LacksFrames(marks)
    ensures |RunStarts(marks)| <= StarvedFrames(marks)
  {
    if marks == [] {
      assert RunStarts(marks) == {};
    } else {
      var shorter := marks[..|marks| - 1];
      RunsCostFrames(shorter);
      RunStartsAppend(shorter, marks[|marks| - 1]);
      assert shorter + [marks[|marks| - 1]] == marks;
    }
  }

  lemma UnderrunsNeverExceedStarvedFrames(s: System)
    requires Inv(s) && StatisticsExact(s)
    ensures s.mixer.stats.underruns <= s.mixer.stats.starvedFrames
  {
    forall c: nat | c < s.mixer.next
      ensures At(RunCounts(s.journals), c) <= At(FrameCounts(s.journals), c)
    {
      if c in s.journals {
        RunsCostFrames(s.journals[c].marks);
      }
    }
    SumMonotone(RunCounts(s.journals), FrameCounts(s.journals), s.mixer.next);
  }

  /** The mixer starts balanced and with exact counters. */
  lemma StartsExact()
    ensures Inv(Start()) && Balanced(Start()) && StatisticsExact(Start())
  {
    SumZero(QueuedFrames(Start().mixer), 1);
    SumZero(RunCounts(Start().journals), 1);
    SumZero(FrameCounts(Start().journals), 1);
  }
}
