/** What the PCM is given, and how fast a blocked producer gets through. */
module MixerExact {
  import opened Sums
  import opened MixerModel
  import opened MixerSystem

  // ----- the mixed period -----

  /** The next samples of every attached client, read from the unbounded journals and padded with zeros. */
  function NextFromLogs(s: System, i: nat): map<nat, int> {
    map c | c in s.mixer.clients && c in s.journals ::
      var j := s.journals[c]; if j.head + i < |j.log| then Value(s.calls, j.log[j.head + i]) else 0
  }

  /** In any reachable state a period is the saturated sum of what the journals hold next, or silence. */
  lemma PeriodIsSaturatedSum(s: System, audible: bool, i: nat)
    requires Inv(s) && i < PERIOD
    ensures var s' := Step(s, WritePeriod(audible));
            && |s'.periods| == |s.periods| + 1
            && s'.periods[|s.periods|].audible == audible
            && |s'.periods[|s.periods|].output| == PERIOD
            && s'.periods[|s.periods|].output[i]
               == if audible then Clamp(Sum(NextFromLogs(s, i), s.mixer.next)) else 0
  {
    forall c: nat | c in s.mixer.clients
      ensures At(NextFromLogs(s, i), c) == At(Contributions(s.mixer, i), c)
    {
      assert QueueIsLog(s, c) && JournalOk(s, c, s.journals[c]);
      var j := s.journals[c];
      assert i < |s.mixer.clients[c].pending| ==> j.log[j.head..][i] == j.log[j.head + i];
    }
    SumChange(NextFromLogs(s, i), Contributions(s.mixer, i), s.mixer.next, s.mixer.next);
  }

  /** With fewer than 2^32 clients no partial sum of the mix leaves the range of a signed 64-bit integer. */
  lemma MixFits64Bits(m: MixerState, i: nat, n: nat)
    requires WellFormed(m) && |m.clients| < 0x1_0000_0000
    ensures -0x8000_0000_0000_0000 <= Sum(Contributions(m, i), n) <= 0x7fff_ffff_ffff_ffff
  {
    var w := Contributions(m, i);
    assert w.Keys == m.clients.Keys;
    assert |w| == |w.Keys| == |m.clients|;
    forall c | c in w
      ensures -0x8000_0000 <= w[c] <= 0x8000_0000
    {
      assert QueueOk(m.clients[c]);
    }
    SumBounded(w, n, 0x8000_0000);
    TimesPositive(0x8000_0000, |w|);
  }

  // ----- producer progress -----

  /** A call that is scheduled once before the writer's first period and once after each. */
  function Rounds(m: MixerState, p: Producer, periods: seq<bool>): (a: Admission)
    requires Fits(m, p)
    decreases |periods|
  {
    var a := Admit(m, p);
    AdmittedSamples(m, p);
    if periods == [] then a else Rounds(Period(a.mixer, periods[0]), a.producer, periods[1..])
  }

  /**
  A call that is not canceled, starting with `free` places in its ring, has copied exactly
  min(total, free + 480 k) samples after k periods: it is done as soon as that reaches the total.
  */
  lemma {:induction false} ProducerProgress(m: MixerState, p: Producer, periods: seq<bool>)
    requires Fits(m, p) && !Canceled(m, p)
    ensures var (a, free) := (Rounds(m, p, periods), CAPACITY - |m.clients[p.client].pending|);
            && a.producer == p.(copied := Min(p.Total(), p.copied + free + PERIOD * |periods|))
            && (a.waiting <==> p.copied + free + PERIOD * |periods| < p.Total())
    decreases |periods|
  {
    var a := Admit(m, p);
    AdmittedSamples(m, p);
    if periods != [] {
      var m' := Period(a.mixer, periods[0]);
      assert !Canceled(m', a.producer);
      ProducerProgress(m', a.producer, periods[1..]);
      assert |periods[1..]| == |periods| - 1;
    }
  }
}
