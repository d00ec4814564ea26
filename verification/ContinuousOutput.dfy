/**
The mixer object: its fields are updated under one lock. Each method is one critical section and is
proved to do to the object what the corresponding function of `MixerModel` does to its value.
*/
module ContinuousOutputs {
  import opened Sums
  import opened MixerModel
  import opened Rings

  ghost function Models(clients: map<nat, Queue>): map<nat, QueueState>
    requires forall c | c in clients :: clients[c].Valid()
  {
    map c | c in clients :: clients[c].Model()
  }

  lemma ModelsUpdate(clients: map<nat, Queue>, id: nat, q: Queue)
    requires q.Valid() && forall c | c in clients :: clients[c].Valid()
    ensures Models(clients[id := q]) == Models(clients)[id := q.Model()]
  {
  }

  class ContinuousOutput {
    var clients: map<nat, Queue>
    var nextClient: nat
    var statistics: Statistics
    var running: bool
    var healthy: bool
    var framesWritten: nat
    var writeErrors: nat

    ghost predicate Valid()
      reads this
    {
      forall c | c in clients :: c < nextClient && clients[c].Valid()
    }

    ghost function State(): MixerState
      reads this
      requires Valid()
    {
      MixerState(Models(clients), nextClient, statistics, running)
    }

    constructor ()
      ensures Valid() && State() == Initial()
    {
      clients, nextClient, statistics, running := map[], 1, Statistics(0, 0, 0, 0), true;
      healthy, framesWritten, writeErrors := false, 0, 0;
    }

    method Attach() returns (id: nat)
      requires Valid()
      modifies this
      ensures Valid() && id == old(nextClient)
      ensures State() == MixerModel.Attach(old(State()))
    {
      id := nextClient;
      nextClient := nextClient + 1;
      clients := clients[id := EmptyQueue()];
    }

    method Detach(client: nat)
      requires Valid()
      modifies this
      ensures Valid() && State() == MixerModel.Detach(old(State()), client)
    {
      if client in clients {
        statistics := Cancel(statistics, clients[client].count / 2);
        clients := clients - {client};
      }
    }

    method Clear(client: nat)
      requires Valid()
      modifies this
      ensures Valid() && State() == MixerModel.Clear(old(State()), client)
    {
      if client in clients {
        statistics := Cancel(statistics, clients[client].count / 2);
        clients := clients[client := Flushed(clients[client])];
      }
    }

    /** The part of `enqueue` from its loop head to the next wait or to the return. */
    method Admit(p: Producer) returns (p': Producer, waiting: bool)
      requires Valid() && p.copied <= p.Total()
      modifies this
      ensures Valid() && Fits(old(State()), p)
      ensures Admission(State(), p', waiting) == MixerModel.Admit(old(State()), p)
    {
      p', waiting := p, false;
      ghost var before := State();
      while p'.copied < p'.Total()
        invariant Valid() && Fits(before, p)
        invariant (p' == p && State() == before)
               || (p.copied < p.Total() && !Canceled(before, p) && (State(), p') == Copy(before, p))
        decreases p'.Total() - p'.copied
      {
        if !running || p'.client !in clients || clients[p'.client].generation != p'.generation {
          statistics := Cancel(statistics, (p'.Total() - p'.copied) / 2);
          break;
        }
        var q := clients[p'.client];
        if q.count == CAPACITY {
          statistics := statistics.(producerWaits := statistics.producerWaits + 1);
          waiting := true;
          break;
        }
        var n := Min(p'.Total() - p'.copied, CAPACITY - q.count);
        q := Append(q, p'.input, p'.copied, n);
        clients := clients[p'.client := q];
        p' := p'.(copied := p'.copied + n);
        assert State().clients == Copy(before, p).0.clients;
      }
    }

    /** The frames queued by one client. */
    method QueuedFrames(client: nat) returns (frames: nat)
      requires Valid()
      ensures frames == if client in State().clients then |State().clients[client].pending| / 2 else 0
    {
      frames := if client in clients then clients[client].count / 2 else 0;
    }

    /** A snapshot of the statistics together with the frames queued by all clients. */
    method Snapshot() returns (st: Statistics, queued: nat)
      requires Valid()
      ensures st == State().stats && queued == Sum(MixerModel.QueuedFrames(State()), State().next)
    {
      st, queued := statistics, 0;
      for id := 0 to nextClient
        invariant queued == Sum(MixerModel.QueuedFrames(State()), id)
      {
        if id in clients {
          queued := queued + clients[id].count / 2;
        }
      }
    }

    /** The writer's turn at one client. */
    method ServeClient(id: nat, audible: bool, mix: array<int>)
      requires Valid() && id in clients && mix.Length == PERIOD
      modifies this`clients, this`statistics, mix
      ensures Valid() && clients.Keys == old(clients.Keys)
      ensures State() == ServeOne(old(State()), audible, id)
      ensures forall i | 0 <= i < PERIOD :: mix[i] == old(mix[i]) + SampleAt(old(State()).clients[id], i)
    {
      var q, underruns, missing := Serve(clients[id], audible, mix);
      ModelsUpdate(clients, id, q);
      clients := clients[id := q];
      statistics := statistics.(underruns := statistics.underruns + underruns,
                                starvedFrames := statistics.starvedFrames + missing);
    }

    /** The writer's critical section: one period is taken from every ring and added up in `mix`. */
    method TakePeriod(audible: bool, mix: array<int>)
      requires Valid() && mix.Length == PERIOD
      modifies this`clients, this`statistics, mix
      ensures Valid() && State() == Period(old(State()), audible)
      ensures forall i | 0 <= i < PERIOD :: mix[i] == MixAt(old(State()), i)
    {
      ghost var before := State();
      forall i | 0 <= i < PERIOD {
        mix[i] := 0;
      }
      for id := 0 to nextClient
        invariant Valid() && State() == ServeUpTo(before, audible, id)
        invariant forall i | 0 <= i < PERIOD :: mix[i] == Sum(Contributions(before, i), id)
      {
        ServedSoFar(before, audible, id);
        if id in clients {
          ServeClient(id, audible, mix);
        }
      }
      ServingAllIsPeriod(before, audible);
    }

    /** One turn of the writer thread; `written` is whether the PCM took the period. */
    method RunPeriod(audible: bool, written: bool, mix: array<int>, samples: array<int>) returns (fault: bool)
      requires Valid() && mix.Length == PERIOD && samples.Length == PERIOD && mix != samples
      modifies this, mix, samples
      ensures Valid() && State() == Period(old(State()), audible)
      ensures samples[..] == Output(old(State()), audible)
      ensures healthy == written && fault == !written
      ensures framesWritten == old(framesWritten) + (if written then PERIOD / 2 else 0)
      ensures writeErrors == old(writeErrors) + (if written then 0 else 1)
    {
      TakePeriod(audible, mix);
      Saturate(audible, mix, samples);
      fault := !written;
      if written {
        framesWritten := framesWritten + PERIOD / 2;
        healthy := true;
      } else {
        healthy := false;
        writeErrors := writeErrors + 1;
      }
    }
  }

  /** The period handed to the PCM: the mix saturated to 32 bits, or silence. */
  method Saturate(audible: bool, mix: array<int>, samples: array<int>)
    requires mix.Length == PERIOD && samples.Length == PERIOD && mix != samples
    modifies samples
    ensures forall i | 0 <= i < PERIOD :: samples[i] == if audible then Clamp(mix[i]) else 0
  {
    for i := 0 to PERIOD
      invariant forall j | 0 <= j < i :: samples[j] == if audible then Clamp(mix[j]) else 0
    {
      samples[i] := if audible then Clamp(mix[i]) else 0;
    }
  }
}
