// What the queue dispatcher takes off its queue (ingest/ingest.go, processQueue): everything it has
// ingested or could not find, unless a step on the way fails, and nothing else.
module DispatchRemovals {
  import opened Common
  import opened Dispatching

  // The event is a step of worker w.
  predicate IsStepOf(e: Event, w: nat) {
    match e
    case ReceiveDone(v) => v == w
    case ReceiveError(v) => v == w
    case NotFound(v) => v == w
    case LoadFails(v) => v == w
    case Loaded(v) => v == w
    case Ingested(v) => v == w
    case IngestFails(v) => v == w
    case CallbackDone(v) => v == w
    case CallbackFails(v) => v == w
    case Delog(v) => v == w
    case DelogFails(v) => v == w
    case Panic(v) => v == w
    case Release(v) => v == w
    case WgDone(v) => v == w
    case _ => false
  }

  lemma {:induction false} OthersLeaveWorker(cfg: Config, s: State, e: Event, w: nat)
    requires Enabled(cfg, s, e) && w < |s.workers| && !IsStepOf(e, w)
    ensures w < |Next(cfg, s, e).workers| && Next(cfg, s, e).workers[w] == s.workers[w]
  {
  }

  lemma {:induction false} WorkersStay(cfg: Config, s: State, e: Event, w: nat)
    requires Enabled(cfg, s, e) && w < |s.workers|
    ensures w < |Next(cfg, s, e).workers| && Next(cfg, s, e).workers[w].txid == s.workers[w].txid
  {
  }

  lemma {:induction false} SplitLast(cfg: Config, queue: set<Txid>, es: seq<Event>, more: seq<Event>)
    requires more != [] && Possible(cfg, queue, es + more)
    ensures var init, e := es + more[..|more| - 1], more[|more| - 1];
            && Possible(cfg, queue, init) && Enabled(cfg, After(cfg, queue, init), e)
            && After(cfg, queue, es + more) == Next(cfg, After(cfg, queue, init), e)
  {
    assert (es + more)[..|es + more| - 1] == es + more[..|more| - 1];
  }

  // As long as it takes no step, a worker stays where it is.
  lemma {:induction false} WorkerWaits(cfg: Config, queue: set<Txid>, es: seq<Event>, more: seq<Event>, w: nat)
    requires Possible(cfg, queue, es) && Possible(cfg, queue, es + more) && w < |After(cfg, queue, es).workers|
    requires forall i :: 0 <= i < |more| ==> !IsStepOf(more[i], w)
    ensures w < |After(cfg, queue, es + more).workers|
    ensures After(cfg, queue, es + more).workers[w] == After(cfg, queue, es).workers[w]
  {
    if more == [] {
      assert es + more == es;
    } else {
      SplitLast(cfg, queue, es, more);
      var n := |more| - 1;
      assert forall i :: 0 <= i < n ==> more[..n][i] == more[i];
      WorkerWaits(cfg, queue, es, more[..n], w);
      OthersLeaveWorker(cfg, After(cfg, queue, es + more[..n]), more[n], w);
    }
  }

  // The next step of a worker that has ingested its transaction, or could not find it.
  lemma {:induction false} NextAfterIngest(cfg: Config, queue: set<Txid>, es: seq<Event>, more: seq<Event>, w: nat,
                                           last: Event, next: Event)
    requires last == Ingested(w) || last == NotFound(w)
    requires Possible(cfg, queue, es + [last]) && Possible(cfg, queue, es + [last] + more + [next])
    requires IsStepOf(next, w) && forall i :: 0 <= i < |more| ==> !IsStepOf(more[i], w)
    ensures (last == NotFound(w) || (cfg.keyed && !cfg.onIngest)) ==>
              next == Delog(w) || next == DelogFails(w) || next == Panic(w)
    ensures last == Ingested(w) && cfg.onIngest ==>
              next == CallbackDone(w) || next == CallbackFails(w) || next == Panic(w)
    ensures last == Ingested(w) && !cfg.onIngest && !cfg.keyed ==> next == Release(w)
  {
    assert (es + [last])[..|es|] == es;
    assert (es + [last] + more + [next])[..|es + [last] + more|] == es + [last] + more;
    WorkerWaits(cfg, queue, es + [last], more, w);
  }

  /** What the queue holds */

  // Right after a worker has taken its transaction off the queue, it is not in it.
  lemma {:induction false} DeloggedIsOff(cfg: Config, queue: set<Txid>, es: seq<Event>, w: nat)
    requires Possible(cfg, queue, es + [Delog(w)])
    ensures var s := After(cfg, queue, es + [Delog(w)]);
            && w < |s.workers| && s.workers[w].txid !in s.queue && s.workers[w].txid in s.removed
            && Possible(cfg, queue, es) && s.queue == After(cfg, queue, es).queue - {s.workers[w].txid}
  {
    assert (es + [Delog(w)])[..|es|] == es;
  }

  // What came to the queue from outside while the dispatcher ran.
  function Arrived(es: seq<Event>): set<Txid> {
    set i | 0 <= i < |es| && es[i].Enqueue? :: es[i].t
  }

  lemma {:induction false} ArrivedNext(es: seq<Event>)
    requires es != []
    ensures var e := es[|es| - 1]; Arrived(es) == Arrived(es[..|es| - 1]) + (if e.Enqueue? then {e.t} else {})
  {
    var init := es[..|es| - 1];
    assert forall i :: 0 <= i < |init| ==> init[i] == es[i];
  }

  lemma {:induction false} QueueStep(cfg: Config, s: State, e: Event, t: Txid)
    requires Enabled(cfg, s, e)
    ensures var s' := Next(cfg, s, e);
            var off := e.Delog? && TxidOf(s, e.w) == t;
            && (t in s'.queue <==> (t in s.queue && !off) || e == Enqueue(t))
            && (t in s'.removed <==> t in s.removed || off)
  {
  }

  // The queue loses exactly what was removed; what arrives again after that is in it again.
  lemma {:induction false} QueueIs(cfg: Config, queue: set<Txid>, es: seq<Event>, t: Txid)
    requires Possible(cfg, queue, es)
    ensures var s := After(cfg, queue, es);
            && (t in s.queue ==> t in queue || t in Arrived(es))
            && ((t in queue || t in Arrived(es)) && t !in s.removed ==> t in s.queue)
            && (t in s.removed && t !in Arrived(es) ==> t !in s.queue)
  {
    if es != [] {
      QueueIs(cfg, queue, es[..|es| - 1], t);
      ArrivedNext(es);
      QueueStep(cfg, After(cfg, queue, es[..|es| - 1]), es[|es| - 1], t);
    }
  }

  /** Nothing is ingested in vain */

  // No step of worker w failed.
  predicate Clean(es: seq<Event>, w: nat) {
    forall i :: 0 <= i < |es| ==>
      es[i] !in {LoadFails(w), IngestFails(w), CallbackFails(w), Panic(w), DelogFails(w)}
  }

  predicate OnItsWay(s: State, w: nat)
    requires w < |s.workers|
  {
    var worker := s.workers[w];
    worker.pc.Loading? || worker.pc.Ingesting? || worker.pc.Removing? || worker.txid in s.removed
  }

  lemma {:induction false} CleanStep(cfg: Config, s: State, e: Event, w: nat)
    requires cfg.keyed && !cfg.onIngest && Enabled(cfg, s, e) && w < |s.workers| && OnItsWay(s, w)
    requires e !in {LoadFails(w), IngestFails(w), CallbackFails(w), Panic(w), DelogFails(w)}
    ensures w < |Next(cfg, s, e).workers| && OnItsWay(Next(cfg, s, e), w)
  {
    WorkersStay(cfg, s, e, w);
    if !IsStepOf(e, w) {
      OthersLeaveWorker(cfg, s, e, w);
    }
  }

  lemma {:induction false} NewWorkerLoads(cfg: Config, s: State, e: Event, w: nat)
    requires Enabled(cfg, s, e) && |s.workers| <= w < |Next(cfg, s, e).workers|
    ensures OnItsWay(Next(cfg, s, e), w)
  {
  }

  lemma {:induction false} CleanInit(es: seq<Event>, w: nat)
    requires es != [] && Clean(es, w)
    ensures Clean(es[..|es| - 1], w)
  {
  }

  lemma {:induction false} CleanWorkers(cfg: Config, queue: set<Txid>, es: seq<Event>, w: nat)
    requires cfg.keyed && !cfg.onIngest && Possible(cfg, queue, es) && Clean(es, w)
    requires w < |After(cfg, queue, es).workers|
    ensures OnItsWay(After(cfg, queue, es), w)
  {
    if es != [] {
      var n := |es| - 1;
      var s := After(cfg, queue, es[..n]);
      CleanInit(es, w);
      if w < |s.workers| {
        CleanWorkers(cfg, queue, es[..n], w);
        CleanStep(cfg, s, es[n], w);
      } else {
        NewWorkerLoads(cfg, s, es[n], w);
      }
    }
  }

  // Main result: a worker that is done without a failure has taken its transaction off the queue,
  // and there it stays off unless it arrives again.
  lemma {:induction false} DoneIsRemoved(cfg: Config, queue: set<Txid>, es: seq<Event>, w: nat)
    requires cfg.keyed && !cfg.onIngest && Possible(cfg, queue, es) && Clean(es, w)
    requires w < |After(cfg, queue, es).workers| && After(cfg, queue, es).workers[w].pc.Gone?
    ensures var s := After(cfg, queue, es);
            && s.workers[w].txid in s.removed
            && (s.workers[w].txid !in Arrived(es) ==> s.workers[w].txid !in s.queue)
  {
    CleanWorkers(cfg, queue, es, w);
    QueueIs(cfg, queue, es, After(cfg, queue, es).workers[w].txid);
  }
}
