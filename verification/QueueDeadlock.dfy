// Which numbers of worker errors can leave the queue dispatcher stuck (ingest/ingest.go,
// processQueue).
module DispatchDeadlocks {
  import opened Common
  import opened Dispatching

  // How many errors the workers of a run had to report.
  function Failures(es: seq<Event>): nat {
    if es == [] then 0 else Failures(es[..|es| - 1]) + (if Fails(es[|es| - 1]) then 1 else 0)
  }

  /** No more errors than workers, and workers are limited */

  // Workers that may still fail.
  function Fresh(ws: seq<Worker>): nat {
    if ws == [] then 0
    else
      var pc := ws[|ws| - 1].pc;
      Fresh(ws[..|ws| - 1]) + (if pc.Loading? || pc.Ingesting? || pc.Calling? then 1 else 0)
  }

  function IsFresh(pc: Pc): nat {
    if pc.Loading? || pc.Ingesting? || pc.Calling? then 1 else 0
  }

  function IsSender(pc: Pc): nat {
    if pc.SendingError? then 1 else 0
  }

  lemma {:induction false} MoveFresh(ws: seq<Worker>, w: nat, pc: Pc)
    requires w < |ws|
    ensures var ws' := ws[w := ws[w].(pc := pc)];
            && Fresh(ws') + IsFresh(ws[w].pc) == Fresh(ws) + IsFresh(pc)
            && Senders(ws') + IsSender(ws[w].pc) == Senders(ws) + IsSender(pc)
  {
    var n := |ws| - 1;
    var ws' := ws[w := ws[w].(pc := pc)];
    if w < n {
      MoveFresh(ws[..n], w, pc);
      assert ws'[..n] == ws[..n][w := ws[w].(pc := pc)];
    } else {
      assert ws'[..n] == ws[..n];
    }
  }

  function Waiting(m: MainPc): nat {
    if m.Acquiring? then 1 else 0
  }

  // Every error takes a worker of its own, every worker one of the limited transactions; and
  // with `once` the loop stops at the first error it hears of.
  predicate Bounded(cfg: Config, s: State, failures: nat) {
    && failures + Fresh(s.workers) <= |s.workers|
    && |s.workers| + Waiting(s.main) <= s.count
    && (cfg.limit > 0 ==> |s.workers| + Waiting(s.main) <= cfg.limit)
    && (cfg.once && !s.main.Stopped? ==> failures <= Senders(s.workers))
  }

  lemma {:induction false} MoveBounded(cfg: Config, s: State, w: nat, pc: Pc, failures: nat)
    requires Bounded(cfg, s, failures) && w < |s.workers|
    requires IsFresh(pc) <= IsFresh(s.workers[w].pc) && !s.workers[w].pc.SendingError?
    ensures Bounded(cfg, Move(s, w, pc), failures + IsSender(pc)) || (pc.SendingError? && IsFresh(s.workers[w].pc) == 0)
  {
    MoveFresh(s.workers, w, pc);
  }

  lemma {:induction false} AcquireBounded(cfg: Config, s: State, failures: nat)
    requires Bounded(cfg, s, failures) && Enabled(cfg, s, Acquire)
    ensures Bounded(cfg, Next(cfg, s, Acquire), failures)
  {
    var ws := Next(cfg, s, Acquire).workers;
    assert ws[..|ws| - 1] == s.workers;
  }

  lemma {:induction false} ReceiveBounded(cfg: Config, s: State, w: nat, failures: nat)
    requires Bounded(cfg, s, failures) && Enabled(cfg, s, ReceiveError(w))
    ensures Bounded(cfg, Next(cfg, s, ReceiveError(w)), failures)
  {
    MoveFresh(s.workers, w, Leaving);
  }

  // Where a worker's own step takes it.
  function Goal(cfg: Config, e: Event): Pc
    requires Works(e) || e.Release? || e.WgDone? || e.ReceiveDone?
  {
    if Works(e) then Target(cfg, e) else if e.Release? then Released else if e.WgDone? then SendingDone else Gone
  }

  lemma {:induction false} WorkerBounded(cfg: Config, s: State, e: Event, failures: nat)
    requires Bounded(cfg, s, failures) && Enabled(cfg, s, e) && !e.ReceiveError?
    requires Works(e) || e.Release? || e.WgDone? || e.ReceiveDone?
    ensures Bounded(cfg, Next(cfg, s, e), failures + (if Fails(e) then 1 else 0))
  {
    WorkerMoves(cfg, s, e);
    var moved := Move(s, e.w, Goal(cfg, e));
    MoveBounded(cfg, s, e.w, Goal(cfg, e), failures);
    assert Bounded(cfg, moved, failures + IsSender(Goal(cfg, e)));
  }

  // The loop and its count stay as they are.
  lemma {:induction false} WorkerMoves(cfg: Config, s: State, e: Event)
    requires Enabled(cfg, s, e) && !e.ReceiveError? && (Works(e) || e.Release? || e.WgDone? || e.ReceiveDone?)
    ensures var s' := Next(cfg, s, e);
            s'.workers == Move(s, e.w, Goal(cfg, e)).workers && s'.main == s.main && s'.count == s.count
    ensures e.w < |s.workers| && !s.workers[e.w].pc.SendingError?
    ensures IsFresh(Goal(cfg, e)) <= IsFresh(s.workers[e.w].pc)
    ensures Fails(e) <==> Goal(cfg, e).SendingError?
    ensures Fails(e) ==> IsFresh(s.workers[e.w].pc) == 1
  {
  }

  lemma {:induction false} NextBounded(cfg: Config, s: State, e: Event, failures: nat)
    requires Bounded(cfg, s, failures) && Enabled(cfg, s, e)
    ensures Bounded(cfg, Next(cfg, s, e), failures + (if Fails(e) then 1 else 0))
  {
    if e.ReceiveError? {
      ReceiveBounded(cfg, s, e.w, failures);
    } else if Works(e) || e.Release? || e.WgDone? || e.ReceiveDone? {
      WorkerBounded(cfg, s, e, failures);
    } else if e.Acquire? {
      AcquireBounded(cfg, s, failures);
    } else {
      assert Next(cfg, s, e).workers == s.workers;
    }
  }

  lemma {:induction false} RunBounded(cfg: Config, queue: set<Txid>, es: seq<Event>)
    requires Possible(cfg, queue, es)
    ensures Bounded(cfg, After(cfg, queue, es), Failures(es))
  {
    if es != [] {
      RunBounded(cfg, queue, es[..|es| - 1]);
      NextBounded(cfg, After(cfg, queue, es[..|es| - 1]), es[|es| - 1], Failures(es[..|es| - 1]));
    }
  }

  lemma {:induction false} NoFailures(es: seq<Event>)
    requires Failures(es) == 0
    ensures forall i :: 0 <= i < |es| ==> !Fails(es[i])
  {
    if es != [] {
      NoFailures(es[..|es| - 1]);
      assert forall i :: 0 <= i < |es| - 1 ==> es[i] == es[..|es| - 1][i];
    }
  }

  lemma {:induction false} SendersHold(ws: seq<Worker>)
    ensures Senders(ws) <= Holders(ws)
  {
    if ws != [] {
      SendersHold(ws[..|ws| - 1]);
    }
  }

  // The numbers of errors with which a run can end stuck.
  predicate CanStick(cfg: Config, n: nat) {
    n >= 1 && (cfg.limit > 0 ==> n <= cfg.limit) && (cfg.once ==> n <= cfg.concurrency)
  }

  lemma {:induction false} StuckCanStick(cfg: Config, queue: set<Txid>, es: seq<Event>)
    requires Possible(cfg, queue, es) && cfg.concurrency > 0 && Stuck(cfg, After(cfg, queue, es))
    ensures CanStick(cfg, Failures(es))
  {
    RunBounded(cfg, queue, es);
    RunsKeepInv(cfg, queue, es);
    SendersHold(After(cfg, queue, es).workers);
    if Failures(es) == 0 {
      NoFailures(es);
      NoErrorsNoDeadlock(cfg, queue, es);
    }
  }

  /** Runs that get stuck */

  lemma {:induction false} Step(cfg: Config, queue: set<Txid>, es: seq<Event>, e: Event, s: State)
    requires Possible(cfg, queue, es) && Enabled(cfg, After(cfg, queue, es), e)
    requires Next(cfg, After(cfg, queue, es), e) == s
    ensures Possible(cfg, queue, es + [e]) && After(cfg, queue, es + [e]) == s
    ensures Failures(es + [e]) == Failures(es) + (if Fails(e) then 1 else 0)
  {
    Extend(cfg, queue, es, e);
    assert (es + [e])[..|es + [e]| - 1] == es;
  }

  // The run es leads to s with so many errors.
  ghost predicate Leads(cfg: Config, queue: set<Txid>, es: seq<Event>, s: State, failures: nat) {
    Possible(cfg, queue, es) && After(cfg, queue, es) == s && Failures(es) == failures
  }

  // Workers on the first k transactions of a page, the first j of them with an error to report.
  function Crew(page: seq<Txid>, j: nat, k: nat): seq<Worker>
    requires k <= |page|
  {
    seq(k, i requires 0 <= i < k => Worker(page[i], if i < j then SendingError else Loading))
  }

  function Busy(queue: set<Txid>, page: seq<Txid>, j: nat, k: nat, m: MainPc, inflight: set<Txid>, count: nat): State
    requires k <= |page|
  {
    State(m, inflight, k, k, count, false, Crew(page, j, k), queue, {}, {})
  }

  lemma {:induction false} PagePrefix(page: seq<Txid>, k: nat)
    requires Distinct(page) && k < |page|
    ensures page[k] !in Elems(page[..k]) && Elems(page[..k + 1]) == Elems(page[..k]) + {page[k]}
    ensures Crew(page, 0, k) + [Worker(page[k], Loading)] == Crew(page, 0, k + 1)
  {
    assert page[..k + 1] == page[..k] + [page[k]];
  }

  // The loop starts a worker on each of the first k transactions of a page.
  lemma {:induction false} StartCrew(cfg: Config, queue: set<Txid>, start: seq<Event>, all: set<Txid>,
                                     page: seq<Txid>, k: nat)
      returns (es: seq<Event>)
    requires Leads(cfg, queue, start, Start(all), 0)
    requires Distinct(page) && Elems(page) <= all && k <= |page|
    requires k <= cfg.concurrency && (cfg.limit > 0 ==> k <= cfg.limit)
    ensures Leads(cfg, queue, es, Busy(all, page, 0, k, Scanning(page, k), Elems(page[..k]), k), 0)
  {
    if k == 0 {
      assert forall i :: 0 <= i < |page| ==> page[i] in Elems(page);
      Step(cfg, queue, start, Page(page), Busy(all, page, 0, 0, Scanning(page, 0), Elems(page[..0]), 0));
      es := start + [Page(page)];
    } else {
      es := StartCrew(cfg, queue, start, all, page, k - 1);
      PagePrefix(page, k - 1);
      Step(cfg, queue, es, Consider, Busy(all, page, 0, k - 1, Acquiring(page, k - 1), Elems(page[..k]), k));
      es := es + [Consider];
      Step(cfg, queue, es, Acquire, Busy(all, page, 0, k, Scanning(page, k), Elems(page[..k]), k));
      es := es + [Acquire];
    }
  }

  lemma {:induction false} CrewFails(page: seq<Txid>, j: nat, k: nat)
    requires j < k <= |page|
    ensures Crew(page, j, k)[j := Worker(page[j], SendingError)] == Crew(page, j + 1, k)
  {
  }

  // The first j workers fail while the loop stays where it is.
  lemma {:induction false} FailCrew(cfg: Config, queue: set<Txid>, start: seq<Event>, all: set<Txid>,
                                    page: seq<Txid>, j: nat, k: nat, m: MainPc, inflight: set<Txid>,
                                    count: nat)
    returns (es: seq<Event>)
    requires j <= k <= |page| && Leads(cfg, queue, start, Busy(all, page, 0, k, m, inflight, count), 0)
    ensures Leads(cfg, queue, es, Busy(all, page, j, k, m, inflight, count), j)
  {
    if j == 0 {
      es := start;
    } else {
      es := FailCrew(cfg, queue, start, all, page, j - 1, k, m, inflight, count);
      CrewFails(page, j - 1, k);
      Step(cfg, queue, es, LoadFails(j - 1), Busy(all, page, j, k, m, inflight, count));
      es := es + [LoadFails(j - 1)];
    }
  }

  // With every slot taken by a failed worker and the loop waiting for one, nothing moves.
  lemma {:induction false} FullHouseSticks(cfg: Config, queue: set<Txid>, page: seq<Txid>) returns (es: seq<Event>)
    requires cfg.concurrency > 0 && |page| == cfg.concurrency + 1 && Distinct(page) && Elems(page) <= queue
    requires cfg.limit > 0 ==> |page| <= cfg.limit
    ensures Possible(cfg, queue, es) && Failures(es) == cfg.concurrency
    ensures Stuck(cfg, After(cfg, queue, es)) && After(cfg, queue, es).main.Acquiring?
  {
    var k := cfg.concurrency;
    assert Leads(cfg, queue, [], Start(queue), 0);
    es := StartCrew(cfg, queue, [], queue, page, k);
    PagePrefix(page, k);
    Step(cfg, queue, es, Consider, Busy(queue, page, 0, k, Acquiring(page, k), Elems(page[..k + 1]), k + 1));
    es := FailCrew(cfg, queue, es + [Consider], queue, page, k, k, Acquiring(page, k), Elems(page[..k + 1]), k + 1);
    RunsKeepInv(cfg, queue, es);
    StuckIffBlocked(cfg, After(cfg, queue, es));
  }

  // Every worker has failed or gone, and the context is cancelled before the loop hears of it.
  lemma {:induction false} DrainSticks(cfg: Config, queue: set<Txid>, start: seq<Event>, s: State, failures: nat)
      returns (es: seq<Event>)
    requires Leads(cfg, queue, start, s, failures) && s.main.Selecting? && !s.cancelled && s.wg > 0
    requires forall w :: 0 <= w < |s.workers| ==> s.workers[w].pc.SendingError? || s.workers[w].pc.Gone?
    ensures Possible(cfg, queue, es) && Failures(es) == failures && Stuck(cfg, After(cfg, queue, es))
  {
    Step(cfg, queue, start, Cancel, s.(cancelled := true));
    Step(cfg, queue, start + [Cancel], BeginDrain, s.(cancelled := true, main := Draining));
    es := start + [Cancel] + [BeginDrain];
    RunsKeepInv(cfg, queue, es);
    StuckIffBlocked(cfg, After(cfg, queue, es));
  }

  // A page of workers all fail, and before their errors are heard the context is cancelled: the
  // loop waits for workers that wait for it.
  lemma {:induction false} CancelledPageSticks(cfg: Config, queue: set<Txid>, start: seq<Event>, all: set<Txid>,
                                               page: seq<Txid>)
      returns (es: seq<Event>)
    requires Leads(cfg, queue, start, Start(all), 0) && Distinct(page) && Elems(page) <= all
    requires 0 < |page| <= cfg.concurrency && (cfg.limit > 0 ==> |page| <= cfg.limit)
    ensures Possible(cfg, queue, es) && Failures(es) == |page| && Stuck(cfg, After(cfg, queue, es))
  {
    var k := |page|;
    es := StartCrew(cfg, queue, start, all, page, k);
    Step(cfg, queue, es, Consider, Busy(all, page, 0, k, Selecting, Elems(page[..k]), k));
    es := FailCrew(cfg, queue, es + [Consider], all, page, k, k, Selecting, Elems(page[..k]), k);
    es := DrainSticks(cfg, queue, es, Busy(all, page, k, k, Selecting, Elems(page[..k]), k), k);
  }

  // r workers have come and gone, all on transaction t; another one may be in place pc.
  function Past(t: Txid, r: nat): seq<Worker> {
    seq(r, i => Worker(t, Gone))
  }

  function Idle(queue: set<Txid>, t: Txid, r: nat): State {
    State(Selecting, {}, 0, 0, r, false, Past(t, r), queue, {}, {})
  }

  function Working(queue: set<Txid>, t: Txid, r: nat, m: MainPc, slots: nat, wg: nat, pc: Pc): State {
    State(m, {t}, slots, wg, r + 1, false, Past(t, r) + [Worker(t, pc)], queue, {}, {})
  }

  lemma {:induction false} NobodySends(queue: set<Txid>, t: Txid, r: nat)
    ensures AtDefault(Idle(queue, t, r))
  {
  }

  lemma {:induction false} OneIsFound(cfg: Config, queue: set<Txid>, start: seq<Event>, all: set<Txid>, t: Txid,
                                      r: nat)
      returns (es: seq<Event>)
    requires Leads(cfg, queue, start, Idle(all, t, r), r) && t in all
    ensures Leads(cfg, queue, es, Idle(all, t, r).(main := Scanning([t], 0)), r)
  {
    NobodySends(all, t, r);
    Step(cfg, queue, start, Page([t]), Idle(all, t, r).(main := Scanning([t], 0)));
    es := start + [Page([t])];
  }

  // The loop claims t.
  lemma {:induction false} OneIsClaimed(cfg: Config, queue: set<Txid>, start: seq<Event>, all: set<Txid>, t: Txid,
                                        r: nat)
      returns (es: seq<Event>)
    requires Leads(cfg, queue, start, Idle(all, t, r), r) && t in all && (cfg.limit > 0 ==> r < cfg.limit)
    ensures Leads(cfg, queue, es, Idle(all, t, r).(main := Acquiring([t], 0), inflight := {t}, count := r + 1), r)
  {
    es := OneIsFound(cfg, queue, start, all, t, r);
    var idle := Idle(all, t, r);
    Step(cfg, queue, es, Consider, idle.(main := Acquiring([t], 0), inflight := {t}, count := r + 1));
    es := es + [Consider];
  }

  // The loop starts a worker on it and comes to the end of the page.
  lemma {:induction false} OneWorks(cfg: Config, queue: set<Txid>, start: seq<Event>, all: set<Txid>, t: Txid, r: nat)
      returns (es: seq<Event>)
    requires Leads(cfg, queue, start, Idle(all, t, r).(main := Acquiring([t], 0), inflight := {t}, count := r + 1), r)
    requires cfg.concurrency > 0
    ensures Leads(cfg, queue, es, Working(all, t, r, Selecting, 1, 1, Loading), r)
  {
    Step(cfg, queue, start, Acquire, Working(all, t, r, Scanning([t], 1), 1, 1, Loading));
    es := start + [Acquire];
    Step(cfg, queue, es, Consider, Working(all, t, r, Selecting, 1, 1, Loading));
    es := es + [Consider];
  }

  // One worker comes in and fails.
  lemma {:induction false} OneFails(cfg: Config, queue: set<Txid>, start: seq<Event>, all: set<Txid>, t: Txid, r: nat)
      returns (es: seq<Event>)
    requires Leads(cfg, queue, start, Idle(all, t, r), r) && t in all
    requires cfg.concurrency > 0 && (cfg.limit > 0 ==> r < cfg.limit)
    ensures Leads(cfg, queue, es, Working(all, t, r, Selecting, 1, 1, SendingError), r + 1)
  {
    es := OneIsClaimed(cfg, queue, start, all, t, r);
    es := OneWorks(cfg, queue, es, all, t, r);
    WorkingMoves(t, r, Loading, SendingError);
    Step(cfg, queue, es, LoadFails(r), Working(all, t, r, Selecting, 1, 1, SendingError));
    es := es + [LoadFails(r)];
  }

  lemma {:induction false} WorkingMoves(t: Txid, r: nat, pc: Pc, pc': Pc)
    ensures var ws := Past(t, r) + [Worker(t, pc)];
            ws[r] == Worker(t, pc) && ws[r := Worker(t, pc')] == Past(t, r) + [Worker(t, pc')]
    ensures Past(t, r) + [Worker(t, Gone)] == Past(t, r + 1)
  {
  }

  // Its error is heard, and it goes.
  lemma {:induction false} OneLeaves(cfg: Config, queue: set<Txid>, start: seq<Event>, all: set<Txid>, t: Txid, r: nat)
      returns (es: seq<Event>)
    requires Leads(cfg, queue, start, Working(all, t, r, Selecting, 1, 1, SendingError), r + 1) && !cfg.once
    ensures Leads(cfg, queue, es, Idle(all, t, r + 1), r + 1)
  {
    WorkingMoves(t, r, SendingError, Leaving);
    Step(cfg, queue, start, ReceiveError(r), Working(all, t, r, Selecting, 1, 1, Leaving));
    es := start + [ReceiveError(r)];
    WorkingMoves(t, r, Leaving, Released);
    Step(cfg, queue, es, Release(r), Working(all, t, r, Selecting, 0, 1, Released));
    es := es + [Release(r)];
    WorkingMoves(t, r, Released, SendingDone);
    Step(cfg, queue, es, WgDone(r), Working(all, t, r, Selecting, 0, 0, SendingDone));
    es := es + [WgDone(r)];
    WorkingMoves(t, r, SendingDone, Gone);
    Step(cfg, queue, es, ReceiveDone(r), Idle(all, t, r + 1));
    es := es + [ReceiveDone(r)];
  }

  lemma {:induction false} Rounds(cfg: Config, queue: set<Txid>, start: seq<Event>, all: set<Txid>, t: Txid, r: nat)
      returns (es: seq<Event>)
    requires Leads(cfg, queue, start, Start(all), 0) && t in all && !cfg.once && cfg.concurrency > 0
    requires cfg.limit > 0 ==> r <= cfg.limit
    ensures Leads(cfg, queue, es, Idle(all, t, r), r)
  {
    if r == 0 {
      es := start;
      assert Idle(all, t, 0) == Start(all);
    } else {
      es := Rounds(cfg, queue, start, all, t, r - 1);
      es := OneFails(cfg, queue, es, all, t, r - 1);
      es := OneLeaves(cfg, queue, es, all, t, r - 1);
    }
  }

  // After any number of heard errors, one more and a cancellation.
  lemma {:induction false} LateErrorSticks(cfg: Config, queue: set<Txid>, start: seq<Event>, all: set<Txid>, t: Txid,
                                           r: nat)
      returns (es: seq<Event>)
    requires Leads(cfg, queue, start, Start(all), 0) && t in all && !cfg.once && cfg.concurrency > 0
    requires cfg.limit > 0 ==> r < cfg.limit
    ensures Possible(cfg, queue, es) && Failures(es) == r + 1 && Stuck(cfg, After(cfg, queue, es))
  {
    es := Rounds(cfg, queue, start, all, t, r);
    es := OneFails(cfg, queue, es, all, t, r);
    es := DrainSticks(cfg, queue, es, Working(all, t, r, Selecting, 1, 1, SendingError), r + 1);
  }

  function Numbers(n: nat): (r: seq<Txid>)
    ensures |r| == n
  {
    seq(n, i requires 0 <= i < n => i)
  }

  lemma {:induction false} FillQueue(cfg: Config, queue: set<Txid>, n: nat) returns (es: seq<Event>, all: set<Txid>)
    ensures Leads(cfg, queue, es, Start(all), 0) && Elems(Numbers(n)) <= all
  {
    if n == 0 {
      es, all := [], queue;
    } else {
      es, all := FillQueue(cfg, queue, n - 1);
      Step(cfg, queue, es, Enqueue(n - 1), Start(all + {n - 1}));
      forall i | i in Elems(Numbers(n))
        ensures i in all + {n - 1}
      {
        assert i < n - 1 ==> Numbers(n - 1)[i] == i;
      }
      es, all := es + [Enqueue(n - 1)], all + {n - 1};
    }
  }

  // With at least one slot, some run with n errors gets stuck if and only if n is at least one,
  // within the limit if there is one and, if the loop stops at the first error it hears of, no
  // more than the slots.
  lemma {:induction false} StuckByErrors(cfg: Config, queue: set<Txid>, n: nat)
    requires cfg.concurrency > 0
    ensures (exists es :: Possible(cfg, queue, es) && Failures(es) == n && Stuck(cfg, After(cfg, queue, es))) <==>
        CanStick(cfg, n)
  {
    if es :| Possible(cfg, queue, es) && Failures(es) == n && Stuck(cfg, After(cfg, queue, es)) {
      StuckCanStick(cfg, queue, es);
    }
    if CanStick(cfg, n) {
      var start, all := FillQueue(cfg, queue, n);
      if cfg.once {
        var es := CancelledPageSticks(cfg, queue, start, all, Numbers(n));
      } else {
        assert Numbers(n)[0] == 0 && 0 in Elems(Numbers(n));
        var es := LateErrorSticks(cfg, queue, start, all, 0, n - 1);
      }
    }
  }
}
