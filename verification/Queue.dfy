// The queue dispatcher (ingest/ingest.go, processQueue): a main loop hands transactions to
// workers through a counting limiter and hears back over two unbuffered channels.  Steps of the
// loop and of any number of workers interleave freely.
module Dispatching {
  import opened Common

  type Txid = nat

  // A worker holds its slot up to Leaving, counts in the wait group up to Released, and is
  // gone once its done message is received.
  datatype Pc =
    | Loading
    | Ingesting
    | Calling
    | Removing
    | SendingError
    | Leaving
    | Released
    | SendingDone
    | Gone

  datatype Worker = Worker(txid: Txid, pc: Pc)

  // The loop: at its select, looking at entry i of a page, waiting for a slot for entry i,
  // waiting for all workers before returning, or returned.
  datatype MainPc =
    | Selecting
    | Scanning(page: seq<Txid>, i: nat)
    | Acquiring(page: seq<Txid>, i: nat)
    | Draining
    | Stopped

  // limit 0 is none; onIngest tells whether a callback is set (it then has to clean the queue),
  // keyed whether the queue key is not empty.
  datatype Config = Config(concurrency: nat, limit: nat, once: bool, onIngest: bool, keyed: bool)

  datatype State = State(
    main: MainPc,
    inflight: set<Txid>,
    slots: nat,
    wg: nat,
    count: nat,
    cancelled: bool,
    workers: seq<Worker>,
    queue: set<Txid>,
    settled: set<Txid>,
    removed: set<Txid>)

  datatype Event =
    | Enqueue(t: Txid)
    | Cancel
    | Tick
    | SearchFails
    | Page(page: seq<Txid>)
    | Consider
    | Acquire
    | ReceiveDone(w: nat)
    | ReceiveError(w: nat)
    | BeginDrain
    | Drained
    | NotFound(w: nat)
    | LoadFails(w: nat)
    | Loaded(w: nat)
    | Ingested(w: nat)
    | IngestFails(w: nat)
    | CallbackDone(w: nat)
    | CallbackFails(w: nat)
    | Delog(w: nat)
    | DelogFails(w: nat)
    | Panic(w: nat)
    | Release(w: nat)
    | WgDone(w: nat)

  function Start(queue: set<Txid>): State {
    State(Selecting, {}, 0, 0, 0, false, [], queue, {}, {})
  }

  predicate IsAt(s: State, w: nat, pc: Pc) {
    w < |s.workers| && s.workers[w].pc == pc
  }

  // Some worker is ready to be received from.
  predicate SomeoneSends(s: State) {
    exists w :: 0 <= w < |s.workers| && (s.workers[w].pc.SendingDone? || s.workers[w].pc.SendingError?)
  }

  // The default branch of the select: nothing else is ready.
  predicate AtDefault(s: State) {
    s.main.Selecting? && !SomeoneSends(s) && !s.cancelled
  }

  predicate Enabled(cfg: Config, s: State, e: Event) {
    match e
    case Enqueue(_) => true
    case Cancel => true
    case Tick => s.main.Selecting?
    case SearchFails => AtDefault(s)
    case Page(page) => AtDefault(s) && forall i :: 0 <= i < |page| ==> page[i] in s.queue
    case Consider => s.main.Scanning?
    case Acquire => s.main.Acquiring? && s.main.i < |s.main.page| && s.slots < cfg.concurrency
    case ReceiveDone(w) => s.main.Selecting? && IsAt(s, w, SendingDone)
    case ReceiveError(w) => s.main.Selecting? && IsAt(s, w, SendingError)
    case BeginDrain => s.main.Selecting? && s.cancelled
    case Drained => s.main.Draining? && s.wg == 0
    case NotFound(w) => IsAt(s, w, Loading)
    case LoadFails(w) => IsAt(s, w, Loading)
    case Loaded(w) => IsAt(s, w, Loading)
    case Ingested(w) => IsAt(s, w, Ingesting)
    case IngestFails(w) => IsAt(s, w, Ingesting)
    case CallbackDone(w) => IsAt(s, w, Calling)
    case CallbackFails(w) => IsAt(s, w, Calling)
    case Delog(w) => IsAt(s, w, Removing)
    case DelogFails(w) => IsAt(s, w, Removing)
    case Panic(w) => IsAt(s, w, Loading) || IsAt(s, w, Ingesting) || IsAt(s, w, Calling) || IsAt(s, w, Removing)
    case Release(w) => IsAt(s, w, Leaving) && s.slots > 0
    case WgDone(w) => IsAt(s, w, Released) && s.wg > 0
  }

  function Move(s: State, w: nat, pc: Pc): State {
    if w < |s.workers| then s.(workers := s.workers[w := s.workers[w].(pc := pc)]) else s
  }

  function TxidOf(s: State, w: nat): Txid {
    if w < |s.workers| then s.workers[w].txid else 0
  }

  // What follows a successful ingest.
  function AfterIngest(cfg: Config): Pc {
    if cfg.onIngest then Calling else if cfg.keyed then Removing else Leaving
  }

  function Looked(cfg: Config, s: State, page: seq<Txid>, i: nat): State {
    if i >= |page| then s.(main := Selecting)
    else if page[i] in s.inflight then s.(main := Scanning(page, i + 1))
    else if cfg.limit > 0 && s.count + 1 > cfg.limit then s.(main := Draining, count := s.count + 1)
    else s.(main := Acquiring(page, i), count := s.count + 1, inflight := s.inflight + {page[i]})
  }

  function Next(cfg: Config, s: State, e: Event): State
    requires Enabled(cfg, s, e)
  {
    match e
    case Enqueue(t) => s.(queue := s.queue + {t})
    case Cancel => s.(cancelled := true)
    case Tick => s
    case SearchFails => s
    case Page(page) => s.(main := Scanning(page, 0))
    case Consider => Looked(cfg, s, s.main.page, s.main.i)
    case Acquire =>
      s.(main := Scanning(s.main.page, s.main.i + 1), slots := s.slots + 1, wg := s.wg + 1,
         workers := s.workers + [Worker(s.main.page[s.main.i], Loading)])
    case ReceiveDone(w) => Move(s, w, Gone).(inflight := s.inflight - {TxidOf(s, w)})
    case ReceiveError(w) => Move(s, w, Leaving).(main := if cfg.once then Stopped else Selecting)
    case BeginDrain => s.(main := Draining)
    case Drained => s.(main := Stopped)
    case NotFound(w) => Move(s, w, Removing).(settled := s.settled + {TxidOf(s, w)})
    case LoadFails(w) => Move(s, w, SendingError)
    case Loaded(w) => Move(s, w, Ingesting)
    case Ingested(w) => Move(s, w, AfterIngest(cfg)).(settled := s.settled + {TxidOf(s, w)})
    case IngestFails(w) => Move(s, w, SendingError)
    case CallbackDone(w) => Move(s, w, Leaving)
    case CallbackFails(w) => Move(s, w, SendingError)
    case Delog(w) =>
      Move(s, w, Leaving).(queue := s.queue - {TxidOf(s, w)}, removed := s.removed + {TxidOf(s, w)})
    case DelogFails(w) => Move(s, w, Leaving)
    case Panic(w) => Move(s, w, Leaving)
    case Release(w) => Move(s, w, Released).(slots := s.slots - 1)
    case WgDone(w) => Move(s, w, SendingDone).(wg := s.wg - 1)
  }

  predicate Possible(cfg: Config, queue: set<Txid>, es: seq<Event>)
    decreases |es|, 0
  {
    es == [] ||
    (Possible(cfg, queue, es[..|es| - 1]) && Enabled(cfg, After(cfg, queue, es[..|es| - 1]), es[|es| - 1]))
  }

  function After(cfg: Config, queue: set<Txid>, es: seq<Event>): State
    requires Possible(cfg, queue, es)
    decreases |es|, 1
  {
    if es == [] then Start(queue) else Next(cfg, After(cfg, queue, es[..|es| - 1]), es[|es| - 1])
  }

  /** What holds at every moment */

  predicate Holds(pc: Pc) {
    !(pc.Released? || pc.SendingDone? || pc.Gone?)
  }

  predicate Counts(pc: Pc) {
    !(pc.SendingDone? || pc.Gone?)
  }

  function Holders(ws: seq<Worker>): nat {
    if ws == [] then 0 else Holders(ws[..|ws| - 1]) + (if Holds(ws[|ws| - 1].pc) then 1 else 0)
  }

  function Counted(ws: seq<Worker>): nat {
    if ws == [] then 0 else Counted(ws[..|ws| - 1]) + (if Counts(ws[|ws| - 1].pc) then 1 else 0)
  }

  function Senders(ws: seq<Worker>): nat {
    if ws == [] then 0 else Senders(ws[..|ws| - 1]) + (if ws[|ws| - 1].pc.SendingError? then 1 else 0)
  }

  lemma {:induction false} MoveCounts(ws: seq<Worker>, w: nat, pc: Pc)
    requires w < |ws|
    ensures var ws' := ws[w := ws[w].(pc := pc)];
            && Holders(ws') == Holders(ws) - (if Holds(ws[w].pc) then 1 else 0) + (if Holds(pc) then 1 else 0)
            && Counted(ws') == Counted(ws) - (if Counts(ws[w].pc) then 1 else 0) + (if Counts(pc) then 1 else 0)
  {
    var n := |ws| - 1;
    var ws' := ws[w := ws[w].(pc := pc)];
    if w < n {
      MoveCounts(ws[..n], w, pc);
      assert ws'[..n] == ws[..n][w := ws[w].(pc := pc)];
    } else {
      assert ws'[..n] == ws[..n];
    }
  }

  // The transactions whose done message is still to be received.
  function Live(ws: seq<Worker>): set<Txid> {
    set w | 0 <= w < |ws| && !ws[w].pc.Gone? :: ws[w].txid
  }

  predicate OneWorkerEach(ws: seq<Worker>) {
    forall a, b :: 0 <= a < b < |ws| && !ws[a].pc.Gone? && !ws[b].pc.Gone? ==> ws[a].txid != ws[b].txid
  }

  // The transaction the loop has claimed and is waiting to start.
  function Claimed(m: MainPc): set<Txid> {
    if m.Acquiring? && m.i < |m.page| then {m.page[m.i]} else {}
  }

  predicate Inv(cfg: Config, s: State) {
    && s.slots == Holders(s.workers) <= cfg.concurrency
    && s.wg == Counted(s.workers)
    && OneWorkerEach(s.workers)
    && s.inflight == Live(s.workers) + Claimed(s.main)
    && Claimed(s.main) !! Live(s.workers)
    && (s.main.Acquiring? ==> s.main.i < |s.main.page|)
    && s.removed <= s.settled
    && (forall w :: 0 <= w < |s.workers| && s.workers[w].pc.Removing? ==> s.workers[w].txid in s.settled)
  }

  lemma {:induction false} MovedLive(s: State, w: nat, pc: Pc)
    requires w < |s.workers| && OneWorkerEach(s.workers) && !s.workers[w].pc.Gone?
    ensures var ws := Move(s, w, pc).workers;
            OneWorkerEach(ws) && Live(ws) == (if pc.Gone? then Live(s.workers) - {TxidOf(s, w)} else Live(s.workers))
  {
    var ws := Move(s, w, pc).workers;
    forall t
      ensures t in Live(ws) <==> t in Live(s.workers) && !(pc.Gone? && t == TxidOf(s, w))
    {
      if t in Live(s.workers) {
        var v :| 0 <= v < |s.workers| && !s.workers[v].pc.Gone? && s.workers[v].txid == t;
        assert ws[v].txid == t;
      }
    }
  }

  // A worker that changes place without touching its slot, the wait group or the channels.
  lemma {:induction false} MoveKeepsInv(cfg: Config, s: State, w: nat, pc: Pc)
    requires Inv(cfg, s) && w < |s.workers| && Holds(s.workers[w].pc) && Holds(pc)
    requires pc.Removing? ==> s.workers[w].txid in s.settled
    ensures Inv(cfg, Move(s, w, pc))
  {
    MoveCounts(s.workers, w, pc);
    MovedLive(s, w, pc);
  }

  lemma {:induction false} SettlingKeepsInv(cfg: Config, s: State, t: Txid)
    requires Inv(cfg, s)
    ensures Inv(cfg, s.(settled := s.settled + {t}))
  {
  }

  lemma {:induction false} LeaveKeepsInv(cfg: Config, s: State, e: Event)
    requires Inv(cfg, s) && Enabled(cfg, s, e) && (e.Release? || e.WgDone? || e.ReceiveDone?)
    ensures Inv(cfg, Next(cfg, s, e))
  {
    var pc := if e.Release? then Released else if e.WgDone? then SendingDone else Gone;
    MoveCounts(s.workers, e.w, pc);
    MovedLive(s, e.w, pc);
    assert TxidOf(s, e.w) in Live(s.workers);
  }

  lemma {:induction false} AcquireKeepsInv(cfg: Config, s: State)
    requires Inv(cfg, s) && Enabled(cfg, s, Acquire)
    ensures Inv(cfg, Next(cfg, s, Acquire))
  {
    var t := s.main.page[s.main.i];
    var ws := s.workers + [Worker(t, Loading)];
    assert ws[..|ws| - 1] == s.workers;
    forall x
      ensures x in Live(ws) <==> x in Live(s.workers) || x == t
    {
      assert ws[|s.workers|].txid == t;
      if x in Live(s.workers) {
        var v :| 0 <= v < |s.workers| && !s.workers[v].pc.Gone? && s.workers[v].txid == x;
        assert ws[v].txid == x;
      }
    }
    assert forall v :: 0 <= v < |s.workers| && !s.workers[v].pc.Gone? ==> s.workers[v].txid in Live(s.workers);
  }

  // Steps by which a worker moves on while it holds its slot.
  predicate Works(e: Event) {
    || e.NotFound? || e.LoadFails? || e.Loaded? || e.Ingested? || e.IngestFails? || e.CallbackDone? || e.CallbackFails?
    || e.Delog? || e.DelogFails? || e.Panic? || e.ReceiveError?
  }

  function Target(cfg: Config, e: Event): Pc
    requires Works(e)
  {
    match e
    case NotFound(_) => Removing
    case Loaded(_) => Ingesting
    case Ingested(_) => AfterIngest(cfg)
    case LoadFails(_) => SendingError
    case IngestFails(_) => SendingError
    case CallbackFails(_) => SendingError
    case _ => Leaving
  }

  lemma {:induction false} WorkKeepsInv(cfg: Config, s: State, e: Event)
    requires Inv(cfg, s) && Enabled(cfg, s, e) && Works(e)
    ensures Inv(cfg, Next(cfg, s, e))
  {
    var s' := if e.NotFound? || e.Ingested? then s.(settled := s.settled + {TxidOf(s, e.w)}) else s;
    SettlingKeepsInv(cfg, s, TxidOf(s, e.w));
    MoveKeepsInv(cfg, s', e.w, Target(cfg, e));
    var moved := Move(s', e.w, Target(cfg, e));
    var next := Next(cfg, s, e);
    assert next.workers == moved.workers && next.slots == moved.slots && next.wg == moved.wg;
    assert next.inflight == moved.inflight && Claimed(next.main) == Claimed(moved.main);
    assert next.settled == moved.settled;
  }

  lemma {:induction false} NextKeepsInv(cfg: Config, s: State, e: Event)
    requires Inv(cfg, s) && Enabled(cfg, s, e)
    ensures Inv(cfg, Next(cfg, s, e))
  {
    if Works(e) {
      WorkKeepsInv(cfg, s, e);
    } else if e.Acquire? {
      AcquireKeepsInv(cfg, s);
    } else if e.Release? || e.WgDone? || e.ReceiveDone? {
      LeaveKeepsInv(cfg, s, e);
    } else {
      LoopKeepsInv(cfg, s, e);
    }
  }

  lemma {:induction false} LoopKeepsInv(cfg: Config, s: State, e: Event)
    requires Inv(cfg, s) && Enabled(cfg, s, e)
    requires !Works(e) && !e.Acquire? && !e.Release? && !e.WgDone? && !e.ReceiveDone?
    ensures Inv(cfg, Next(cfg, s, e))
  {
    assert Next(cfg, s, e).workers == s.workers;
  }

  // In every run: no more slots taken than there are, one live worker per transaction,
  // `inflight` exact, and nothing taken off the queue before it is ingested or known missing.
  lemma {:induction false} RunsKeepInv(cfg: Config, queue: set<Txid>, es: seq<Event>)
    requires Possible(cfg, queue, es)
    ensures Inv(cfg, After(cfg, queue, es))
  {
    if es != [] {
      RunsKeepInv(cfg, queue, es[..|es| - 1]);
      NextKeepsInv(cfg, After(cfg, queue, es[..|es| - 1]), es[|es| - 1]);
    }
  }

  /** Getting stuck */

  // Steps of the program itself; arrivals, cancellation and the clock come from outside.
  predicate OwnStep(e: Event) {
    !e.Enqueue? && !e.Cancel? && !e.Tick?
  }

  ghost predicate Stuck(cfg: Config, s: State) {
    !s.main.Stopped? && forall e :: OwnStep(e) ==> !Enabled(cfg, s, e)
  }

  // The loop waits for a slot or for all workers, and every worker waits for the loop.
  predicate Blocked(cfg: Config, s: State) {
    && ((s.main.Acquiring? && s.slots >= cfg.concurrency) || (s.main.Draining? && s.wg > 0))
    && forall w :: 0 <= w < |s.workers| ==>
         s.workers[w].pc.SendingError? || s.workers[w].pc.SendingDone? || s.workers[w].pc.Gone?
  }

  // The step a worker can take, if it does not wait for the loop.
  function StepOf(w: nat, pc: Pc): Event {
    match pc
    case Loading => Loaded(w)
    case Ingesting => Ingested(w)
    case Calling => CallbackDone(w)
    case Removing => Delog(w)
    case Leaving => Release(w)
    case Released => WgDone(w)
    case SendingError => ReceiveError(w)
    case _ => ReceiveDone(w)
  }

  lemma {:induction false} WorkersCount(ws: seq<Worker>, w: nat)
    requires w < |ws|
    ensures Holds(ws[w].pc) ==> Holders(ws) > 0
    ensures Counts(ws[w].pc) ==> Counted(ws) > 0
  {
    if w < |ws| - 1 {
      WorkersCount(ws[..|ws| - 1], w);
    }
  }

  lemma {:induction false} WorkerCanStep(cfg: Config, s: State, w: nat)
    requires Inv(cfg, s) && w < |s.workers|
    requires var pc := s.workers[w].pc; !pc.SendingError? && !pc.SendingDone? && !pc.Gone?
    ensures var e := StepOf(w, s.workers[w].pc); OwnStep(e) && Enabled(cfg, s, e)
  {
    WorkersCount(s.workers, w);
  }

  // The loop's own step, where it has one.
  lemma {:induction false} LoopCanStep(cfg: Config, s: State)
    requires Inv(cfg, s) && !s.main.Stopped?
    requires !(s.main.Acquiring? && s.slots >= cfg.concurrency) && !(s.main.Draining? && s.wg > 0)
    ensures exists e :: OwnStep(e) && Enabled(cfg, s, e)
  {
    match s.main {
      case Selecting =>
        if SomeoneSends(s) {
          var w :| 0 <= w < |s.workers| && (s.workers[w].pc.SendingDone? || s.workers[w].pc.SendingError?);
          assert Enabled(cfg, s, StepOf(w, s.workers[w].pc));
        } else if s.cancelled {
          assert Enabled(cfg, s, BeginDrain);
        } else {
          assert Enabled(cfg, s, SearchFails);
        }
      case Scanning(_, _) => assert Enabled(cfg, s, Consider);
      case Acquiring(_, _) => assert Enabled(cfg, s, Acquire);
      case Draining => assert Enabled(cfg, s, Drained);
      case Stopped =>
    }
  }

  // The dispatcher is stuck exactly when it is blocked in this way...
  lemma {:induction false} StuckIffBlocked(cfg: Config, s: State)
    requires Inv(cfg, s)
    ensures Stuck(cfg, s) <==> Blocked(cfg, s)
  {
    if !Blocked(cfg, s) && !s.main.Stopped? {
      if w :| 0 <= w < |s.workers| &&
              !(s.workers[w].pc.SendingError? || s.workers[w].pc.SendingDone? || s.workers[w].pc.Gone?) {
        WorkerCanStep(cfg, s, w);
      } else {
        LoopCanStep(cfg, s);
      }
    }
  }

  lemma {:induction false} AllSenders(ws: seq<Worker>)
    requires forall w :: 0 <= w < |ws| ==> ws[w].pc.SendingError? || ws[w].pc.SendingDone? || ws[w].pc.Gone?
    ensures Senders(ws) == Holders(ws) == Counted(ws)
  {
    if ws != [] {
      AllSenders(ws[..|ws| - 1]);
    }
  }

  lemma {:induction false} SenderExists(ws: seq<Worker>)
    requires Senders(ws) > 0
    ensures exists w :: 0 <= w < |ws| && ws[w].pc.SendingError?
  {
    if !ws[|ws| - 1].pc.SendingError? {
      SenderExists(ws[..|ws| - 1]);
      var w :| 0 <= w < |ws| - 1 && ws[..|ws| - 1][w].pc.SendingError?;
      assert ws[w].pc.SendingError?;
    }
  }

  // ...which takes errors: with at least one slot, either every slot is held by a worker with an
  // error to report, or a draining loop will never hear of one.
  lemma {:induction false} StuckTakesErrors(cfg: Config, queue: set<Txid>, es: seq<Event>)
    requires Possible(cfg, queue, es) && cfg.concurrency > 0
    ensures var s := After(cfg, queue, es);
            Stuck(cfg, s) ==>
              && (s.main.Acquiring? ==> Senders(s.workers) == cfg.concurrency)
              && exists w :: 0 <= w < |s.workers| && s.workers[w].pc.SendingError?
  {
    RunsKeepInv(cfg, queue, es);
    var s := After(cfg, queue, es);
    StuckIffBlocked(cfg, s);
    if Stuck(cfg, s) {
      AllSenders(s.workers);
      SenderExists(s.workers);
    }
  }

  predicate Fails(e: Event) {
    e.LoadFails? || e.IngestFails? || e.CallbackFails?
  }

  predicate NoSender(s: State) {
    forall w :: 0 <= w < |s.workers| ==> !s.workers[w].pc.SendingError?
  }

  lemma {:induction false} NextNoSender(cfg: Config, s: State, e: Event)
    requires NoSender(s) && Enabled(cfg, s, e) && !Fails(e)
    ensures NoSender(Next(cfg, s, e))
  {
  }

  lemma {:induction false} NoFailureNoSender(cfg: Config, queue: set<Txid>, es: seq<Event>)
    requires Possible(cfg, queue, es) && forall i :: 0 <= i < |es| ==> !Fails(es[i])
    ensures NoSender(After(cfg, queue, es))
  {
    if es != [] {
      NoFailureNoSender(cfg, queue, es[..|es| - 1]);
      NextNoSender(cfg, After(cfg, queue, es[..|es| - 1]), es[|es| - 1]);
    }
  }

  // Runs in which no worker reports an error never get stuck.
  lemma {:induction false} NoErrorsNoDeadlock(cfg: Config, queue: set<Txid>, es: seq<Event>)
    requires Possible(cfg, queue, es) && cfg.concurrency > 0
    requires forall i :: 0 <= i < |es| ==> !Fails(es[i])
    ensures !Stuck(cfg, After(cfg, queue, es))
  {
    StuckTakesErrors(cfg, queue, es);
    NoFailureNoSender(cfg, queue, es);
  }

  /** The deadlock is real */

  // One slot, a page of two: the first transaction cannot be loaded while the loop already
  // waits for a slot for the second.
  function OneErrorRun(): seq<Event> {
    [Page([1, 2]), Consider, Acquire, Consider, LoadFails(0)]
  }

  lemma {:induction false} Extend(cfg: Config, queue: set<Txid>, es: seq<Event>, e: Event)
    requires Possible(cfg, queue, es) && Enabled(cfg, After(cfg, queue, es), e)
    ensures Possible(cfg, queue, es + [e]) && After(cfg, queue, es + [e]) == Next(cfg, After(cfg, queue, es), e)
  {
    assert (es + [e])[..|es + [e]| - 1] == es;
  }

  // The loop has claimed 2 and worker 0 works on 1, in place pc.
  function Claiming(queue: set<Txid>, pc: Pc): State {
    State(Acquiring([1, 2], 1), {1, 2}, 1, 1, 2, false, [Worker(1, pc)], queue, {}, {})
  }

  lemma {:induction false} ClaimingIsReached(cfg: Config, queue: set<Txid>)
    requires cfg == Config(1, 0, false, false, true) && 1 in queue && 2 in queue
    ensures var es := [Page([1, 2]), Consider, Acquire, Consider];
            Possible(cfg, queue, es) && After(cfg, queue, es) == Claiming(queue, Loading)
  {
    var es: seq<Event> := [];
    Extend(cfg, queue, es, Page([1, 2]));
    es := es + [Page([1, 2])];
    assert After(cfg, queue, es) == Start(queue).(main := Scanning([1, 2], 0));
    Extend(cfg, queue, es, Consider);
    es := es + [Consider];
    assert After(cfg, queue, es) == Start(queue).(main := Acquiring([1, 2], 0), count := 1, inflight := {1});
    Extend(cfg, queue, es, Acquire);
    es := es + [Acquire];
    assert After(cfg, queue, es) ==
           State(Scanning([1, 2], 1), {1}, 1, 1, 1, false, [Worker(1, Loading)], queue, {}, {});
    Extend(cfg, queue, es, Consider);
    assert es + [Consider] == [Page([1, 2]), Consider, Acquire, Consider];
  }

  lemma {:induction false} OneErrorDeadlocks(queue: set<Txid>)
    requires 1 in queue && 2 in queue
    ensures var cfg := Config(1, 0, false, false, true);
            Possible(cfg, queue, OneErrorRun()) && Stuck(cfg, After(cfg, queue, OneErrorRun()))
  {
    var cfg := Config(1, 0, false, false, true);
    var es := [Page([1, 2]), Consider, Acquire, Consider];
    ClaimingIsReached(cfg, queue);
    Extend(cfg, queue, es, LoadFails(0));
    assert es + [LoadFails(0)] == OneErrorRun();
    assert After(cfg, queue, OneErrorRun()) == Claiming(queue, SendingError);
    RunsKeepInv(cfg, queue, OneErrorRun());
    StuckIffBlocked(cfg, Claiming(queue, SendingError));
  }
}
