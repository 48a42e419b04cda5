// The resumable subscription (sub/sub.go): block transactions are buffered, written to the queue
// in batches, and the block reached is recorded so that a restart can go on from there.
module Subscriptions {
  import opened Common
  import opened Scores

  type Txid = nat

  datatype Entry = Entry(txid: Txid, score: nat)

  // A transaction in a block.
  datatype BlockTx = BlockTx(txid: Txid, height: nat, idx: nat)

  datatype Config = Config(fromBlock: nat, indexBlocks: bool, indexMempool: bool, rewind: bool)

  // What survives a crash: everything ever written to the queue, and the progress (0 if none).
  datatype Stored = Stored(queue: map<Txid, nat>, progress: nat)

  datatype Session = Session(fromBlock: nat, logs: seq<Entry>, count: nat)

  // Where a session starts.
  function StartBlock(cfg: Config, progress: nat): nat {
    if progress > 6 then (if cfg.rewind then progress - 5 else progress) else cfg.fromBlock
  }

  function WriteAll(queue: map<Txid, nat>, logs: seq<Entry>): map<Txid, nat> {
    if logs == [] then queue
    else WriteAll(queue, logs[..|logs| - 1])[logs[|logs| - 1].txid := logs[|logs| - 1].score]
  }

  lemma {:induction false} WriteAllKeys(queue: map<Txid, nat>, logs: seq<Entry>)
    ensures forall t :: t in WriteAll(queue, logs) <==> t in queue || exists i :: 0 <= i < |logs| && logs[i].txid == t
  {
    if logs != [] {
      var n := |logs| - 1;
      WriteAllKeys(queue, logs[..n]);
      assert forall i :: 0 <= i < n ==> logs[..n][i] == logs[i];
    }
  }

  // What a transaction of a block does to the session.
  function Buffered(cfg: Config, s: Session, tx: BlockTx): Session {
    if cfg.indexBlocks
    then s.(logs := s.logs + [Entry(tx.txid, HeightScore(tx.height, tx.idx, 0))], count := s.count + 1)
    else s
  }

  // The buffer is emptied whether or not writing it succeeds.
  function Flushed(s: Session): Session {
    s.(logs := [])
  }

  function Written(st: Stored, s: Session, ok: bool): Stored {
    if ok then st.(queue := WriteAll(st.queue, s.logs)) else st
  }

  function Recorded(st: Stored, block: nat, ok: bool): Stored {
    if ok then st.(progress := block) else st
  }

  class Subscription {
    const cfg: Config
    var queue: map<Txid, nat>
    var progress: nat
    var fromBlock: nat
    var logs: seq<Entry>
    var count: nat

    // Exec, up to subscribing, on a store that may hold earlier work.
    constructor (cfg: Config, stored: Stored)
      ensures this.cfg == cfg && Store() == stored
      ensures State() == Session(StartBlock(cfg, stored.progress), [], 0)
    {
      this.cfg := cfg;
      queue, progress := stored.queue, stored.progress;
      logs, count := [], 0;
      fromBlock := cfg.fromBlock;
      if stored.progress > 6 {
        if cfg.rewind {
          fromBlock := stored.progress - 5;
        } else {
          fromBlock := stored.progress;
        }
      }
    }

    function Store(): Stored
      reads this
    {
      Stored(queue, progress)
    }

    function State(): Session
      reads this
    {
      Session(fromBlock, logs, count)
    }

    method OnTransaction(tx: BlockTx)
      modifies this`logs, this`count
      ensures State() == Buffered(cfg, old(State()), tx)
    {
      if cfg.indexBlocks {
        count := count + 1;
        logs := logs + [Entry(tx.txid, HeightScore(tx.height, tx.idx, 0))];
      }
    }

    method OnMempool(t: Txid, now: nat)
      modifies this`queue
      ensures queue == if cfg.indexMempool then old(queue)[t := HeightScore(0, 0, now)] else old(queue)
    {
      if cfg.indexMempool {
        queue := queue[t := HeightScore(0, 0, now)];
      }
    }

    method LogMany(ok: bool)
      modifies this`queue
      ensures Store() == Written(old(Store()), old(State()), ok)
    {
      if ok {
        var before := queue;
        for i: nat := 0 to |logs|
          invariant queue == WriteAll(before, logs[..i])
        {
          assert logs[..i + 1][..i] == logs[..i];
          queue := queue[logs[i].txid := logs[i].score];
        }
        assert logs[..|logs|] == logs;
      }
    }

    // Status 199 writes the buffer; 200 writes it and then records the block.
    method OnStatus(code: nat, block: nat, wrote: bool, recorded: bool)
      modifies this`queue, this`logs, this`progress, this`count
      ensures code !in {199, 200} ==> Store() == old(Store()) && State() == old(State())
      ensures code == 199 ==> Store() == Written(old(Store()), old(State()), wrote) && State() == Flushed(old(State()))
      ensures code == 200 ==> State() == Flushed(old(State())).(count := 0)
      ensures code == 200 ==>
                Store() == Recorded(Written(old(Store()), old(State()), wrote), block, recorded)
    {
      if code == 199 || code == 200 {
        if |logs| > 0 {
          LogMany(wrote);
          logs := [];
        }
      }
      if code == 200 {
        if recorded {
          progress := block;
        }
        count := 0;
      }
    }
  }

  /** Runs with crashes */

  // `arrived` is what the feed has delivered in this session; `saving` is the block that is
  // about to be recorded.
  datatype State = State(
    stored: Stored,
    session: Option<Session>,
    arrived: set<BlockTx>,
    saving: Option<nat>)

  datatype Event =
    | Start
    | Arrive(tx: BlockTx)
    | Mempool(t: Txid, now: nat)
    | Flush(wrote: bool)
    | FlushBlock(block: nat, wrote: bool)
    | Record(recorded: bool)
    | Crash

  // The feed: a block's status comes only when all transactions of the blocks from the start of
  // the session up to it have been delivered.
  ghost predicate Enabled(cfg: Config, chain: set<BlockTx>, s: State, e: Event) {
    match e
    case Start => s.session.None?
    case Arrive(tx) => s.session.Some? && s.saving.None?
    case Mempool(_, _) => s.session.Some? && s.saving.None?
    case Flush(_) => s.session.Some? && s.saving.None?
    case FlushBlock(block, _) =>
      && s.session.Some? && s.saving.None?
      && forall tx :: tx in chain && s.session.value.fromBlock <= tx.height <= block ==> tx in s.arrived
    case Record(_) => s.session.Some? && s.saving.Some?
    case Crash => s.session.Some?
  }

  function Next(cfg: Config, s: State, e: Event): State
    requires e.Start? || s.session.Some?
    requires e.Record? ==> s.saving.Some?
  {
    match e
    case Start => State(s.stored, Some(Session(StartBlock(cfg, s.stored.progress), [], 0)), {}, None)
    case Arrive(tx) => s.(session := Some(Buffered(cfg, s.session.value, tx)), arrived := s.arrived + {tx})
    case Mempool(t, now) =>
      if cfg.indexMempool then s.(stored := s.stored.(queue := s.stored.queue[t := HeightScore(0, 0, now)])) else s
    case Flush(wrote) =>
      s.(stored := Written(s.stored, s.session.value, wrote), session := Some(Flushed(s.session.value)))
    case FlushBlock(block, wrote) =>
      s.(stored := Written(s.stored, s.session.value, wrote), session := Some(Flushed(s.session.value)),
         saving := Some(block))
    case Record(recorded) =>
      s.(stored := Recorded(s.stored, s.saving.value, recorded),
         session := Some(s.session.value.(count := 0)), saving := None)
    case Crash => s.(session := None, arrived := {}, saving := None)
  }

  ghost predicate Possible(cfg: Config, chain: set<BlockTx>, stored: Stored, es: seq<Event>)
    decreases |es|, 0
  {
    es == [] ||
    (Possible(cfg, chain, stored, es[..|es| - 1]) &&
        Enabled(cfg, chain, After(cfg, chain, stored, es[..|es| - 1]), es[|es| - 1]))
  }

  ghost function After(cfg: Config, chain: set<BlockTx>, stored: Stored, es: seq<Event>): State
    requires Possible(cfg, chain, stored, es)
    decreases |es|, 1
  {
    if es == [] then State(stored, None, {}, None)
    else Next(cfg, After(cfg, chain, stored, es[..|es| - 1]), es[|es| - 1])
  }

  // Every transaction of the blocks from..through has been written to the queue.
  ghost predicate Covered(chain: set<BlockTx>, queue: map<Txid, nat>, from': nat, through: int) {
    forall tx :: tx in chain && from' <= tx.height <= through ==> tx.txid in queue
  }

  function Txids(logs: seq<Entry>): set<Txid> {
    set i | 0 <= i < |logs| :: logs[i].txid
  }

  predicate Drops(e: Event) {
    (e.Flush? && !e.wrote) || (e.FlushBlock? && !e.wrote)
  }

  // The transactions in the batches that this session failed to write.
  ghost function Dropped(cfg: Config, chain: set<BlockTx>, stored: Stored, es: seq<Event>): set<Txid>
    requires Possible(cfg, chain, stored, es)
  {
    if es == [] then {}
    else
      var init, e := es[..|es| - 1], es[|es| - 1];
      AfterStep(After(cfg, chain, stored, init), e, Dropped(cfg, chain, stored, init))
  }

  function AfterStep(s: State, e: Event, dropped: set<Txid>): set<Txid> {
    if e.Start? || e.Crash? then {}
    else if Drops(e) && s.session.Some? then dropped + Txids(s.session.value.logs)
    else dropped
  }

  // No dropped transaction of the blocks through the one about to be recorded is still missing.
  ghost predicate NothingLost(cfg: Config, chain: set<BlockTx>, s: State, dropped: set<Txid>)
    requires s.saving.Some?
  {
    forall tx :: tx in chain && cfg.fromBlock <= tx.height <= s.saving.value && tx.txid in dropped ==>
      tx.txid in s.stored.queue
  }

  ghost predicate Held(s: Session, queue: map<Txid, nat>, arrived: set<BlockTx>, dropped: set<Txid>) {
    forall tx :: tx in arrived ==> tx.txid in queue || tx.txid in Txids(s.logs) || tx.txid in dropped
  }

  // What is delivered is queued, buffered or dropped; what is about to be recorded is delivered.
  ghost predicate Inv(cfg: Config, chain: set<BlockTx>, s: State, dropped: set<Txid>) {
    var queue := s.stored.queue;
    && Covered(chain, queue, cfg.fromBlock, s.stored.progress)
    && (s.session.Some? ==>
          && Covered(chain, queue, cfg.fromBlock, s.session.value.fromBlock - 1)
          && Held(s.session.value, queue, s.arrived, dropped))
    && (s.saving.Some? ==>
          && s.session.Some? && s.session.value.logs == []
          && forall tx :: tx in chain && s.session.value.fromBlock <= tx.height <= s.saving.value ==> tx in s.arrived)
  }

  lemma {:induction false} FlushHolds(s: State, dropped: set<Txid>)
    requires s.session.Some? && Held(s.session.value, s.stored.queue, s.arrived, dropped)
    ensures var queue := WriteAll(s.stored.queue, s.session.value.logs);
            && (forall t :: t in s.stored.queue ==> t in queue)
            && Held(Flushed(s.session.value), queue, s.arrived, dropped)
    ensures Held(Flushed(s.session.value), s.stored.queue, s.arrived, dropped + Txids(s.session.value.logs))
  {
    WriteAllKeys(s.stored.queue, s.session.value.logs);
  }

  lemma {:induction false} ArriveHolds(cfg: Config, s: Session, tx: BlockTx)
    requires cfg.indexBlocks
    ensures Txids(Buffered(cfg, s, tx).logs) == Txids(s.logs) + {tx.txid}
  {
    var logs := Buffered(cfg, s, tx).logs;
    assert logs[|s.logs|].txid == tx.txid;
    assert forall i :: 0 <= i < |s.logs| ==> logs[i] == s.logs[i];
  }

  lemma {:induction false} NextKeepsInv(cfg: Config, chain: set<BlockTx>, s: State, e: Event, dropped: set<Txid>)
    requires cfg.indexBlocks && Inv(cfg, chain, s, dropped) && Enabled(cfg, chain, s, e)
    requires !(e.Record? && e.recorded)
    ensures Inv(cfg, chain, Next(cfg, s, e), AfterStep(s, e, dropped))
  {
    match e {
      case Arrive(tx) => ArriveHolds(cfg, s.session.value, tx);
      case Flush(_) => FlushHolds(s, dropped);
      case FlushBlock(_, _) => FlushHolds(s, dropped);
      case _ =>
    }
  }

  // Recording a block keeps the promise exactly when nothing dropped lies in the blocks through
  // it, unless it has been queued all the same.
  lemma {:induction false} RecordIff(cfg: Config, chain: set<BlockTx>, s: State, e: Event, dropped: set<Txid>)
    requires Inv(cfg, chain, s, dropped) && Enabled(cfg, chain, s, e) && e.Record? && e.recorded
    ensures var after := Next(cfg, s, e).stored;
            Covered(chain, after.queue, cfg.fromBlock, after.progress) <==> NothingLost(cfg, chain, s, dropped)
    ensures NothingLost(cfg, chain, s, dropped) ==> Inv(cfg, chain, Next(cfg, s, e), dropped)
  {
    var from' := s.session.value.fromBlock;
    forall tx | tx in chain && cfg.fromBlock <= tx.height <= s.saving.value
      ensures tx.txid in s.stored.queue || tx.txid in dropped
    {
      if tx.height >= from' {
        assert tx in s.arrived;
      }
    }
  }

  // In one block's terms: with nothing dropped before, a written batch is safe, and a failed one
  // exactly when the block's range was queued already.
  lemma {:induction false} FlushThenRecordIff(cfg: Config, chain: set<BlockTx>, s: State, block: nat, wrote: bool)
    requires cfg.indexBlocks && Inv(cfg, chain, s, {}) && Enabled(cfg, chain, s, FlushBlock(block, wrote))
    ensures var after := Next(cfg, Next(cfg, s, FlushBlock(block, wrote)), Record(true)).stored;
            Covered(chain, after.queue, cfg.fromBlock, after.progress) <==>
              || wrote
              || forall tx |
                   && tx in chain
                   && cfg.fromBlock <= tx.height <= block && s.session.value.fromBlock <= tx.height ::
                   tx.txid in s.stored.queue
  {
    var e := FlushBlock(block, wrote);
    NextKeepsInv(cfg, chain, s, e, {});
    RecordIff(cfg, chain, Next(cfg, s, e), Record(true), AfterStep(s, e, {}));
  }

  // At every moment of the run everything through the recorded progress is queued.
  ghost predicate AlwaysCovered(cfg: Config, chain: set<BlockTx>, stored: Stored, es: seq<Event>)
    requires Possible(cfg, chain, stored, es)
  {
    var now := After(cfg, chain, stored, es).stored;
    && Covered(chain, now.queue, cfg.fromBlock, now.progress)
    && (es == [] || AlwaysCovered(cfg, chain, stored, es[..|es| - 1]))
  }

  // No block is recorded while a transaction that was dropped before it is missing.
  ghost predicate NeverLosing(cfg: Config, chain: set<BlockTx>, stored: Stored, es: seq<Event>)
    requires Possible(cfg, chain, stored, es)
  {
    es == [] ||
    (var init, e := es[..|es| - 1], es[|es| - 1];
     && NeverLosing(cfg, chain, stored, init)
     && (e.Record? && e.recorded ==>
           NothingLost(cfg, chain, After(cfg, chain, stored, init), Dropped(cfg, chain, stored, init))))
  }

  // Main result, for every run with crashes, restarts and failed batches: the recorded progress
  // is always covered if and only if no block is recorded over a loss.
  lemma {:induction false} CoveredIffNothingLost(cfg: Config, chain: set<BlockTx>, stored: Stored, es: seq<Event>)
    requires cfg.indexBlocks && Covered(chain, stored.queue, cfg.fromBlock, stored.progress)
    requires Possible(cfg, chain, stored, es)
    ensures AlwaysCovered(cfg, chain, stored, es) <==> NeverLosing(cfg, chain, stored, es)
    ensures NeverLosing(cfg, chain, stored, es) ==>
              Inv(cfg, chain, After(cfg, chain, stored, es), Dropped(cfg, chain, stored, es))
  {
    if es != [] {
      var init, e := es[..|es| - 1], es[|es| - 1];
      CoveredIffNothingLost(cfg, chain, stored, init);
      var s, dropped := After(cfg, chain, stored, init), Dropped(cfg, chain, stored, init);
      if NeverLosing(cfg, chain, stored, init) {
        if e.Record? && e.recorded {
          RecordIff(cfg, chain, s, e, dropped);
        } else {
          NextKeepsInv(cfg, chain, s, e, dropped);
        }
      }
    }
  }

  lemma {:induction false} WritersDropNothing(cfg: Config, chain: set<BlockTx>, stored: Stored, es: seq<Event>)
    requires Possible(cfg, chain, stored, es) && forall i :: 0 <= i < |es| ==> !Drops(es[i])
    ensures Dropped(cfg, chain, stored, es) == {} && NeverLosing(cfg, chain, stored, es)
  {
    if es != [] {
      WritersDropNothing(cfg, chain, stored, es[..|es| - 1]);
    }
  }

  // In particular, if every batch is written, all transactions from the first block asked for
  // through the recorded progress are queued.
  lemma {:induction false} ProgressIsCovered(cfg: Config, chain: set<BlockTx>, stored: Stored, es: seq<Event>)
    requires cfg.indexBlocks && Covered(chain, stored.queue, cfg.fromBlock, stored.progress)
    requires Possible(cfg, chain, stored, es) && forall i :: 0 <= i < |es| ==> !Drops(es[i])
    ensures var after := After(cfg, chain, stored, es).stored;
            Covered(chain, after.queue, cfg.fromBlock, after.progress)
  {
    WritersDropNothing(cfg, chain, stored, es);
    CoveredIffNothingLost(cfg, chain, stored, es);
  }

  // A session starts at the first block asked for until more than six are recorded, and then where
  // the last one ended, or five blocks before, so that those come again.
  lemma {:induction false} RestartsWhere(cfg: Config, chain: set<BlockTx>, stored: Stored, es: seq<Event>)
    requires Possible(cfg, chain, stored, es + [Start])
    ensures var s := After(cfg, chain, stored, es + [Start]);
            var progress := s.stored.progress;
            && s.session.Some? && s.session.value.logs == []
            && (progress <= 6 ==> s.session.value.fromBlock == cfg.fromBlock)
            && (progress > 6 ==> s.session.value.fromBlock + (if cfg.rewind then 5 else 0) == progress)
  {
    assert (es + [Start])[..|es|] == es;
  }

  /** The scores of the queue */

  // The event brings the transaction with this score.
  predicate Tells(cfg: Config, e: Event, t: Txid, score: nat) {
    match e
    case Arrive(tx) => cfg.indexBlocks && tx.txid == t && score == HeightScore(tx.height, tx.idx, 0)
    case Mempool(u, now) => cfg.indexMempool && u == t && score == HeightScore(0, 0, now)
    case _ => false
  }

  predicate Told(cfg: Config, es: seq<Event>, t: Txid, score: nat) {
    exists i :: 0 <= i < |es| && Tells(cfg, es[i], t, score)
  }

  lemma {:induction false} ToldNext(cfg: Config, es: seq<Event>, t: Txid, score: nat)
    requires es != []
    ensures var n := |es| - 1; Told(cfg, es, t, score) <==> Told(cfg, es[..n], t, score) || Tells(cfg, es[n], t, score)
  {
    var n := |es| - 1;
    if i :| 0 <= i < n && Tells(cfg, es[..n][i], t, score) {
      assert Tells(cfg, es[i], t, score);
    }
    if i :| 0 <= i < |es| && Tells(cfg, es[i], t, score) {
      assert i < n ==> Tells(cfg, es[..n][i], t, score);
    }
  }

  ghost predicate LogsAreTold(cfg: Config, es: seq<Event>, logs: seq<Entry>) {
    forall i :: 0 <= i < |logs| ==> Told(cfg, es, logs[i].txid, logs[i].score)
  }

  ghost predicate QueueIsTold(cfg: Config, es: seq<Event>, before: map<Txid, nat>, queue: map<Txid, nat>) {
    forall t :: t in queue ==> (t in before && queue[t] == before[t]) || Told(cfg, es, t, queue[t])
  }

  lemma {:induction false} WrittenAreTold(cfg: Config, es: seq<Event>, before: map<Txid, nat>, queue: map<Txid, nat>,
                                          logs: seq<Entry>)
    requires QueueIsTold(cfg, es, before, queue) && LogsAreTold(cfg, es, logs)
    ensures QueueIsTold(cfg, es, before, WriteAll(queue, logs))
  {
    if logs != [] {
      WrittenAreTold(cfg, es, before, queue, logs[..|logs| - 1]);
    }
  }

  lemma {:induction false} StillTold(cfg: Config, es: seq<Event>, before: map<Txid, nat>, queue: map<Txid, nat>,
                                     logs: seq<Entry>)
    requires es != [] && QueueIsTold(cfg, es[..|es| - 1], before, queue) && LogsAreTold(cfg, es[..|es| - 1], logs)
    ensures QueueIsTold(cfg, es, before, queue) && LogsAreTold(cfg, es, logs)
  {
    forall t, score | Told(cfg, es[..|es| - 1], t, score)
      ensures Told(cfg, es, t, score)
    {
      ToldNext(cfg, es, t, score);
    }
  }

  function LogsOf(s: State): seq<Entry> {
    if s.session.Some? then s.session.value.logs else []
  }

  // Every entry of the queue was there before, or has the score of the block and position that the
  // transaction came with, or of the time it was seen unmined.
  lemma {:induction false} ScoresAreTold(cfg: Config, chain: set<BlockTx>, stored: Stored, es: seq<Event>)
    requires Possible(cfg, chain, stored, es)
    ensures var s := After(cfg, chain, stored, es);
            QueueIsTold(cfg, es, stored.queue, s.stored.queue) && LogsAreTold(cfg, es, LogsOf(s))
  {
    if es != [] {
      var init, e := es[..|es| - 1], es[|es| - 1];
      ScoresAreTold(cfg, chain, stored, init);
      var s := After(cfg, chain, stored, init);
      StillTold(cfg, es, stored.queue, s.stored.queue, LogsOf(s));
      TellingStep(cfg, es, stored.queue, s);
    }
  }

  lemma {:induction false} TellingStep(cfg: Config, es: seq<Event>, before: map<Txid, nat>, s: State)
    requires es != [] && QueueIsTold(cfg, es, before, s.stored.queue) && LogsAreTold(cfg, es, LogsOf(s))
    requires var e := es[|es| - 1]; (e.Start? || s.session.Some?) && (e.Record? ==> s.saving.Some?)
    ensures var s' := Next(cfg, s, es[|es| - 1]);
            QueueIsTold(cfg, es, before, s'.stored.queue) && LogsAreTold(cfg, es, LogsOf(s'))
  {
    var e := es[|es| - 1];
    WrittenAreTold(cfg, es, before, s.stored.queue, LogsOf(s));
    match e {
      case Arrive(tx) => ToldNext(cfg, es, tx.txid, HeightScore(tx.height, tx.idx, 0));
      case Mempool(t, now) => ToldNext(cfg, es, t, HeightScore(0, 0, now));
      case _ =>
    }
  }

  // An unmined transaction is queued at once, under the time it was seen.
  lemma {:induction false} MempoolIsQueued(cfg: Config, chain: set<BlockTx>, stored: Stored, es: seq<Event>, t: Txid,
                                           now: nat)
    requires cfg.indexMempool && Possible(cfg, chain, stored, es + [Mempool(t, now)])
    ensures var queue := After(cfg, chain, stored, es + [Mempool(t, now)]).stored.queue;
            t in queue && queue[t] == HeightScore(0, 0, now)
  {
    assert (es + [Mempool(t, now)])[..|es|] == es;
  }

  /** When a batch cannot be written */

  lemma {:induction false} Extend(cfg: Config, chain: set<BlockTx>, stored: Stored, es: seq<Event>, e: Event)
    requires Possible(cfg, chain, stored, es) && Enabled(cfg, chain, After(cfg, chain, stored, es), e)
    ensures Possible(cfg, chain, stored, es + [e])
    ensures After(cfg, chain, stored, es + [e]) == Next(cfg, After(cfg, chain, stored, es), e)
  {
    assert (es + [e])[..|es + [e]| - 1] == es;
  }

  // The program reports the error but drops the batch and records the block all the same: the
  // transaction of block 100 is lost, since the restart goes on from block 101.
  lemma {:induction false} FailedBatchIsLost()
    ensures var cfg, tx := Config(100, true, false, false), BlockTx(7, 100, 1);
            var es := [Start, Arrive(tx), FlushBlock(101, false), Record(true), Crash, Start];
            && Possible(cfg, {tx}, Stored(map[], 0), es)
            && var s := After(cfg, {tx}, Stored(map[], 0), es);
               s.stored.progress == 101 && tx.txid !in s.stored.queue && s.session.Some? &&
                   s.session.value.fromBlock > tx.height
  {
    var cfg, tx := Config(100, true, false, false), BlockTx(7, 100, 1);
    var chain, stored := {tx}, Stored(map[], 0);
    var es: seq<Event> := [];
    Extend(cfg, chain, stored, es, Start);
    es := es + [Start];
    Extend(cfg, chain, stored, es, Arrive(tx));
    es := es + [Arrive(tx)];
    Extend(cfg, chain, stored, es, FlushBlock(101, false));
    es := es + [FlushBlock(101, false)];
    Extend(cfg, chain, stored, es, Record(true));
    es := es + [Record(true)];
    Extend(cfg, chain, stored, es, Crash);
    es := es + [Crash];
    Extend(cfg, chain, stored, es, Start);
    assert es + [Start] == [Start, Arrive(tx), FlushBlock(101, false), Record(true), Crash, Start];
  }
}
