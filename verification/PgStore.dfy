// The Postgres store (idx/pg-store/txos.go, queue.go): three tables written by upserts.
module PgStores {
  import opened Common
  import opened Keys
  import opened SortedSets

  type Txid = nat

  // The columns that saving an output writes.
  datatype Cols = Cols(height: nat, idx: nat, sats: nat, owners: seq<string>)

  // A row without sats is a stub that holds a spend only; a missing spend is ''.
  datatype Row = Row(height: nat, idx: nat, sats: Option<nat>, owners: seq<string>, spend: Option<Txid>)

  datatype Db = Db(
    txos: map<Outpoint, Row>,
    logs: map<(string, Member), int>,
    datas: DataTable)

  datatype Stmt =
    | UpsertTxo(o: Outpoint, cols: Cols)
    | UpsertSpends(os: set<Outpoint>, t: Txid, now: nat)
    | UpsertLogs(keys: set<string>, m: Member, score: int)
    | UpsertData(o: Outpoint, datas: map<string, string>)

  function WithCols(txos: map<Outpoint, Row>, o: Outpoint, c: Cols): Row {
    Row(c.height, c.idx, Some(c.sats), c.owners, if o in txos then txos[o].spend else None)
  }

  // The default height of a row is the second it is made in.
  function WithSpend(txos: map<Outpoint, Row>, o: Outpoint, t: Txid, now: nat): Row {
    if o in txos then txos[o].(spend := Some(t)) else Row(now, 0, None, [], Some(t))
  }

  function Exec(db: Db, st: Stmt): Db {
    match st
    case UpsertTxo(o, cols) => db.(txos := db.txos[o := WithCols(db.txos, o, cols)])
    case UpsertSpends(os, t, now) => db.(txos := db.txos + map o | o in os :: WithSpend(db.txos, o, t, now))
    case UpsertLogs(keys, m, score) => db.(logs := db.logs + map k | k in keys :: (k, m) := score)
    case UpsertData(o, datas) => db.(datas := WithData(db.datas, o, datas, datas.Keys))
  }

  type DataTable = map<(Outpoint, string), string>

  function WithData(table: DataTable, o: Outpoint, values: map<string, string>, tags: set<string>): DataTable {
    table + map tag | tag in tags && tag in values :: (o, tag) := values[tag]
  }

  lemma {:induction false} WithDataNext(table: DataTable, o: Outpoint, values: map<string, string>,
                                        tags: set<string>, tag: string)
    requires tag in values
    ensures WithData(table, o, values, tags + {tag}) == WithData(table, o, values, tags)[(o, tag) := values[tag]]
  {
  }

  function Run(db: Db, stmts: seq<Stmt>): Db {
    if stmts == [] then db else Exec(Run(db, stmts[..|stmts| - 1]), stmts[|stmts| - 1])
  }

  /** What can be read */

  function LoadTxo(db: Db, o: Outpoint): Option<Cols> {
    if o in db.txos && db.txos[o].sats.Some? then
      Some(Cols(db.txos[o].height, db.txos[o].idx, db.txos[o].sats.value, db.txos[o].owners))
    else None
  }

  function GetSpend(db: Db, o: Outpoint): Option<Txid> {
    if o in db.txos then db.txos[o].spend else None
  }

  function LoadData(db: Db, o: Outpoint, tags: set<string>): map<string, string> {
    map tag | tag in tags && (o, tag) in db.datas :: db.datas[(o, tag)]
  }

  function DataOf(db: Db, o: Outpoint, tag: string): Option<string> {
    if (o, tag) in db.datas then Some(db.datas[(o, tag)]) else None
  }

  // A missing entry reads as 0.
  function LogScore(db: Db, key: string, m: Member): int {
    if (key, m) in db.logs then db.logs[(key, m)] else 0
  }

  /** Ingesting and rolling back a transaction */

  // datas holds the printed value of those tags that have one.
  datatype Txo = Txo(outpoint: Outpoint, sats: nat, owners: seq<string>, data: map<string, set<(string, string)>>,
                     datas: map<string, string>)

  datatype Ingest = Ingest(t: Txid, height: nat, idx: nat, score: int, txos: seq<Txo>, spends: seq<Spend>)

  function TxoKeys(txo: Txo): set<string> {
    DataKeys(txo.data) + OwnerKeys(txo.owners)
  }

  function TxoStmts(i: Ingest, txo: Txo): seq<Stmt> {
    [UpsertTxo(txo.outpoint, Cols(i.height, i.idx, txo.sats, txo.owners)),
     UpsertLogs(TxoKeys(txo), OutMember(txo.outpoint), i.score),
     UpsertData(txo.outpoint, txo.datas)]
  }

  function SaveStmts(i: Ingest, n: nat): seq<Stmt>
    requires n <= |i.txos|
  {
    if n == 0 then [] else SaveStmts(i, n - 1) + TxoStmts(i, i.txos[n - 1])
  }

  function SpendStmts(i: Ingest, now: nat): seq<Stmt> {
    [UpsertSpends(Outpoints(i.spends), i.t, now), UpsertLogs(SpendKeys(i.spends), TxMember(i.t), i.score)]
  }

  predicate IsOf(m: Member, t: Txid) {
    m == TxMember(t) || (m.OutMember? && m.o.txid == t)
  }

  // The prefix patterns match the transaction and all its outputs, and nothing else.
  function RolledBack(db: Db, t: Txid): Db {
    Db(map o | o in db.txos && o.txid != t ::
         if db.txos[o].spend == Some(t) then db.txos[o].(spend := None) else db.txos[o],
       map e | e in db.logs && !IsOf(e.1, t) :: db.logs[e],
       map e | e in db.datas && e.0.txid != t :: db.datas[e])
  }

  lemma {:induction false} RunConcat(db: Db, a: seq<Stmt>, b: seq<Stmt>)
    ensures Run(db, a + b) == Run(Run(db, a), b)
  {
    if b == [] {
      assert a + b == a;
    } else {
      assert (a + b)[..|a + b| - 1] == a + b[..|b| - 1];
      RunConcat(db, a, b[..|b| - 1]);
    }
  }

  class PGStore {
    var txos: map<Outpoint, Row>
    var logs: map<(string, Member), int>
    var datas: DataTable

    constructor ()
      ensures Contents() == Db(map[], map[], map[])
    {
      txos, logs, datas := map[], map[], map[];
    }

    function Contents(): Db
      reads this
    {
      Db(txos, logs, datas)
    }

    method InsertLogs(keys: set<string>, m: Member, score: int)
      modifies this`logs
      ensures Contents() == Exec(old(Contents()), UpsertLogs(keys, m, score))
    {
      logs := logs + map k | k in keys :: (k, m) := score;
    }

    method InsertTxo(o: Outpoint, cols: Cols)
      modifies this`txos
      ensures Contents() == Exec(old(Contents()), UpsertTxo(o, cols))
    {
      txos := txos[o := WithCols(txos, o, cols)];
    }

    // One statement per tag, in any order.
    method InsertData(o: Outpoint, values: map<string, string>)
      modifies this`datas
      ensures datas == WithData(old(datas), o, values, values.Keys)
    {
      var tags := values.Keys;
      ghost var before, done: set<string> := datas, {};
      assert WithData(before, o, values, {}) == before;
      while tags != {}
        invariant tags <= values.Keys && done == values.Keys - tags
        invariant datas == WithData(before, o, values, done)
      {
        var tag :| tag in tags;
        WithDataNext(before, o, values, done, tag);
        datas := datas[(o, tag) := values[tag]];
        tags, done := tags - {tag}, done + {tag};
      }
      assert done == values.Keys;
    }

    method SaveTxo(i: Ingest, txo: Txo)
      modifies this
      ensures Contents() == Run(old(Contents()), TxoStmts(i, txo))
    {
      ThreeSteps(Contents(), TxoStmts(i, txo));
      var events := CollectEvents(txo.data, txo.owners);
      InsertTxo(txo.outpoint, Cols(i.height, i.idx, txo.sats, txo.owners));
      if events == [] {
        NoLogs(Contents(), OutMember(txo.outpoint), i.score);
      } else {
        InsertLogs(Elems(events), OutMember(txo.outpoint), i.score);
      }
      InsertData(txo.outpoint, txo.datas);
    }

    method SaveTxos(i: Ingest)
      modifies this
      ensures Contents() == Run(old(Contents()), SaveStmts(i, |i.txos|))
    {
      for v: nat := 0 to |i.txos|
        invariant Contents() == Run(old(Contents()), SaveStmts(i, v))
      {
        RunConcat(old(Contents()), SaveStmts(i, v), TxoStmts(i, i.txos[v]));
        SaveTxo(i, i.txos[v]);
      }
    }

    method SaveSpends(i: Ingest, now: nat)
      modifies this
      ensures Contents() == Run(old(Contents()), SpendStmts(i, now))
    {
      ghost var db, stmts := Contents(), SpendStmts(i, now);
      var os, keys := CollectSpends(i.spends);
      txos := txos + map o | o in os :: WithSpend(txos, o, i.t, now);
      InsertLogs(Elems(keys), TxMember(i.t), i.score);
      assert Contents() == Exec(Exec(db, stmts[0]), stmts[1]);
      TwoSteps(db, stmts);
    }

    // Compare-and-set: only a row without a spend, or no row, takes one.
    method SetNewSpend(o: Outpoint, t: Txid, now: nat) returns (added: bool)
      modifies this`txos
      ensures added <==> GetSpend(old(Contents()), o).None?
      ensures GetSpend(Contents(), o) == if added then Some(t) else GetSpend(old(Contents()), o)
      ensures forall p :: p != o ==> GetSpend(Contents(), p) == GetSpend(old(Contents()), p)
      ensures forall p :: LoadTxo(Contents(), p) == LoadTxo(old(Contents()), p)
    {
      added := o !in txos || txos[o].spend.None?;
      if added {
        txos := txos[o := WithSpend(txos, o, t, now)];
      }
    }

    method UnsetSpends(os: set<Outpoint>)
      modifies this`txos
      ensures forall p :: GetSpend(Contents(), p) == if p in os then None else GetSpend(old(Contents()), p)
      ensures forall p :: LoadTxo(Contents(), p) == LoadTxo(old(Contents()), p)
    {
      txos := map o | o in txos :: if o in os then txos[o].(spend := None) else txos[o];
    }

    // One database transaction of four statements.
    method Rollback(t: Txid)
      modifies this
      ensures Contents() == RolledBack(old(Contents()), t)
    {
      txos := map o | o in txos :: if txos[o].spend == Some(t) then txos[o].(spend := None) else txos[o];
      logs := map e | e in logs && !IsOf(e.1, t) :: logs[e];
      datas := map e | e in datas && e.0.txid != t :: datas[e];
      txos := map o | o in txos && o.txid != t :: txos[o];
    }

    method Log(key: string, m: Member, score: int)
      modifies this`logs
      ensures Contents() == Exec(old(Contents()), UpsertLogs({key}, m, score))
      ensures LogScore(Contents(), key, m) == score
    {
      logs := logs[(key, m) := score];
    }

    // Only the first of several callers is told that the entry is new.
    method LogOnce(key: string, m: Member, score: int) returns (added: bool)
      modifies this`logs
      ensures added <==> (key, m) !in old(logs)
      ensures logs == if added then old(logs)[(key, m) := score] else old(logs)
    {
      added := (key, m) !in logs;
      if added {
        logs := logs[(key, m) := score];
      }
    }

    method Delog(key: string, ms: set<Member>)
      modifies this`logs
      ensures forall k, m ::
                LogScore(Contents(), k, m) == if k == key && m in ms then 0 else LogScore(old(Contents()), k, m)
      ensures forall e :: e in logs <==> e in old(logs) && !(e.0 == key && e.1 in ms)
    {
      logs := map e | e in logs && !(e.0 == key && e.1 in ms) :: logs[e];
    }
  }

  lemma {:induction false} NoLogs(db: Db, m: Member, score: int)
    ensures Exec(db, UpsertLogs(Elems<string>([]), m, score)) == db
  {
    assert Elems<string>([]) == {};
  }

  lemma {:induction false} TwoSteps(db: Db, stmts: seq<Stmt>)
    requires |stmts| == 2
    ensures Run(db, stmts) == Exec(Exec(db, stmts[0]), stmts[1])
  {
    assert stmts[..1][..0] == [];
    assert Run(db, stmts[..1]) == Exec(Run(db, []), stmts[0]);
  }

  lemma {:induction false} ThreeSteps(db: Db, stmts: seq<Stmt>)
    requires |stmts| == 3
    ensures Run(db, stmts) == Exec(Exec(Exec(db, stmts[0]), stmts[1]), stmts[2])
  {
    TwoSteps(db, stmts[..2]);
  }
}
