// What runs of statements leave readable in the Postgres store: the order of ingests does not
// matter, and a rollback undoes an ingest.
module PgRuns {
  import opened Common
  import opened Keys
  import opened SortedSets
  import opened PgStores

  // Saving outputs never changes a spend, and saving spends never changes an output.
  lemma {:induction false} ColumnsApart(db: Db, st: Stmt, o: Outpoint)
    ensures !st.UpsertSpends? ==> GetSpend(Exec(db, st), o) == GetSpend(db, o)
    ensures !st.UpsertTxo? ==> LoadTxo(Exec(db, st), o) == LoadTxo(db, o)
  {
  }

  /** Order does not matter */

  predicate Agree(a: Stmt, b: Stmt) {
    && (a.UpsertTxo? && b.UpsertTxo? && a.o == b.o ==> a.cols == b.cols)
    && (a.UpsertSpends? && b.UpsertSpends? && a.os * b.os != {} ==> a.t == b.t)
    && (a.UpsertLogs? && b.UpsertLogs? && a.m == b.m ==> a.score == b.score)
    && (a.UpsertData? && b.UpsertData? && a.o == b.o ==> a.datas == b.datas)
  }

  predicate AllAgree(stmts: seq<Stmt>) {
    forall i, j :: 0 <= i < |stmts| && 0 <= j < |stmts| ==> Agree(stmts[i], stmts[j])
  }

  predicate Writes(stmts: seq<Stmt>, o: Outpoint, c: Cols) {
    UpsertTxo(o, c) in stmts
  }

  predicate Spends(stmts: seq<Stmt>, o: Outpoint, t: Txid) {
    exists i :: 0 <= i < |stmts| && stmts[i].UpsertSpends? && o in stmts[i].os && stmts[i].t == t
  }

  // Statements that agree with each other leave what any of them wrote, in whatever order and
  // however often they run.
  lemma {:induction false} RunLoads(db: Db, stmts: seq<Stmt>, o: Outpoint)
    requires AllAgree(stmts)
    ensures forall c :: Writes(stmts, o, c) ==> LoadTxo(Run(db, stmts), o) == Some(c)
    ensures (forall c :: !Writes(stmts, o, c)) ==> LoadTxo(Run(db, stmts), o) == LoadTxo(db, o)
  {
    if stmts != [] {
      var n := |stmts| - 1;
      assert stmts == stmts[..n] + [stmts[n]];
      RunLoads(db, stmts[..n], o);
      ColumnsApart(Run(db, stmts[..n]), stmts[n], o);
      WritesNext(stmts[..n], stmts[n], o);
    }
  }

  lemma {:induction false} RunSpends(db: Db, stmts: seq<Stmt>, o: Outpoint)
    requires AllAgree(stmts)
    ensures forall t: Txid :: Spends(stmts, o, t) ==> GetSpend(Run(db, stmts), o) == Some(t)
    ensures (forall t: Txid :: !Spends(stmts, o, t)) ==> GetSpend(Run(db, stmts), o) == GetSpend(db, o)
  {
    if stmts != [] {
      var n := |stmts| - 1;
      assert stmts == stmts[..n] + [stmts[n]];
      RunSpends(db, stmts[..n], o);
      ColumnsApart(Run(db, stmts[..n]), stmts[n], o);
      SpendsNext(stmts[..n], stmts[n], o);
    }
  }

  lemma {:induction false} WritesNext(init: seq<Stmt>, st: Stmt, o: Outpoint)
    requires AllAgree(init + [st])
    ensures forall c :: Writes(init + [st], o, c) <==> Writes(init, o, c) || st == UpsertTxo(o, c)
    ensures forall c :: Writes(init, o, c) && st.UpsertTxo? && st.o == o ==> st.cols == c
  {
    var all := init + [st];
    assert all[|init|] == st;
    forall c | Writes(init, o, c) && st.UpsertTxo? && st.o == o
      ensures st.cols == c
    {
      var i :| 0 <= i < |init| && init[i] == UpsertTxo(o, c);
      assert Agree(all[i], all[|init|]);
    }
  }

  lemma {:induction false} SpendsNext(init: seq<Stmt>, st: Stmt, o: Outpoint)
    requires AllAgree(init + [st])
    ensures forall t: Txid :: Spends(init + [st], o, t) <==>
        Spends(init, o, t) || (st.UpsertSpends? && o in st.os && st.t == t)
    ensures forall t: Txid :: Spends(init, o, t) && st.UpsertSpends? && o in st.os ==> st.t == t
  {
    var all := init + [st];
    assert all[|init|] == st;
    forall t: Txid | Spends(init, o, t)
      ensures Spends(all, o, t)
      ensures st.UpsertSpends? && o in st.os ==> st.t == t
    {
      var i :| 0 <= i < |init| && init[i].UpsertSpends? && o in init[i].os && init[i].t == t;
      assert all[i] == init[i];
      assert Agree(all[i], all[|init|]);
      assert st.UpsertSpends? && o in st.os ==> o in init[i].os * st.os;
    }
  }

  predicate Scores(stmts: seq<Stmt>, key: string, m: Member, score: int) {
    exists k :: 0 <= k < |stmts| && ScoresBy(stmts[k], key, m, score)
  }

  predicate ScoresBy(st: Stmt, key: string, m: Member, score: int) {
    st.UpsertLogs? && key in st.keys && st.m == m && st.score == score
  }

  predicate Puts(stmts: seq<Stmt>, o: Outpoint, tag: string, value: string) {
    exists k :: 0 <= k < |stmts| && PutsBy(stmts[k], o, tag, value)
  }

  predicate PutsBy(st: Stmt, o: Outpoint, tag: string, value: string) {
    st.UpsertData? && st.o == o && tag in st.datas && st.datas[tag] == value
  }

  lemma {:induction false} RunScores(db: Db, stmts: seq<Stmt>, key: string, m: Member)
    requires AllAgree(stmts)
    ensures forall score: int :: Scores(stmts, key, m, score) ==> LogScore(Run(db, stmts), key, m) == score
    ensures (forall score: int :: !Scores(stmts, key, m, score)) ==>
              LogScore(Run(db, stmts), key, m) == LogScore(db, key, m)
  {
    if stmts != [] {
      var n := |stmts| - 1;
      assert stmts == stmts[..n] + [stmts[n]];
      RunScores(db, stmts[..n], key, m);
      ScoresNext(stmts[..n], stmts[n], key, m);
      ExecScores(Run(db, stmts[..n]), stmts[n], key, m);
      var st := stmts[n];
      assert st.UpsertLogs? && key in st.keys && st.m == m ==> ScoresBy(st, key, m, st.score);
    }
  }

  lemma {:induction false} ExecScores(db: Db, st: Stmt, key: string, m: Member)
    ensures LogScore(Exec(db, st), key, m) ==
            if st.UpsertLogs? && key in st.keys && st.m == m then st.score else LogScore(db, key, m)
  {
    if st.UpsertLogs? {
      var new' := map k | k in st.keys :: (k, st.m) := st.score;
      assert key in st.keys && st.m == m ==> (key, m) in new' && new'[(key, m)] == st.score;
    }
  }

  lemma {:induction false} ScoresNext(init: seq<Stmt>, st: Stmt, key: string, m: Member)
    requires AllAgree(init + [st])
    ensures forall score: int :: Scores(init + [st], key, m, score) <==>
        Scores(init, key, m, score) || ScoresBy(st, key, m, score)
    ensures forall score: int :: Scores(init, key, m, score) && st.UpsertLogs? && st.m == m ==> st.score == score
  {
    var all := init + [st];
    assert all[|init|] == st;
    forall score: int | Scores(init, key, m, score)
      ensures Scores(all, key, m, score)
      ensures st.UpsertLogs? && st.m == m ==> st.score == score
    {
      var k :| 0 <= k < |init| && ScoresBy(init[k], key, m, score);
      assert all[k] == init[k];
      assert Agree(all[k], all[|init|]);
    }
  }

  lemma {:induction false} RunPuts(db: Db, stmts: seq<Stmt>, o: Outpoint, tag: string)
    requires AllAgree(stmts)
    ensures forall value :: Puts(stmts, o, tag, value) ==> DataOf(Run(db, stmts), o, tag) == Some(value)
    ensures (forall value :: !Puts(stmts, o, tag, value)) ==> DataOf(Run(db, stmts), o, tag) == DataOf(db, o, tag)
  {
    if stmts != [] {
      var n := |stmts| - 1;
      assert stmts == stmts[..n] + [stmts[n]];
      RunPuts(db, stmts[..n], o, tag);
      PutsNext(stmts[..n], stmts[n], o, tag);
      ExecPuts(Run(db, stmts[..n]), stmts[n], o, tag);
    }
  }

  lemma {:induction false} ExecPuts(db: Db, st: Stmt, o: Outpoint, tag: string)
    ensures DataOf(Exec(db, st), o, tag) ==
            if st.UpsertData? && st.o == o && tag in st.datas then Some(st.datas[tag]) else DataOf(db, o, tag)
  {
    if st.UpsertData? {
      WithDataAt(db.datas, st.o, st.datas, o, tag);
    }
  }

  lemma {:induction false} WithDataAt(table: DataTable, o: Outpoint, values: map<string, string>, p: Outpoint,
                                      tag: string)
    ensures var after := WithData(table, o, values, values.Keys);
            && (p == o && tag in values ==> (p, tag) in after && after[(p, tag)] == values[tag])
            && (!(p == o && tag in values) ==>
                  ((p, tag) in after <==> (p, tag) in table) &&
                  ((p, tag) in table ==> after[(p, tag)] == table[(p, tag)]))
  {
    var new' := map t | t in values.Keys && t in values :: (o, t) := values[t];
    assert p == o && tag in values ==> (o, tag) in new' && new'[(o, tag)] == values[tag];
  }

  lemma {:induction false} PutsNext(init: seq<Stmt>, st: Stmt, o: Outpoint, tag: string)
    requires AllAgree(init + [st])
    ensures forall value :: Puts(init + [st], o, tag, value) <==>
        Puts(init, o, tag, value) || PutsBy(st, o, tag, value)
    ensures forall value :: Puts(init, o, tag, value) && st.UpsertData? && st.o == o ==> PutsBy(st, o, tag, value)
  {
    var all := init + [st];
    assert all[|init|] == st;
    forall value | Puts(init, o, tag, value)
      ensures Puts(all, o, tag, value)
      ensures st.UpsertData? && st.o == o ==> PutsBy(st, o, tag, value)
    {
      var k :| 0 <= k < |init| && PutsBy(init[k], o, tag, value);
      assert all[k] == init[k];
      assert Agree(all[k], all[|init|]);
    }
  }

  // Transactions fit together: one content per id, outputs in their places, no input shared.
  predicate Compatible(txs: seq<Ingest>) {
    && (forall i, v :: 0 <= i < |txs| && 0 <= v < |txs[i].txos| ==> txs[i].txos[v].outpoint == Outpoint(txs[i].t, v))
    && (forall i, j :: 0 <= i < |txs| && 0 <= j < |txs| && txs[i].t == txs[j].t ==> txs[i] == txs[j])
    && (forall i, j | 0 <= i < |txs| && 0 <= j < |txs| && txs[i].t != txs[j].t ::
          Outpoints(txs[i].spends) * Outpoints(txs[j].spends) == {})
  }

  predicate IsSaveOf(st: Stmt, i: Ingest) {
    st in SaveStmts(i, |i.txos|)
  }

  predicate IsSpendOf(st: Stmt, i: Ingest) {
    match st
    case UpsertSpends(os, t, _) => os == Outpoints(i.spends) && t == i.t
    case _ => st == SpendLog(i)
  }

  // Any interleaving of the statements of the transactions, repeats included.
  ghost predicate Interleaves(txs: seq<Ingest>, stmts: seq<Stmt>) {
    && (forall k: nat :: k < |stmts| ==> IsOfSome(txs, stmts, k))
    && (forall i: nat :: i < |txs| ==> AllIn(txs, stmts, i))
  }

  ghost predicate IsOfSome(txs: seq<Ingest>, stmts: seq<Stmt>, k: nat)
    requires k < |stmts|
  {
    exists i: nat :: Comes(txs, stmts[k], i)
  }

  predicate Comes(txs: seq<Ingest>, st: Stmt, i: nat) {
    i < |txs| && (IsSaveOf(st, txs[i]) || IsSpendOf(st, txs[i]))
  }

  ghost predicate AllIn(txs: seq<Ingest>, stmts: seq<Stmt>, i: nat)
    requires i < |txs|
  {
    && (forall st :: IsSaveOf(st, txs[i]) ==> st in stmts)
    && SpendLog(txs[i]) in stmts
    && exists now: nat :: UpsertSpends(Outpoints(txs[i].spends), txs[i].t, now) in stmts
  }

  function SpendLog(i: Ingest): Stmt {
    UpsertLogs(SpendKeys(i.spends), TxMember(i.t), i.score)
  }

  function ColsOf(i: Ingest, v: nat): Cols
    requires v < |i.txos|
  {
    Cols(i.height, i.idx, i.txos[v].sats, i.txos[v].owners)
  }

  lemma {:induction false} SavesAre(i: Ingest, n: nat, st: Stmt)
    requires n <= |i.txos|
    ensures st.UpsertTxo? ==>
              (st in SaveStmts(i, n) <==>
                  exists v :: 0 <= v < n && st.o == i.txos[v].outpoint && st.cols == ColsOf(i, v))
    ensures st in SaveStmts(i, n) ==> !st.UpsertSpends?
    ensures st in SaveStmts(i, n) && st.UpsertLogs? ==> exists v :: 0 <= v < n && st.m == OutMember(i.txos[v].outpoint)
    ensures st in SaveStmts(i, n) && st.UpsertData? ==> exists v :: 0 <= v < n && st.o == i.txos[v].outpoint
  {
    if n > 0 {
      SavesAre(i, n - 1, st);
      var last := TxoStmts(i, i.txos[n - 1]);
      assert st in SaveStmts(i, n) <==> st in SaveStmts(i, n - 1) || st in last;
      assert last[0] in last;
    }
  }

  lemma {:induction false} SavesComeFrom(i: Ingest, n: nat, st: Stmt)
    requires n <= |i.txos|
    ensures st in SaveStmts(i, n) <==> exists v :: 0 <= v < n && st in TxoStmts(i, i.txos[v])
  {
    if n > 0 {
      SavesComeFrom(i, n - 1, st);
    }
  }

  predicate Creates(txs: seq<Ingest>, i: nat, o: Outpoint) {
    i < |txs| && o.txid == txs[i].t && o.vout < |txs[i].txos|
  }

  predicate SpendsIn(txs: seq<Ingest>, i: nat, o: Outpoint) {
    i < |txs| && SpendsOutput(txs[i].spends, o)
  }

  // What a statement of the transactions writes is what they say.
  lemma {:induction false} UpsertSays(txs: seq<Ingest>, stmts: seq<Stmt>, k: nat, o: Outpoint) returns (i: nat)
    requires Compatible(txs) && Interleaves(txs, stmts) && k < |stmts| && stmts[k].UpsertTxo? && stmts[k].o == o
    ensures Creates(txs, i, o) && stmts[k].cols == ColsOf(txs[i], o.vout)
  {
    assert IsOfSome(txs, stmts, k);
    i :| Comes(txs, stmts[k], i);
    var v := SaveSays(txs[i], stmts[k]);
    assert txs[i].txos[v].outpoint == Outpoint(txs[i].t, v);
  }

  lemma {:induction false} SaveSays(i: Ingest, st: Stmt) returns (v: nat)
    requires st.UpsertTxo? && (IsSaveOf(st, i) || IsSpendOf(st, i))
    ensures v < |i.txos| && st.o == i.txos[v].outpoint && st.cols == ColsOf(i, v)
  {
    SavesAre(i, |i.txos|, st);
    v :| 0 <= v < |i.txos| && st.o == i.txos[v].outpoint && st.cols == ColsOf(i, v);
  }

  lemma {:induction false} SpendSays(txs: seq<Ingest>, stmts: seq<Stmt>, k: nat, o: Outpoint) returns (i: nat)
    requires Interleaves(txs, stmts) && k < |stmts| && stmts[k].UpsertSpends? && o in stmts[k].os
    ensures SpendsIn(txs, i, o) && stmts[k].t == txs[i].t
  {
    assert IsOfSome(txs, stmts, k);
    i :| Comes(txs, stmts[k], i);
    SavesAre(txs[i], |txs[i].txos|, stmts[k]);
  }

  // The key is that of a tag of the output, of an event of it, or of an owner.
  predicate NamesTxo(txo: Txo, key: string) {
    NamesData(txo.data, key) || NamesOwner(txo.owners, key)
  }

  // The transaction lists the member under the key: itself for what it spends, or an output.
  predicate Lists(i: Ingest, key: string, m: Member) {
    || (m == TxMember(i.t) && SpendsFrom(i.spends, key))
    || (m.OutMember? && m.o.txid == i.t && m.o.vout < |i.txos| && NamesTxo(i.txos[m.o.vout], key))
  }

  predicate InPlace(i: Ingest) {
    forall v :: 0 <= v < |i.txos| ==> i.txos[v].outpoint == Outpoint(i.t, v)
  }

  lemma {:induction false} AllInPlace(txs: seq<Ingest>, i: nat)
    requires Compatible(txs) && i < |txs|
    ensures InPlace(txs[i])
  {
  }

  lemma {:induction false} SavedLog(i: Ingest, st: Stmt) returns (v: nat)
    requires IsSaveOf(st, i) && st.UpsertLogs?
    ensures v < |i.txos| && st == TxoStmts(i, i.txos[v])[1]
  {
    SavesComeFrom(i, |i.txos|, st);
    v :| 0 <= v < |i.txos| && st in TxoStmts(i, i.txos[v]);
  }

  lemma {:induction false} SavedData(i: Ingest, st: Stmt) returns (v: nat)
    requires IsSaveOf(st, i) && st.UpsertData?
    ensures v < |i.txos| && st == TxoStmts(i, i.txos[v])[2]
  {
    SavesComeFrom(i, |i.txos|, st);
    v :| 0 <= v < |i.txos| && st in TxoStmts(i, i.txos[v]);
  }

  lemma {:induction false} Saved(i: Ingest, v: nat, k: nat)
    requires v < |i.txos| && k < 3
    ensures IsSaveOf(TxoStmts(i, i.txos[v])[k], i)
  {
    SavesComeFrom(i, |i.txos|, TxoStmts(i, i.txos[v])[k]);
  }

  lemma {:induction false} LogOfIngest(i: Ingest, st: Stmt)
    requires InPlace(i) && st.UpsertLogs? && (IsSaveOf(st, i) || IsSpendOf(st, i))
    ensures IsOf(st.m, i.t) && st.score == i.score
    ensures forall key :: key in st.keys ==> Lists(i, key, st.m)
  {
    if IsSaveOf(st, i) {
      var v := SavedLog(i, st);
      assert st.m == OutMember(Outpoint(i.t, v));
    }
  }

  lemma {:induction false} LogSays(txs: seq<Ingest>, stmts: seq<Stmt>, k: nat) returns (i: nat)
    requires Compatible(txs) && Interleaves(txs, stmts) && k < |stmts| && stmts[k].UpsertLogs?
    ensures i < |txs| && IsOf(stmts[k].m, txs[i].t) && stmts[k].score == txs[i].score
    ensures forall key :: key in stmts[k].keys ==> Lists(txs[i], key, stmts[k].m)
  {
    assert IsOfSome(txs, stmts, k);
    i :| Comes(txs, stmts[k], i);
    AllInPlace(txs, i);
    LogOfIngest(txs[i], stmts[k]);
  }

  lemma {:induction false} LogWritten(i: Ingest, key: string, m: Member) returns (st: Stmt)
    requires InPlace(i) && Lists(i, key, m)
    ensures ScoresBy(st, key, m, i.score) && (st == SpendLog(i) || IsSaveOf(st, i))
  {
    st := SpendLog(i);
    if m != TxMember(i.t) {
      st := TxoStmts(i, i.txos[m.o.vout])[1];
      Saved(i, m.o.vout, 1);
    }
  }

  lemma {:induction false} InRun(txs: seq<Ingest>, stmts: seq<Stmt>, i: nat, st: Stmt) returns (k: nat)
    requires Interleaves(txs, stmts) && i < |txs| && (st == SpendLog(txs[i]) || IsSaveOf(st, txs[i]))
    ensures k < |stmts| && stmts[k] == st
  {
    assert AllIn(txs, stmts, i);
    k :| 0 <= k < |stmts| && stmts[k] == st;
  }

  lemma {:induction false} ListsIsLogged(txs: seq<Ingest>, stmts: seq<Stmt>, i: nat, key: string, m: Member)
    requires Compatible(txs) && Interleaves(txs, stmts) && i < |txs| && Lists(txs[i], key, m)
    ensures Scores(stmts, key, m, txs[i].score)
  {
    AllInPlace(txs, i);
    var st := LogWritten(txs[i], key, m);
    var k := InRun(txs, stmts, i, st);
  }

  lemma {:induction false} DataOfIngest(i: Ingest, st: Stmt)
    requires InPlace(i) && st.UpsertData? && (IsSaveOf(st, i) || IsSpendOf(st, i))
    ensures st.o.txid == i.t && st.o.vout < |i.txos| && st.datas == i.txos[st.o.vout].datas
  {
    var v := SavedData(i, st);
    assert st.o == Outpoint(i.t, v);
  }

  lemma {:induction false} DataSays(txs: seq<Ingest>, stmts: seq<Stmt>, k: nat) returns (i: nat)
    requires Compatible(txs) && Interleaves(txs, stmts) && k < |stmts| && stmts[k].UpsertData?
    ensures Creates(txs, i, stmts[k].o) && stmts[k].datas == txs[i].txos[stmts[k].o.vout].datas
  {
    assert IsOfSome(txs, stmts, k);
    i :| Comes(txs, stmts[k], i);
    AllInPlace(txs, i);
    DataOfIngest(txs[i], stmts[k]);
  }

  predicate Tags(txs: seq<Ingest>, i: nat, o: Outpoint, tag: string) {
    Creates(txs, i, o) && tag in txs[i].txos[o.vout].datas
  }

  lemma {:induction false} TagsIsPut(txs: seq<Ingest>, stmts: seq<Stmt>, i: nat, o: Outpoint, tag: string)
    requires Compatible(txs) && Interleaves(txs, stmts) && Tags(txs, i, o, tag)
    ensures Puts(stmts, o, tag, txs[i].txos[o.vout].datas[tag])
  {
    AllInPlace(txs, i);
    var st := TxoStmts(txs[i], txs[i].txos[o.vout])[2];
    Saved(txs[i], o.vout, 2);
    var k := InRun(txs, stmts, i, st);
    assert PutsBy(stmts[k], o, tag, txs[i].txos[o.vout].datas[tag]);
  }

  lemma {:induction false} LogsAndDataAgree(txs: seq<Ingest>, stmts: seq<Stmt>, j: nat, k: nat)
    requires Compatible(txs) && Interleaves(txs, stmts) && j < |stmts| && k < |stmts|
    requires (stmts[j].UpsertLogs? && stmts[k].UpsertLogs?) || (stmts[j].UpsertData? && stmts[k].UpsertData?)
    ensures Agree(stmts[j], stmts[k])
  {
    if stmts[j].UpsertLogs? {
      var a := LogSays(txs, stmts, j);
      var b := LogSays(txs, stmts, k);
      assert stmts[j].m == stmts[k].m ==> txs[a] == txs[b];
    } else {
      var a := DataSays(txs, stmts, j);
      var b := DataSays(txs, stmts, k);
      assert stmts[j].o == stmts[k].o ==> txs[a] == txs[b];
    }
  }

  lemma {:induction false} StatementsAgree(txs: seq<Ingest>, stmts: seq<Stmt>)
    requires Compatible(txs) && Interleaves(txs, stmts)
    ensures AllAgree(stmts)
  {
    forall j, k | 0 <= j < |stmts| && 0 <= k < |stmts|
      ensures Agree(stmts[j], stmts[k])
    {
      if stmts[j].UpsertTxo? && stmts[k].UpsertTxo? && stmts[j].o == stmts[k].o {
        var a := UpsertSays(txs, stmts, j, stmts[j].o);
        var b := UpsertSays(txs, stmts, k, stmts[j].o);
        assert txs[a] == txs[b];
      } else if stmts[j].UpsertSpends? && stmts[k].UpsertSpends? && stmts[j].os * stmts[k].os != {} {
        var o :| o in stmts[j].os * stmts[k].os;
        var a := SpendSays(txs, stmts, j, o);
        var b := SpendSays(txs, stmts, k, o);
        assert o in Outpoints(txs[a].spends) * Outpoints(txs[b].spends);
      } else if (stmts[j].UpsertLogs? && stmts[k].UpsertLogs?) || (stmts[j].UpsertData? && stmts[k].UpsertData?) {
        LogsAndDataAgree(txs, stmts, j, k);
      }
    }
  }

  lemma {:induction false} CreatesIsWritten(txs: seq<Ingest>, stmts: seq<Stmt>, i: nat, o: Outpoint)
    requires Compatible(txs) && Interleaves(txs, stmts) && Creates(txs, i, o)
    ensures Writes(stmts, o, ColsOf(txs[i], o.vout))
  {
    var st := UpsertTxo(o, ColsOf(txs[i], o.vout));
    SavesAre(txs[i], |txs[i].txos|, st);
    assert st.o == txs[i].txos[o.vout].outpoint;
    assert IsSaveOf(st, txs[i]);
    assert AllIn(txs, stmts, i);
  }

  lemma {:induction false} WrittenIsCreated(txs: seq<Ingest>, stmts: seq<Stmt>, o: Outpoint, c: Cols)
    requires Compatible(txs) && Interleaves(txs, stmts) && Writes(stmts, o, c)
    ensures exists i: nat :: Creates(txs, i, o)
  {
    var k :| 0 <= k < |stmts| && stmts[k] == UpsertTxo(o, c);
    var i := UpsertSays(txs, stmts, k, o);
  }

  lemma {:induction false} SpendsAreSaid(txs: seq<Ingest>, stmts: seq<Stmt>, o: Outpoint)
    requires Compatible(txs) && Interleaves(txs, stmts)
    ensures forall i: nat :: SpendsIn(txs, i, o) ==> Spends(stmts, o, txs[i].t)
    ensures forall t: Txid :: Spends(stmts, o, t) ==> exists i: nat :: SpendsIn(txs, i, o)
  {
    forall i: nat | SpendsIn(txs, i, o)
      ensures Spends(stmts, o, txs[i].t)
    {
      assert AllIn(txs, stmts, i);
      var now: nat :| UpsertSpends(Outpoints(txs[i].spends), txs[i].t, now) in stmts;
    }
    forall t: Txid | Spends(stmts, o, t)
      ensures exists i: nat :: SpendsIn(txs, i, o)
    {
      var k :| 0 <= k < |stmts| && stmts[k].UpsertSpends? && o in stmts[k].os && stmts[k].t == t;
      var i := SpendSays(txs, stmts, k, o);
    }
  }

  // Every interleaving of the ingests reads the same in the end: an output of one of the
  // transactions as that transaction has it, and all others as before; stub rows and their
  // default heights never show.
  lemma {:induction false} OutputsConverge(db: Db, txs: seq<Ingest>, stmts: seq<Stmt>, o: Outpoint)
    requires Compatible(txs) && Interleaves(txs, stmts)
    ensures forall i: nat :: Creates(txs, i, o) ==> LoadTxo(Run(db, stmts), o) == Some(ColsOf(txs[i], o.vout))
    ensures (forall i: nat :: !Creates(txs, i, o)) ==> LoadTxo(Run(db, stmts), o) == LoadTxo(db, o)
  {
    StatementsAgree(txs, stmts);
    RunLoads(db, stmts, o);
    forall i: nat | Creates(txs, i, o)
      ensures LoadTxo(Run(db, stmts), o) == Some(ColsOf(txs[i], o.vout))
    {
      CreatesIsWritten(txs, stmts, i, o);
    }
    if c :| Writes(stmts, o, c) {
      WrittenIsCreated(txs, stmts, o, c);
    }
  }

  // And a spend reads as the transaction that spends the output, if any of them does.
  lemma {:induction false} SpendsConverge(db: Db, txs: seq<Ingest>, stmts: seq<Stmt>, o: Outpoint)
    requires Compatible(txs) && Interleaves(txs, stmts)
    ensures forall i: nat :: SpendsIn(txs, i, o) ==> GetSpend(Run(db, stmts), o) == Some(txs[i].t)
    ensures (forall i: nat :: !SpendsIn(txs, i, o)) ==> GetSpend(Run(db, stmts), o) == GetSpend(db, o)
  {
    StatementsAgree(txs, stmts);
    RunSpends(db, stmts, o);
    SpendsAreSaid(txs, stmts, o);
  }

  // A member is listed with the score of the transaction that lists it.
  lemma {:induction false} LogsConverge(db: Db, txs: seq<Ingest>, stmts: seq<Stmt>, key: string, m: Member)
    requires Compatible(txs) && Interleaves(txs, stmts)
    ensures forall i :: 0 <= i < |txs| && Lists(txs[i], key, m) ==> LogScore(Run(db, stmts), key, m) == txs[i].score
    ensures (forall i :: 0 <= i < |txs| ==> !Lists(txs[i], key, m)) ==>
              LogScore(Run(db, stmts), key, m) == LogScore(db, key, m)
  {
    StatementsAgree(txs, stmts);
    RunScores(db, stmts, key, m);
    forall i | 0 <= i < |txs| && Lists(txs[i], key, m)
      ensures LogScore(Run(db, stmts), key, m) == txs[i].score
    {
      ListsIsLogged(txs, stmts, i, key, m);
    }
    if score: int :| Scores(stmts, key, m, score) {
      var k :| 0 <= k < |stmts| && ScoresBy(stmts[k], key, m, score);
      var i := LogSays(txs, stmts, k);
      assert Lists(txs[i], key, m);
    }
  }

  // And a tag of an output has the value its transaction gives it.
  lemma {:induction false} DataConverges(db: Db, txs: seq<Ingest>, stmts: seq<Stmt>, o: Outpoint, tag: string)
    requires Compatible(txs) && Interleaves(txs, stmts)
    ensures forall i: nat :: Tags(txs, i, o, tag) ==>
        DataOf(Run(db, stmts), o, tag) == Some(txs[i].txos[o.vout].datas[tag])
    ensures (forall i: nat :: !Tags(txs, i, o, tag)) ==> DataOf(Run(db, stmts), o, tag) == DataOf(db, o, tag)
  {
    StatementsAgree(txs, stmts);
    RunPuts(db, stmts, o, tag);
    forall i: nat | Tags(txs, i, o, tag)
      ensures DataOf(Run(db, stmts), o, tag) == Some(txs[i].txos[o.vout].datas[tag])
    {
      TagsIsPut(txs, stmts, i, o, tag);
    }
    if value :| Puts(stmts, o, tag, value) {
      var k :| 0 <= k < |stmts| && PutsBy(stmts[k], o, tag, value);
      var i := DataSays(txs, stmts, k);
      assert Tags(txs, i, o, tag);
    }
  }

  // What is loaded of the tags asked for.
  lemma {:induction false} LoadsWhatIsThere(db: Db, o: Outpoint, tags: set<string>, tag: string)
    ensures tag in LoadData(db, o, tags) <==> tag in tags && DataOf(db, o, tag).Some?
    ensures tag in LoadData(db, o, tags) ==> DataOf(db, o, tag) == Some(LoadData(db, o, tags)[tag])
  {
  }

  lemma {:induction false} SameData(db: Db, other: Db, o: Outpoint, tags: set<string>)
    requires forall tag :: tag in tags ==> DataOf(db, o, tag) == DataOf(other, o, tag)
    ensures LoadData(db, o, tags) == LoadData(other, o, tags)
  {
    forall tag | tag in tags
      ensures (o, tag) in db.datas <==> (o, tag) in other.datas
      ensures (o, tag) in db.datas ==> db.datas[(o, tag)] == other.datas[(o, tag)]
    {
      assert DataOf(db, o, tag) == DataOf(other, o, tag);
    }
  }

  // Whatever can be read of an output, its spend, its tags and the logs.
  lemma {:induction false} OrderDoesNotMatter(db: Db, txs: seq<Ingest>, some: seq<Stmt>, other: seq<Stmt>,
                                              o: Outpoint, tags: set<string>, key: string, m: Member)
    requires Compatible(txs) && Interleaves(txs, some) && Interleaves(txs, other)
    ensures LoadTxo(Run(db, some), o) == LoadTxo(Run(db, other), o)
    ensures GetSpend(Run(db, some), o) == GetSpend(Run(db, other), o)
    ensures LoadData(Run(db, some), o, tags) == LoadData(Run(db, other), o, tags)
    ensures LogScore(Run(db, some), key, m) == LogScore(Run(db, other), key, m)
  {
    LogsConverge(db, txs, some, key, m);
    LogsConverge(db, txs, other, key, m);
    forall tag | tag in tags
      ensures DataOf(Run(db, some), o, tag) == DataOf(Run(db, other), o, tag)
    {
      DataConverges(db, txs, some, o, tag);
      DataConverges(db, txs, other, o, tag);
    }
    SameData(Run(db, some), Run(db, other), o, tags);
    OutputsConverge(db, txs, some, o);
    OutputsConverge(db, txs, other, o);
    SpendsConverge(db, txs, some, o);
    SpendsConverge(db, txs, other, o);
  }

  /** A rollback undoes an ingest */

  // Nothing in the store mentions t.
  predicate NoTrace(db: Db, t: Txid) {
    && (forall o :: o in db.txos ==> o.txid != t && db.txos[o].spend != Some(t))
    && (forall e :: e in db.logs ==> !IsOf(e.1, t))
    && (forall e :: e in db.datas ==> e.0.txid != t)
  }

  predicate IsStmtOf(st: Stmt, t: Txid) {
    match st
    case UpsertTxo(o, _) => o.txid == t
    case UpsertSpends(os, t', _) => t' == t && forall o :: o in os ==> o.txid != t
    case UpsertLogs(_, m, _) => IsOf(m, t)
    case UpsertData(o, _) => o.txid == t
  }

  predicate Touched(stmts: seq<Stmt>, o: Outpoint) {
    exists k :: 0 <= k < |stmts| && stmts[k].UpsertSpends? && o in stmts[k].os
  }

  // The rows of other transactions after statements of t: a spend by t where t spends, a stub
  // where there was no row, and otherwise as before.
  predicate OnlyBy(db: Db, db': Db, t: Txid, touched: bool, o: Outpoint) {
    if o in db.txos then
      o in db'.txos && db'.txos[o] == (if touched then db.txos[o].(spend := Some(t)) else db.txos[o])
    else if touched then o in db'.txos && db'.txos[o].sats.None? && db'.txos[o].spend == Some(t)
    else o !in db'.txos
  }

  lemma {:induction false} RunOnlyBy(db: Db, stmts: seq<Stmt>, t: Txid, o: Outpoint)
    requires forall k :: 0 <= k < |stmts| ==> IsStmtOf(stmts[k], t)
    requires o.txid != t
    ensures OnlyBy(db, Run(db, stmts), t, Touched(stmts, o), o)
  {
    if stmts != [] {
      var n := |stmts| - 1;
      var init, st := stmts[..n], stmts[n];
      RunOnlyBy(db, init, t, o);
      TouchedNext(init, st, o);
      assert stmts == init + [st];
      assert IsStmtOf(st, t);
    }
  }

  lemma {:induction false} TouchedNext(init: seq<Stmt>, st: Stmt, o: Outpoint)
    ensures Touched(init + [st], o) <==> Touched(init, o) || (st.UpsertSpends? && o in st.os)
  {
    var all := init + [st];
    assert all[|init|] == st;
    if k :| 0 <= k < |init| && init[k].UpsertSpends? && o in init[k].os {
      assert all[k] == init[k];
    }
  }

  lemma {:induction false} RunOthers(db: Db, stmts: seq<Stmt>, t: Txid)
    requires forall k :: 0 <= k < |stmts| ==> IsStmtOf(stmts[k], t)
    ensures var db' := Run(db, stmts);
            && (forall e: (string, Member) :: !IsOf(e.1, t) ==>
                (e in db'.logs <==> e in db.logs) && (e in db.logs ==> db'.logs[e] == db.logs[e]))
            && (forall e: (Outpoint, string) :: e.0.txid != t ==>
                (e in db'.datas <==> e in db.datas) && (e in db.datas ==> db'.datas[e] == db.datas[e]))
  {
    if stmts != [] {
      var n := |stmts| - 1;
      RunOthers(db, stmts[..n], t);
      assert IsStmtOf(stmts[n], t);
    }
  }

  // Rolling back t after any statements of t leaves everything readable as it was, except that
  // what t spent is unspent: exactly right when it was unspent before.
  lemma {:induction false} RollbackUndoes(db: Db, stmts: seq<Stmt>, t: Txid)
    requires NoTrace(db, t) && forall k :: 0 <= k < |stmts| ==> IsStmtOf(stmts[k], t)
    ensures var after := RolledBack(Run(db, stmts), t);
            && (forall o :: LoadTxo(after, o) == LoadTxo(db, o))
            && (forall o :: GetSpend(after, o) == if Touched(stmts, o) then None else GetSpend(db, o))
            && after.logs == db.logs && after.datas == db.datas
    ensures (forall o :: GetSpend(RolledBack(Run(db, stmts), t), o) == GetSpend(db, o)) <==>
              forall o :: Touched(stmts, o) ==> GetSpend(db, o).None?
  {
    var after := RolledBack(Run(db, stmts), t);
    RunOthers(db, stmts, t);
    forall o
      ensures LoadTxo(after, o) == LoadTxo(db, o)
      ensures GetSpend(after, o) == if Touched(stmts, o) then None else GetSpend(db, o)
    {
      if o.txid == t {
        assert o !in after.txos && o !in db.txos;
        NotTouched(stmts, t, o);
      } else {
        RunOnlyBy(db, stmts, t, o);
      }
    }
  }

  lemma {:induction false} NotTouched(stmts: seq<Stmt>, t: Txid, o: Outpoint)
    requires o.txid == t && forall k :: 0 <= k < |stmts| ==> IsStmtOf(stmts[k], t)
    ensures !Touched(stmts, o)
  {
  }

  // The statements of a whole ingest: the outputs, the spends, and the log entries.
  function IngestStmts(i: Ingest, now: nat, logs: seq<string>): seq<Stmt> {
    SaveStmts(i, |i.txos|) + SpendStmts(i, now) +
    seq(|logs|, k requires 0 <= k < |logs| => UpsertLogs({logs[k]}, TxMember(i.t), i.score))
  }

  lemma {:induction false} IngestStmtsAre(i: Ingest, now: nat, logs: seq<string>, st: Stmt)
    requires Compatible([i]) && st in IngestStmts(i, now, logs)
    requires forall o :: o in Outpoints(i.spends) ==> o.txid != i.t
    ensures IsStmtOf(st, i.t)
    ensures st.UpsertSpends? ==> st.os == Outpoints(i.spends)
  {
    AllInPlace([i], 0);
    if st in SaveStmts(i, |i.txos|) {
      SaveStmtIs(i, st);
    } else if st in SpendStmts(i, now) {
      assert st == SpendStmts(i, now)[0] || st == SpendStmts(i, now)[1];
    }
  }

  lemma {:induction false} SaveStmtIs(i: Ingest, st: Stmt)
    requires InPlace(i) && st in SaveStmts(i, |i.txos|)
    ensures IsStmtOf(st, i.t) && !st.UpsertSpends?
  {
    SavesComeFrom(i, |i.txos|, st);
    var v :| 0 <= v < |i.txos| && st in TxoStmts(i, i.txos[v]);
    assert i.txos[v].outpoint == Outpoint(i.t, v);
  }

  // Nothing that can be read tells that a transaction was ingested and rolled back, if and
  // only if all its inputs were unspent; rows for inputs the store never had may stay behind.
  lemma {:induction false} IngestThenRollback(db: Db, i: Ingest, now: nat, logs: seq<string>)
    requires NoTrace(db, i.t) && Compatible([i]) && forall o :: o in Outpoints(i.spends) ==> o.txid != i.t
    ensures var after := RolledBack(Run(db, IngestStmts(i, now, logs)), i.t);
            && (forall o :: LoadTxo(after, o) == LoadTxo(db, o))
            && (forall o, tags :: LoadData(after, o, tags) == LoadData(db, o, tags))
            && (forall key, m :: LogScore(after, key, m) == LogScore(db, key, m))
            && ((forall o :: GetSpend(after, o) == GetSpend(db, o)) <==>
                  forall o :: o in Outpoints(i.spends) ==> GetSpend(db, o).None?)
  {
    var stmts := IngestStmts(i, now, logs);
    forall k | 0 <= k < |stmts|
      ensures IsStmtOf(stmts[k], i.t)
      ensures stmts[k].UpsertSpends? ==> stmts[k].os == Outpoints(i.spends)
    {
      IngestStmtsAre(i, now, logs, stmts[k]);
    }
    assert stmts[|SaveStmts(i, |i.txos|)|] == UpsertSpends(Outpoints(i.spends), i.t, now);
    assert forall o :: Touched(stmts, o) <==> o in Outpoints(i.spends);
    RollbackUndoes(db, stmts, i.t);
  }

  // Transaction 7 has spent the input; ingesting 8 and rolling it back leaves it unspent.
  lemma {:induction false} OverwrittenSpendIsLost(now: nat)
    ensures var o := Outpoint(1, 0);
            var db := Db(map[o := Row(9, 1, Some(5), [], Some(7))], map[], map[]);
            var i := Ingest(8, 10, 1, 10, [], [Spend(o, [])]);
            && NoTrace(db, 8) && GetSpend(db, o) == Some(7)
            && GetSpend(RolledBack(Run(db, IngestStmts(i, now, [])), 8), o) == None
  {
    var o := Outpoint(1, 0);
    var i := Ingest(8, 10, 1, 10, [], [Spend(o, [])]);
    var stmts := IngestStmts(i, now, []);
    assert i.spends[0].outpoint in Outpoints(i.spends);
    assert stmts == SpendStmts(i, now);
    forall k | 0 <= k < |stmts|
      ensures IsStmtOf(stmts[k], 8)
    {
    }
    assert stmts[0].UpsertSpends? && o in stmts[0].os;
    assert Touched(stmts, o);
    RollbackUndoes(Db(map[o := Row(9, 1, Some(5), [], Some(7))], map[], map[]), stmts, 8);
  }
}
