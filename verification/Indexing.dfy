// Indexing one transaction (idx/index-context.go) against the output table:
// load the inputs, parse every output, save the outputs.
module Indexing {
  import opened Common
  import opened Ledger
  import opened OriginIndexing

  datatype StoredTxo = StoredTxo(height: nat, sats: nat, origin: Option<Origin>)

  type Table = map<Outpoint, StoredTxo>

  // What to do about an input that is not in the table.
  datatype AncestorConfig = AncestorConfig(load: bool, parse: bool, save: bool)

  // Running sum of satoshis in uint64 arithmetic.
  function Acc64(s: seq<nat>, k: nat): nat
    requires k <= |s|
  {
    if k == 0 then 0 else Add64(Acc64(s, k - 1), s[k - 1])
  }

  function FreshTxo(tx: Tx, txid: nat, v: nat): Txo
    requires v < |tx.outputs|
  {
    Txo(Outpoint(txid, v), tx.height, Some(tx.outputs[v].sats), Acc64(OutSats(tx), v),
        tx.outputs[v].data, tx.outputs[v].fileType, None)
  }

  function ParsedTxo(tx: Tx, txid: nat, v: nat, spends: seq<Txo>): Txo
    requires v < |tx.outputs|
  {
    var txo := FreshTxo(tx, txid, v);
    txo.(origin := ParseSpec(tx.height, txo, spends))
  }

  function ParsedTxos(tx: Tx, txid: nat, spends: seq<Txo>, n: nat): (r: seq<Txo>)
    requires n <= |tx.outputs|
    ensures |r| == n
  {
    seq(n, v requires 0 <= v < n => ParsedTxo(tx, txid, v, spends))
  }

  // Only a produced origin is written, so an older record stays under a nil one.
  function SaveTxo(table: Table, txo: Txo): Table
    requires txo.sats.Some?
  {
    var kept := if txo.outpoint in table then table[txo.outpoint].origin else None;
    var origin := if txo.origin.Some? then Some(txo.origin.value.origin) else kept;
    table[txo.outpoint := StoredTxo(txo.height, txo.sats.value, origin)]
  }

  function SaveAll(table: Table, txos: seq<Txo>, n: nat): Table
    requires n <= |txos| && forall i :: 0 <= i < |txos| ==> txos[i].sats.Some?
  {
    if n == 0 then table else SaveTxo(SaveAll(table, txos, n - 1), txos[n - 1])
  }

  // A stored output as it comes back: its origin record, without dependencies or events.
  function LoadedTxo(o: Outpoint, s: StoredTxo): Txo {
    Txo(o, s.height, Some(s.sats), 0, None, "",
        if s.origin.Some? then Some(IndexData(s.origin.value, [], [])) else None)
  }

  datatype Loaded = Loaded(ok: bool, spends: seq<Txo>, table: Table)

  // `remote` is what the transaction service answers.
  function LoadSpend(prev: Loaded, o: Outpoint, cfg: AncestorConfig, remote: map<nat, Tx>): Loaded {
    if o in prev.table then
      prev.(spends := prev.spends + [LoadedTxo(o, prev.table[o])])
    else if cfg.load || cfg.parse then
      if o.txid !in remote || o.vout >= |remote[o.txid].outputs| then
        prev.(ok := false)
      else
        var tx := remote[o.txid];
        if cfg.parse then
          var txos := ParsedTxos(tx, o.txid, [], |tx.outputs|);
          Loaded(true, prev.spends + [txos[o.vout]],
                 if cfg.save then SaveAll(prev.table, txos, |txos|) else prev.table)
        else
          prev.(spends := prev.spends + [Txo(o, 0, Some(tx.outputs[o.vout].sats), 0, None, "", None)])
    else
      prev.(spends := prev.spends + [Txo(o, 0, None, 0, None, "", None)])
  }

  function LoadSpends(table: Table, inputs: seq<Outpoint>, n: nat, cfg: AncestorConfig,
                      remote: map<nat, Tx>): (r: Loaded)
    requires n <= |inputs|
    ensures r.ok ==> |r.spends| == n
  {
    if n == 0 then Loaded(true, [], table)
    else
      var prev := LoadSpends(table, inputs, n - 1, cfg, remote);
      if !prev.ok then prev else LoadSpend(prev, inputs[n - 1], cfg, remote)
  }

  // The table after indexing tx, which fails without saving when an input cannot be had.
  function Ingest(table: Table, txid: nat, tx: Tx, cfg: AncestorConfig, remote: map<nat, Tx>): Table {
    var loaded := LoadSpends(table, tx.inputs, |tx.inputs|, cfg, remote);
    if !loaded.ok then loaded.table
    else SaveAll(loaded.table, ParsedTxos(tx, txid, loaded.spends, |tx.outputs|), |tx.outputs|)
  }

  class TxoStore {
    var txos: Table

    constructor ()
      ensures txos == map[]
    {
      txos := map[];
    }

    method LoadTxo(o: Outpoint) returns (r: Option<Txo>)
      ensures r == if o in txos then Some(LoadedTxo(o, txos[o])) else None
    {
      if o in txos {
        r := Some(LoadedTxo(o, txos[o]));
      } else {
        r := None;
      }
    }

    method SaveTxos(rows: seq<Txo>)
      requires forall i :: 0 <= i < |rows| ==> rows[i].sats.Some?
      modifies this
      ensures txos == SaveAll(old(txos), rows, |rows|)
    {
      for i: nat := 0 to |rows|
        invariant txos == SaveAll(old(txos), rows, i)
      {
        txos := SaveTxo(txos, rows[i]);
      }
    }
  }

  class IndexContext {
    const store: TxoStore
    const txid: nat
    const tx: Tx
    const cfg: AncestorConfig
    var txos: seq<Txo>
    var spends: seq<Txo>

    constructor (store: TxoStore, txid: nat, tx: Tx, cfg: AncestorConfig)
      ensures this.store == store && this.txid == txid && this.tx == tx && this.cfg == cfg
      ensures txos == [] && spends == []
    {
      this.store, this.txid, this.tx, this.cfg := store, txid, tx, cfg;
      txos, spends := [], [];
    }

    method ParseSpends(remote: map<nat, Tx>) returns (ok: bool)
      requires spends == []
      modifies this`spends, store
      ensures var loaded := LoadSpends(old(store.txos), tx.inputs, |tx.inputs|, cfg, remote);
              ok == loaded.ok && spends == loaded.spends && store.txos == loaded.table
    {
      var n: nat := 0;
      while n < |tx.inputs|
        invariant 0 <= n <= |tx.inputs|
        invariant LoadSpends(old(store.txos), tx.inputs, n, cfg, remote) == Loaded(true, spends, store.txos)
      {
        ghost var prev := Loaded(true, spends, store.txos);
        var o := tx.inputs[n];
        var spend := store.LoadTxo(o);
        if spend.Some? {
          spends := spends + [spend.value];
        } else if cfg.load || cfg.parse {
          if o.txid !in remote || o.vout >= |remote[o.txid].outputs| {
            FailureSticks(old(store.txos), tx.inputs, n + 1, |tx.inputs|, cfg, remote);
            return false;
          }
          var source := remote[o.txid];
          if cfg.parse {
            var spendCtx := new IndexContext(store, o.txid, source, AncestorConfig(false, false, false));
            spendCtx.ParseTxos();
            spends := spends + [spendCtx.txos[o.vout]];
            if cfg.save {
              store.SaveTxos(spendCtx.txos);
            }
          } else {
            spends := spends + [Txo(o, 0, Some(source.outputs[o.vout].sats), 0, None, "", None)];
          }
        } else {
          spends := spends + [Txo(o, 0, None, 0, None, "", None)];
        }
        assert Loaded(true, spends, store.txos) == LoadSpend(prev, o, cfg, remote);
        n := n + 1;
      }
      return true;
    }

    method ParseTxos()
      requires txos == []
      modifies this`txos
      ensures txos == ParsedTxos(tx, txid, spends, |tx.outputs|)
    {
      var accSats: nat := 0;
      for v: nat := 0 to |tx.outputs|
        invariant accSats == Acc64(OutSats(tx), v)
        invariant txos == ParsedTxos(tx, txid, spends, v)
      {
        var txo := Txo(Outpoint(txid, v), tx.height, Some(tx.outputs[v].sats), accSats,
                       tx.outputs[v].data, tx.outputs[v].fileType, None);
        accSats := Add64(accSats, tx.outputs[v].sats);
        var data := Parse(tx.height, txo, spends);
        txos := txos + [txo.(origin := data)];
      }
    }

    // IngestTx: parse, then save.
    method IngestTx(remote: map<nat, Tx>) returns (ok: bool)
      requires spends == [] && txos == []
      modifies this, store
      ensures store.txos == Ingest(old(store.txos), txid, tx, cfg, remote)
      ensures ok == LoadSpends(old(store.txos), tx.inputs, |tx.inputs|, cfg, remote).ok
    {
      ok := ParseSpends(remote);
      if ok {
        ParseTxos();
        store.SaveTxos(txos);
      }
    }
  }

  lemma {:induction false} FailureSticks(table: Table, inputs: seq<Outpoint>, n: nat, m: nat,
                                         cfg: AncestorConfig, remote: map<nat, Tx>)
    requires n <= m <= |inputs|
    requires !LoadSpends(table, inputs, n, cfg, remote).ok
    ensures LoadSpends(table, inputs, m, cfg, remote) == LoadSpends(table, inputs, n, cfg, remote)
    decreases m - n
  {
    if n < m {
      FailureSticks(table, inputs, n, m - 1, cfg, remote);
    }
  }
}
