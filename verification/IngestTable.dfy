// What one ingest stores, and when it fails, told from the table before it and the answers of the
// transaction service alone.
module IngestTable {
  import opened Common
  import opened Ledger
  import opened OriginIndexing
  import opened Indexing
  import opened OriginWalk
  import opened OriginIndex

  // An input that is in no row needs the service if ancestors are to be loaded or parsed.
  predicate Available(table: Table, o: Outpoint, cfg: AncestorConfig, remote: map<nat, Tx>) {
    o in table || (!cfg.load && !cfg.parse) || (o.txid in remote && o.vout < |remote[o.txid].outputs|)
  }

  predicate AvailableUpTo(table: Table, inputs: seq<Outpoint>, n: nat, cfg: AncestorConfig, remote: map<nat, Tx>)
    requires n <= |inputs|
  {
    forall k :: 0 <= k < n ==> Available(table, inputs[k], cfg, remote)
  }

  // The outputs of transaction p are saved on the way: some input of p is in no row, and it and all
  // inputs before it can be had.
  predicate ParentSaved(table: Table, inputs: seq<Outpoint>, n: nat, cfg: AncestorConfig, remote: map<nat, Tx>, p: nat)
    requires n <= |inputs|
  {
    && cfg.parse && cfg.save && p in remote
    && exists k: nat :: k < n && inputs[k].txid == p && inputs[k] !in table &&
                        AvailableUpTo(table, inputs, k + 1, cfg, remote)
  }

  predicate IsOutputOf(tx: Tx, txid: nat, o: Outpoint) {
    o.txid == txid && o.vout < |tx.outputs|
  }

  // The row of an output of tx, as far as it does not depend on the origin.
  predicate RowOf(table: Table, tx: Tx, o: Outpoint) {
    o in table && o.vout < |tx.outputs| && table[o].height == tx.height && table[o].sats == tx.outputs[o.vout].sats
  }

  lemma {:induction false} SavedRows(table: Table, tx: Tx, txid: nat, spends: seq<Txo>, n: nat, o: Outpoint)
    requires n <= |tx.outputs|
    ensures var txos := ParsedTxos(tx, txid, spends, |tx.outputs|);
            var after := SaveAll(table, txos, n);
            && (o in after <==> o in table || (o.txid == txid && o.vout < n))
            && (o.txid == txid && o.vout < n ==> RowOf(after, tx, o))
            && (!(o.txid == txid && o.vout < n) && o in table ==> after[o] == table[o])
  {
    if n > 0 {
      SavedRows(table, tx, txid, spends, n - 1, o);
    }
  }

  lemma {:induction false} SaveTxoAt(table: Table, txo: Txo, o: Outpoint)
    requires txo.sats.Some?
    ensures var after := SaveTxo(table, txo);
            && (o != txo.outpoint ==> (o in after <==> o in table) && (o in table ==> after[o] == table[o]))
            && txo.outpoint in after
            && after[txo.outpoint].origin ==
               if txo.origin.Some? then Some(txo.origin.value.origin)
               else if txo.outpoint in table then table[txo.outpoint].origin else None
  {
  }

  // The record of a saved output is the one just parsed, or the one the row had if there is none.
  lemma {:induction false} SavedOrigin(table: Table, tx: Tx, txid: nat, spends: seq<Txo>, n: nat, o: Outpoint)
    requires n <= |tx.outputs| && o.txid == txid && o.vout < n
    ensures var txos := ParsedTxos(tx, txid, spends, |tx.outputs|);
            var after := SaveAll(table, txos, n);
            o in after &&
            after[o].origin ==
            if txos[o.vout].origin.Some? then Some(txos[o.vout].origin.value.origin)
            else if o in table then table[o].origin else None
  {
    var txos := ParsedTxos(tx, txid, spends, |tx.outputs|);
    SavedRows(table, tx, txid, spends, n - 1, o);
    SaveTxoAt(SaveAll(table, txos, n - 1), txos[n - 1], o);
    if o.vout < n - 1 {
      SavedOrigin(table, tx, txid, spends, n - 1, o);
    }
  }

  // What the rows are once the first n inputs have been gone through.
  predicate OnTheWay(table: Table, inputs: seq<Outpoint>, n: nat, cfg: AncestorConfig, remote: map<nat, Tx>,
                     after: Table, o: Outpoint)
    requires n <= |inputs|
  {
    if ParentSaved(table, inputs, n, cfg, remote, o.txid) && o.vout < |remote[o.txid].outputs|
    then RowOf(after, remote[o.txid], o)
    else (o in after <==> o in table) && (o in table ==> after[o] == table[o])
  }

  lemma {:induction false} SavedNext(table: Table, inputs: seq<Outpoint>, n: nat, cfg: AncestorConfig,
                                     remote: map<nat, Tx>, p: nat)
    requires n < |inputs|
    ensures ParentSaved(table, inputs, n + 1, cfg, remote, p) <==>
              || ParentSaved(table, inputs, n, cfg, remote, p)
              || (cfg.parse && cfg.save && p in remote && inputs[n].txid == p && inputs[n] !in table
                  && AvailableUpTo(table, inputs, n + 1, cfg, remote))
  {
  }

  lemma {:induction false} AvailableNext(table: Table, inputs: seq<Outpoint>, n: nat, cfg: AncestorConfig,
                                         remote: map<nat, Tx>)
    requires n < |inputs|
    ensures AvailableUpTo(table, inputs, n + 1, cfg, remote) <==>
              AvailableUpTo(table, inputs, n, cfg, remote) && Available(table, inputs[n], cfg, remote)
  {
  }

  lemma {:induction false} LoadedTable(table: Table, inputs: seq<Outpoint>, n: nat, cfg: AncestorConfig,
                                       remote: map<nat, Tx>, o: Outpoint)
    requires n <= |inputs|
    ensures var r := LoadSpends(table, inputs, n, cfg, remote);
            && (r.ok <==> AvailableUpTo(table, inputs, n, cfg, remote))
            && OnTheWay(table, inputs, n, cfg, remote, r.table, o)
  {
    if n > 0 {
      LoadedTable(table, inputs, n - 1, cfg, remote, o);
      LoadedTable(table, inputs, n - 1, cfg, remote, inputs[n - 1]);
      AvailableNext(table, inputs, n - 1, cfg, remote);
      SavedNext(table, inputs, n - 1, cfg, remote, o.txid);
      var prev := LoadSpends(table, inputs, n - 1, cfg, remote);
      if prev.ok {
        LoadedNext(table, inputs, n - 1, cfg, remote, prev, o);
      }
    }
  }

  lemma {:induction false} LoadedNext(table: Table, inputs: seq<Outpoint>, n: nat, cfg: AncestorConfig,
                                      remote: map<nat, Tx>, prev: Loaded, o: Outpoint)
    requires n < |inputs| && prev.ok && AvailableUpTo(table, inputs, n, cfg, remote)
    requires OnTheWay(table, inputs, n, cfg, remote, prev.table, o)
    requires OnTheWay(table, inputs, n, cfg, remote, prev.table, inputs[n])
    ensures var r := LoadSpend(prev, inputs[n], cfg, remote);
            && (r.ok <==> Available(table, inputs[n], cfg, remote))
            && OnTheWay(table, inputs, n + 1, cfg, remote, r.table, o)
  {
    var p := inputs[n];
    SavedNext(table, inputs, n, cfg, remote, o.txid);
    AvailableNext(table, inputs, n, cfg, remote);
    if p.txid in remote && p.vout < |remote[p.txid].outputs| {
      SavedRows(prev.table, remote[p.txid], p.txid, [], |remote[p.txid].outputs|, o);
    }
  }

  // Main result: an ingest fails exactly when an input in no row needs the service and the service
  // lacks it.  If it does not, the rows are the old ones, those of the transaction's outputs and, if
  // parents are parsed and saved, those of all outputs of the parent of each input that was in no
  // row.  All other rows are left alone.
  lemma {:induction false} IngestStores(table: Table, txid: nat, tx: Tx, cfg: AncestorConfig, remote: map<nat, Tx>,
                                        o: Outpoint)
    ensures LoadSpends(table, tx.inputs, |tx.inputs|, cfg, remote).ok <==>
              forall k :: 0 <= k < |tx.inputs| ==> Available(table, tx.inputs[k], cfg, remote)
    ensures var ok := forall k :: 0 <= k < |tx.inputs| ==> Available(table, tx.inputs[k], cfg, remote);
            var after := Ingest(table, txid, tx, cfg, remote);
            if ok && IsOutputOf(tx, txid, o) then RowOf(after, tx, o)
            else if ParentSaved(table, tx.inputs, |tx.inputs|, cfg, remote, o.txid) && o.vout < |remote[o.txid].outputs|
            then RowOf(after, remote[o.txid], o)
            else (o in after <==> o in table) && (o in table ==> after[o] == table[o])
  {
    LoadedTable(table, tx.inputs, |tx.inputs|, cfg, remote, o);
    var r := LoadSpends(table, tx.inputs, |tx.inputs|, cfg, remote);
    if r.ok {
      SavedRows(r.table, tx, txid, r.spends, |tx.outputs|, o);
    }
  }

  // On a chain: one step of a run.
  lemma {:induction false} StepStores(l: Chain, table: Table, step: Step, o: Outpoint)
    requires Valid(l) && Sensible(l, step)
    requires forall k :: 0 <= k < |l[step.txid].inputs| ==>
               l[step.txid].inputs[k] in table || (!step.cfg.load && !step.cfg.parse) ||
               l[step.txid].inputs[k].txid in step.remote
    ensures var after := OriginIndex.After(l, table, step);
            && (o in after <==>
                  || o in table
                  || (o.txid == step.txid && Has(l, o))
                  || (step.cfg.parse && step.cfg.save && Has(l, o) &&
                      exists k :: 0 <= k < |l[step.txid].inputs| && l[step.txid].inputs[k] !in table &&
                                  l[step.txid].inputs[k].txid == o.txid))
            && (o in after ==> (o in table && after[o] == table[o]) || (Has(l, o) && RowOf(after, l[o.txid], o)))
  {
    var tx := l[step.txid];
    assert InputsExist(l, step.txid);
    forall k | 0 <= k < |tx.inputs|
      ensures Available(table, tx.inputs[k], step.cfg, step.remote)
    {
      assert Has(l, tx.inputs[k]);
    }
    IngestStores(table, step.txid, tx, step.cfg, step.remote, o);
    if step.cfg.parse && step.cfg.save {
      forall k: nat | k < |tx.inputs| && tx.inputs[k] !in table
        ensures tx.inputs[k].txid in step.remote
        ensures ParentSaved(table, tx.inputs, |tx.inputs|, step.cfg, step.remote, tx.inputs[k].txid)
      {
        assert Available(table, tx.inputs[k], step.cfg, step.remote);
        assert AvailableUpTo(table, tx.inputs, k + 1, step.cfg, step.remote);
      }
    }
  }

  // So with parents parsed and saved, every input of what was ingested has a row.
  lemma {:induction false} InputsAreStored(l: Chain, table: Table, step: Step, k: nat)
    requires Valid(l) && Sensible(l, step) && step.cfg.parse && step.cfg.save && k < |l[step.txid].inputs|
    requires forall j :: 0 <= j < |l[step.txid].inputs| ==>
               l[step.txid].inputs[j] in table || l[step.txid].inputs[j].txid in step.remote
    ensures l[step.txid].inputs[k] in OriginIndex.After(l, table, step)
  {
    assert InputsExist(l, step.txid);
    StepStores(l, table, step, l[step.txid].inputs[k]);
  }

  // A child with its parent parsed and saved, on an empty table.
  lemma {:induction false} SavedParentExample(parent: Tx, child: Tx)
    requires child.inputs == [Outpoint(0, 0)] && |parent.outputs| > 0
    ensures Outpoint(0, 0) in Ingest(map[], 1, child, AncestorConfig(true, true, true), map[0 := parent])
  {
    var cfg, remote := AncestorConfig(true, true, true), map[0 := parent];
    IngestStores(map[], 1, child, cfg, remote, Outpoint(0, 0));
    assert Available(map[], child.inputs[0], cfg, remote);
    assert AvailableUpTo(map[], child.inputs, 1, cfg, remote);
    assert ParentSaved(map[], child.inputs, 1, cfg, remote, 0);
  }
}
