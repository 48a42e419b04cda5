// Whole runs of the indexer: any order of ingestion, any repetitions, any
// ancestor settings.  What the table says about an origin is what the walk says.
module OriginIndex {
  import opened Common
  import opened Ledger
  import opened OriginIndexing
  import opened Indexing
  import opened OriginWalk

  datatype Step = Step(txid: nat, cfg: AncestorConfig, remote: map<nat, Tx>)

  // A row repeats the chain and its origin record agrees with the walk.
  ghost predicate RowFits(l: Chain, o: Outpoint, row: StoredTxo, settled: bool)
    requires Valid(l)
  {
    && Has(l, o)
    && row.height == l[o.txid].height && row.sats == SatsOf(l, o)
    && (row.origin.Some? <==> Tracked(row.sats, row.height))
    && (row.origin.Some? ==> Agrees(l, o, row.origin.value, settled))
  }

  ghost predicate TableFits(l: Chain, table: Table, settled: bool)
    requires Valid(l)
  {
    forall o :: o in table ==> RowFits(l, o, table[o], settled)
  }

  // The transaction service only ever tells the truth.
  predicate Truthful(l: Chain, remote: map<nat, Tx>) {
    forall t :: t in remote ==> t < |l| && remote[t] == l[t]
  }

  predicate LoadOnly(cfg: AncestorConfig) {
    cfg.load && !cfg.parse
  }

  // With ancestors loaded but not parsed, the output the satoshi of o was alone
  // in before must be in the table already.
  ghost predicate Covered(l: Chain, table: Table, cfg: AncestorConfig, o: Outpoint)
    requires Valid(l) && Has(l, o)
  {
    LoadOnly(cfg) && Before(l, o, false).Some? ==> Before(l, o, false).value in table
  }

  ghost predicate Sensible(l: Chain, step: Step) {
    step.txid < |l| && Truthful(l, step.remote)
  }

  function After(l: Chain, table: Table, step: Step): Table
    requires step.txid < |l|
  {
    Ingest(table, step.txid, l[step.txid], step.cfg, step.remote)
  }

  ghost predicate AllSensible(l: Chain, steps: seq<Step>) {
    forall i :: 0 <= i < |steps| ==> Sensible(l, steps[i])
  }

  // The table after a run from an empty one.
  ghost function Run(l: Chain, steps: seq<Step>): Table
    requires AllSensible(l, steps)
  {
    if steps == [] then map[]
    else
      assert Sensible(l, steps[|steps| - 1]);
      After(l, Run(l, steps[..|steps| - 1]), steps[|steps| - 1])
  }

  /** Saving */

  ghost predicate TxoFits(l: Chain, txo: Txo, settled: bool)
    requires Valid(l)
  {
    && txo.sats.Some?
    && RowFits(l, txo.outpoint,
               StoredTxo(txo.height, txo.sats.value, if txo.origin.Some? then Some(txo.origin.value.origin) else None),
               settled)
  }

  lemma {:induction false} SaveTxoFits(l: Chain, table: Table, txo: Txo, settled: bool)
    requires Valid(l) && TableFits(l, table, settled) && TxoFits(l, txo, settled)
    ensures TableFits(l, SaveTxo(table, txo), settled)
  {
    var saved := SaveTxo(table, txo);
    forall o | o in saved
      ensures RowFits(l, o, saved[o], settled)
    {
      if o in table {
        assert RowFits(l, o, table[o], settled);
      }
    }
  }

  function Outpoints(txos: seq<Txo>, n: nat): (r: set<Outpoint>)
    requires n <= |txos|
  {
    set i | 0 <= i < n :: txos[i].outpoint
  }

  lemma {:induction false} SaveAllFits(l: Chain, table: Table, txos: seq<Txo>, n: nat, settled: bool)
    requires Valid(l) && TableFits(l, table, settled) && n <= |txos|
    requires forall i :: 0 <= i < |txos| ==> TxoFits(l, txos[i], settled)
    ensures forall i :: 0 <= i < |txos| ==> txos[i].sats.Some?
    ensures TableFits(l, SaveAll(table, txos, n), settled)
    ensures SaveAll(table, txos, n).Keys == table.Keys + Outpoints(txos, n)
  {
    forall i | 0 <= i < |txos|
      ensures txos[i].sats.Some?
    {
      assert TxoFits(l, txos[i], settled);
    }
    if n > 0 {
      SaveAllFits(l, table, txos, n - 1, settled);
      SaveTxoFits(l, SaveAll(table, txos, n - 1), txos[n - 1], settled);
      assert Outpoints(txos, n) == Outpoints(txos, n - 1) + {txos[n - 1].outpoint};
    }
  }

  /** Loading */

  // Input k was loaded in a form that gives its satoshi's next output a fitting origin.
  ghost predicate GoodSpend(l: Chain, table: Table, cfg: AncestorConfig, p: Outpoint, s: Txo, settled: bool)
    requires Valid(l) && Has(l, p)
  {
    && SatsFit(l, p, s)
    && (s.sats.Some? ==> if LoadOnly(cfg) && p !in table then s.height == 0 else ParentFits(l, p, s, settled))
  }

  // A stored row loads as a fitting input.
  lemma {:induction false} StoredIsGood(l: Chain, p: Outpoint, row: StoredTxo, settled: bool)
    requires Valid(l) && RowFits(l, p, row, settled)
    ensures SatsFit(l, p, LoadedTxo(p, row)) && ParentFits(l, p, LoadedTxo(p, row), settled)
  {
  }

  // An ancestor parsed without its own inputs never claims an origin.
  lemma {:induction false} OrphanFits(l: Chain, p: Outpoint)
    requires Valid(l) && Has(l, p)
    ensures var txo := ParsedTxo(l[p.txid], p.txid, p.vout, []);
            TxoFits(l, txo, false) && SatsFit(l, p, txo) && ParentFits(l, p, txo, false)
  {
  }

  lemma {:induction false} OrphansFit(l: Chain, t: nat)
    requires Valid(l) && t < |l|
    ensures forall v :: 0 <= v < |l[t].outputs| ==> TxoFits(l, ParsedTxos(l[t], t, [], |l[t].outputs|)[v], false)
  {
    forall v | 0 <= v < |l[t].outputs|
      ensures TxoFits(l, ParsedTxos(l[t], t, [], |l[t].outputs|)[v], false)
    {
      OrphanFits(l, Outpoint(t, v));
    }
  }

  ghost predicate LoadedFits(l: Chain, table: Table, t: nat, cfg: AncestorConfig, n: nat, r: Loaded)
    requires Valid(l) && t < |l| && InputsExist(l, t) && n <= |l[t].inputs|
  {
    && TableFits(l, r.table, false)
    && table.Keys <= r.table.Keys
    && (LoadOnly(cfg) ==> r.table == table)
    && (r.ok ==>
          && |r.spends| == n
          && forall k :: 0 <= k < n ==> GoodSpend(l, table, cfg, l[t].inputs[k], r.spends[k], false))
  }

  lemma {:induction false} LoadSpendFits(l: Chain, table: Table, t: nat, n: nat, prev: Loaded,
                                         cfg: AncestorConfig, remote: map<nat, Tx>)
    requires Valid(l) && t < |l| && InputsExist(l, t) && n < |l[t].inputs| && Truthful(l, remote)
    requires prev.ok && LoadedFits(l, table, t, cfg, n, prev)
    ensures LoadedFits(l, table, t, cfg, n + 1, LoadSpend(prev, l[t].inputs[n], cfg, remote))
  {
    var p := l[t].inputs[n];
    var r := LoadSpend(prev, p, cfg, remote);
    if p in prev.table {
      assert RowFits(l, p, prev.table[p], false);
      StoredIsGood(l, p, prev.table[p], false);
    } else if (cfg.load || cfg.parse) && p.txid in remote && cfg.parse {
      OrphanFits(l, p);
      OrphansFit(l, p.txid);
      SaveAllFits(l, prev.table, ParsedTxos(l[p.txid], p.txid, [], |l[p.txid].outputs|), |l[p.txid].outputs|, false);
    }
    if r.ok {
      assert GoodSpend(l, table, cfg, p, r.spends[n], false);
    }
  }

  lemma {:induction false} LoadSpendsFit(l: Chain, table: Table, t: nat, n: nat, cfg: AncestorConfig,
                                         remote: map<nat, Tx>)
    requires Valid(l) && t < |l| && InputsExist(l, t) && n <= |l[t].inputs|
    requires TableFits(l, table, false) && Truthful(l, remote)
    ensures LoadedFits(l, table, t, cfg, n, LoadSpends(table, l[t].inputs, n, cfg, remote))
  {
    if n > 0 {
      LoadSpendsFit(l, table, t, n - 1, cfg, remote);
      var prev := LoadSpends(table, l[t].inputs, n - 1, cfg, remote);
      if prev.ok {
        LoadSpendFits(l, table, t, n - 1, prev, cfg, remote);
      }
    }
  }

  /** One ingestion */

  lemma {:induction false} ParsedFits(l: Chain, o: Outpoint, spends: seq<Txo>, settled: bool)
    requires Valid(l) && Has(l, o) && SpendsFit(l, o.txid, spends) && HolderFits(l, o, spends, settled)
    requires settled ==> Known(spends, |spends|)
    ensures TxoFits(l, ParsedTxo(l[o.txid], o.txid, o.vout, spends), settled)
  {
    if SatsOf(l, o) == 1 {
      ParseAgrees(l, o, spends, settled);
    }
  }

  lemma {:induction false} CoveredHolderFits(l: Chain, table: Table, o: Outpoint, cfg: AncestorConfig, r: Loaded)
    requires Valid(l) && Has(l, o) && InputsExist(l, o.txid)
    requires LoadedFits(l, table, o.txid, cfg, |l[o.txid].inputs|, r) && r.ok
    requires Covered(l, table, cfg, o)
    ensures SpendsFit(l, o.txid, r.spends) && HolderFits(l, o, r.spends, false)
  {
    forall h | 0 <= h < |r.spends|
      ensures SatsFit(l, l[o.txid].inputs[h], r.spends[h])
      ensures r.spends[h].sats.Some? && Holds(l, o, h) ==> ParentFits(l, l[o.txid].inputs[h], r.spends[h], false)
    {
      var p := l[o.txid].inputs[h];
      assert GoodSpend(l, table, cfg, p, r.spends[h], false);
      if Holds(l, o, h) && Alone(l, p, false) {
        assert ArrivesAlone(l, o, h, false);
        ArrivalIsUnique(l, o, h, false);
      }
    }
  }

  lemma {:induction false} IngestFits(l: Chain, table: Table, step: Step)
    requires Valid(l) && TableFits(l, table, false) && Sensible(l, step)
    requires forall v :: 0 <= v < |l[step.txid].outputs| ==> Covered(l, table, step.cfg, Outpoint(step.txid, v))
    ensures TableFits(l, After(l, table, step), false)
  {
    var t := step.txid;
    assert InputsExist(l, t);
    LoadSpendsFit(l, table, t, |l[t].inputs|, step.cfg, step.remote);
    var r := LoadSpends(table, l[t].inputs, |l[t].inputs|, step.cfg, step.remote);
    if r.ok {
      var txos := ParsedTxos(l[t], t, r.spends, |l[t].outputs|);
      forall v | 0 <= v < |txos|
        ensures TxoFits(l, txos[v], false)
      {
        assert Covered(l, table, step.cfg, Outpoint(t, v));
        CoveredHolderFits(l, table, Outpoint(t, v), step.cfg, r);
        ParsedFits(l, Outpoint(t, v), r.spends, false);
      }
      SaveAllFits(l, r.table, txos, |txos|, false);
    }
  }

  // Loading ancestors without parsing them gives a right (or open) origin exactly when the
  // output the satoshi was alone in before is in the table.
  lemma {:induction false} LoadOnlyExact(l: Chain, table: Table, step: Step, v: nat)
    requires Valid(l) && TableFits(l, table, false) && Sensible(l, step) && LoadOnly(step.cfg)
    requires Has(l, Outpoint(step.txid, v)) && SatsOf(l, Outpoint(step.txid, v)) == 1
    requires LoadSpends(table, l[step.txid].inputs, |l[step.txid].inputs|, step.cfg, step.remote).ok
    ensures var spends := LoadSpends(table, l[step.txid].inputs, |l[step.txid].inputs|, step.cfg, step.remote).spends;
            Agrees(l, Outpoint(step.txid, v), OriginFor(FreshTxo(l[step.txid], step.txid, v), spends), false)
            <==> Covered(l, table, step.cfg, Outpoint(step.txid, v))
  {
    var t, o := step.txid, Outpoint(step.txid, v);
    assert InputsExist(l, t);
    LoadSpendsFit(l, table, t, |l[t].inputs|, step.cfg, step.remote);
    var r := LoadSpends(table, l[t].inputs, |l[t].inputs|, step.cfg, step.remote);
    if Covered(l, table, step.cfg, o) {
      CoveredHolderFits(l, table, o, step.cfg, r);
      ParseAgrees(l, o, r.spends, false);
    } else {
      LoadOnlyKnowsAll(l, table, t, |l[t].inputs|, step.cfg, step.remote);
      var h: nat :| ArrivesAlone(l, o, h, false) && Before(l, o, false) == Some(l[t].inputs[h]);
      assert GoodSpend(l, table, step.cfg, l[t].inputs[h], r.spends[h], false);
      forall k | 0 <= k < |r.spends|
        ensures SatsFit(l, l[t].inputs[k], r.spends[k])
      {
        assert GoodSpend(l, table, step.cfg, l[t].inputs[k], r.spends[k], false);
      }
      LocatedAtHolder(l, o, r.spends, |r.spends|, h);
      RootIsOlder(l, o);
    }
  }

  lemma {:induction false} LoadOnlyKnowsAll(l: Chain, table: Table, t: nat, n: nat, cfg: AncestorConfig,
                                            remote: map<nat, Tx>)
    requires t < |l| && n <= |l[t].inputs| && LoadOnly(cfg)
    ensures var r := LoadSpends(table, l[t].inputs, n, cfg, remote); r.ok ==> Known(r.spends, n)
  {
    if n > 0 {
      LoadOnlyKnowsAll(l, table, t, n - 1, cfg, remote);
    }
  }

  lemma {:induction false} RootIsOlder(l: Chain, o: Outpoint)
    requires Valid(l) && Has(l, o) && Before(l, o, false).Some?
    ensures Root(l, o).txid < o.txid
    decreases o.txid
  {
    var p := Before(l, o, false).value;
    WalkStep(l, o, p);
    if Before(l, p, false).Some? {
      RootIsOlder(l, p);
    } else {
      WalkEnd(l, p);
    }
  }

  /** Runs */

  ghost predicate CoveredRun(l: Chain, steps: seq<Step>)
    requires Valid(l) && AllSensible(l, steps)
  {
    forall i, v | 0 <= i < |steps| && 0 <= v < |l[steps[i].txid].outputs| ::
      Covered(l, Run(l, steps[..i]), steps[i].cfg, Outpoint(steps[i].txid, v))
  }

  lemma {:induction false} RunFits(l: Chain, steps: seq<Step>)
    requires Valid(l) && AllSensible(l, steps) && CoveredRun(l, steps)
    ensures TableFits(l, Run(l, steps), false)
  {
    if steps != [] {
      var n := |steps| - 1;
      var init := steps[..n];
      forall i, v | 0 <= i < n && 0 <= v < |l[init[i].txid].outputs|
        ensures Covered(l, Run(l, init[..i]), init[i].cfg, Outpoint(init[i].txid, v))
      {
        assert init[..i] == steps[..i];
      }
      RunFits(l, init);
      assert Sensible(l, steps[n]);
      IngestFits(l, Run(l, init), steps[n]);
    }
  }

  // Main result: whatever the order and however often transactions are ingested, an origin
  // the table claims is the first outpoint the satoshi was alone in, with the number of
  // moves since and all the maps on the way.
  lemma {:induction false} StoredOriginsAreWalks(l: Chain, steps: seq<Step>, o: Outpoint)
    requires Valid(l) && AllSensible(l, steps)
    requires forall i :: 0 <= i < |steps| ==> !LoadOnly(steps[i].cfg)
    requires o in Run(l, steps)
    requires Run(l, steps)[o].origin.Some? && Run(l, steps)[o].origin.value.outpoint.Some?
    ensures Has(l, o) && SatsOf(l, o) == 1
    ensures var origin := Run(l, steps)[o].origin.value;
            && origin.outpoint == Some(Root(l, o)) && Resolvable(l, o)
            && origin.nonce == |Path(l, o, false)| - 1
            && origin.parent == Before(l, o, false)
            && origin.data == FoldMaps(l, Path(l, o, false))
  {
    RunFits(l, steps);
    assert RowFits(l, o, Run(l, steps)[o], false);
  }

  /** Parents first */

  predicate ParentsFirst(l: Chain, steps: seq<Step>) {
    forall i :: 0 <= i < |steps| && steps[i].txid < |l| ==>
      forall k :: 0 <= k < |l[steps[i].txid].inputs| ==>
        exists j :: 0 <= j < i && steps[j].txid == l[steps[i].txid].inputs[k].txid
  }

  lemma {:induction false} StoredLoads(table: Table, inputs: seq<Outpoint>, n: nat, cfg: AncestorConfig,
                                       remote: map<nat, Tx>)
    requires n <= |inputs| && forall k :: 0 <= k < n ==> inputs[k] in table
    ensures LoadSpends(table, inputs, n, cfg, remote) ==
            Loaded(true, seq(n, k requires 0 <= k < n => LoadedTxo(inputs[k], table[inputs[k]])), table)
  {
    if n > 0 {
      StoredLoads(table, inputs, n - 1, cfg, remote);
    }
  }

  lemma {:induction false} IngestSettles(l: Chain, table: Table, step: Step)
    requires Valid(l) && TableFits(l, table, true) && Sensible(l, step)
    requires forall k :: 0 <= k < |l[step.txid].inputs| ==> l[step.txid].inputs[k] in table
    ensures TableFits(l, After(l, table, step), true)
    ensures forall o :: o in After(l, table, step) <==> o in table || (o.txid == step.txid && Has(l, o))
  {
    var t := step.txid;
    assert InputsExist(l, t);
    StoredLoads(table, l[t].inputs, |l[t].inputs|, step.cfg, step.remote);
    var spends := LoadSpends(table, l[t].inputs, |l[t].inputs|, step.cfg, step.remote).spends;
    forall k | 0 <= k < |spends|
      ensures SatsFit(l, l[t].inputs[k], spends[k]) && ParentFits(l, l[t].inputs[k], spends[k], true)
    {
      assert RowFits(l, l[t].inputs[k], table[l[t].inputs[k]], true);
      StoredIsGood(l, l[t].inputs[k], table[l[t].inputs[k]], true);
    }
    var txos := ParsedTxos(l[t], t, spends, |l[t].outputs|);
    forall v | 0 <= v < |txos|
      ensures TxoFits(l, txos[v], true)
    {
      ParsedFits(l, Outpoint(t, v), spends, true);
    }
    SaveAllFits(l, table, txos, |txos|, true);
    ParsedOutpoints(l, t, spends);
  }

  lemma {:induction false} ParsedOutpoints(l: Chain, t: nat, spends: seq<Txo>)
    requires t < |l|
    ensures var txos := ParsedTxos(l[t], t, spends, |l[t].outputs|);
            forall o :: o in Outpoints(txos, |txos|) <==> o.txid == t && Has(l, o)
  {
    var txos := ParsedTxos(l[t], t, spends, |l[t].outputs|);
    forall o
      ensures o in Outpoints(txos, |txos|) <==> o.txid == t && Has(l, o)
    {
      if o.txid == t && Has(l, o) {
        assert txos[o.vout].outpoint == o;
      }
    }
  }

  lemma {:induction false} ParentsFirstSettles(l: Chain, steps: seq<Step>)
    requires Valid(l) && AllSensible(l, steps) && ParentsFirst(l, steps)
    ensures TableFits(l, Run(l, steps), true)
    ensures forall o :: o in Run(l, steps) <==> Has(l, o) && exists i :: 0 <= i < |steps| && steps[i].txid == o.txid
  {
    if steps != [] {
      var n := |steps| - 1;
      var init, step := steps[..n], steps[n];
      forall i, k | 0 <= i < n && init[i].txid < |l| && 0 <= k < |l[init[i].txid].inputs|
        ensures exists j :: 0 <= j < i && init[j].txid == l[init[i].txid].inputs[k].txid
      {
        var j :| 0 <= j < i && steps[j].txid == l[steps[i].txid].inputs[k].txid;
        assert init[j].txid == l[init[i].txid].inputs[k].txid;
      }
      ParentsFirstSettles(l, init);
      assert Sensible(l, step);
      assert InputsExist(l, step.txid);
      forall k | 0 <= k < |l[step.txid].inputs|
        ensures l[step.txid].inputs[k] in Run(l, init)
      {
        var j :| 0 <= j < n && steps[j].txid == l[step.txid].inputs[k].txid;
        assert init[j].txid == l[step.txid].inputs[k].txid;
      }
      IngestSettles(l, Run(l, init), step);
      forall o
        ensures o in Run(l, steps) <==> Has(l, o) && exists i :: 0 <= i < |steps| && steps[i].txid == o.txid
      {
        if i :| 0 <= i < |steps| && steps[i].txid == o.txid {
          assert i == n || init[i].txid == o.txid;
        }
      }
    }
  }

  // Ingesting parents before children leaves no origin open, except those of
  // satoshis that were already alone when they were minted.
  lemma {:induction false} ParentsFirstResolves(l: Chain, steps: seq<Step>, o: Outpoint)
    requires Valid(l) && AllSensible(l, steps) && ParentsFirst(l, steps)
    requires Has(l, o) && Tracked(SatsOf(l, o), l[o.txid].height)
    requires exists i :: 0 <= i < |steps| && steps[i].txid == o.txid
    ensures o in Run(l, steps) && Run(l, steps)[o].origin == Some(WalkOrigin(l, o))
    ensures Run(l, steps)[o].origin.value.outpoint.Some? <==> l[Root(l, o).txid].inputs != []
  {
    ParentsFirstSettles(l, steps);
    assert RowFits(l, o, Run(l, steps)[o], true);
  }
}
