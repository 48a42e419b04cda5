// The whole record of an output, dependencies, events and map included, told from the chain.
module OriginRecords {
  import opened Common
  import opened Ledger
  import opened OriginIndexing
  import opened Indexing
  import opened OriginWalk
  import opened OriginIndex

  /** Events and dependencies */

  // The event list names the origin that was recorded, and the parent if there is one.
  lemma {:induction false} EventsTellRecord(height: nat, txo: Txo, spends: seq<Txo>)
    requires txo.sats.Some? && ParseSpec(height, txo, spends).Some?
    ensures var r := ParseSpec(height, txo, spends).value;
            && (forall x :: OutpointEvent(x) in r.events <==> x == r.origin.outpoint)
            && (forall p :: ParentEvent(p) in r.events <==> r.origin.parent == Some(p))
            && |r.events| == if r.origin.parent.Some? then 2 else 1
  {
  }

  // A tracked single satoshi without a record of its own leaves the origin open: it is the parent all
  // the same.
  lemma {:induction false} ParentWithoutRecord(height: nat, txo: Txo, spends: seq<Txo>, n: nat, h: nat)
    requires txo.sats == Some(1) && (height >= TRIGGER || height == 0)
    requires h < n <= |spends| && Known(spends, n)
    requires PrefixSum(KnownSats(spends, n), h) == txo.outAcc && PrefixSum(KnownSats(spends, n), h + 1) < TWO64
    requires spends[h].sats == Some(1) && spends[h].height >= TRIGGER && spends[h].origin.None?
    ensures ParseSpec(height, txo, spends).Some?
    ensures ParseSpec(height, txo, spends).value.origin ==
            Origin(None, 0, Some(spends[h].outpoint), txo.fileType, txo.data)
  {
    assert PrefixSum(KnownSats(spends, n), h + 1) == PrefixSum(KnownSats(spends, n), h) + 1;
    LocateFinds(spends, n, 0, h, txo.outAcc);
  }

  // Which outputs get a record: single satoshis of tracked heights or not mined.
  lemma {:induction false} RecordedIff(l: Chain, o: Outpoint, spends: seq<Txo>)
    requires Has(l, o)
    ensures ParsedTxo(l[o.txid], o.txid, o.vout, spends).origin.Some? <==> Alone(l, o, true)
  {
  }

  lemma {:induction false} DepsAre(l: Chain, o: Outpoint, spends: seq<Txo>, seen: nat)
    requires Valid(l) && Has(l, o) && SpendsFit(l, o.txid, spends) && seen <= |spends|
    ensures OutpointsOf(spends[..seen]) == l[o.txid].inputs[..seen]
  {
    forall k | 0 <= k < seen
      ensures spends[..seen][k].outpoint == l[o.txid].inputs[..seen][k]
    {
      assert SatsFit(l, l[o.txid].inputs[k], spends[k]);
    }
  }

  // With input h holding the satoshi and all inputs through it known, the inputs through h are
  // the dependencies.
  lemma {:induction false} DepsThroughHolder(l: Chain, o: Outpoint, spends: seq<Txo>, h: nat)
    requires Valid(l) && Has(l, o) && SpendsFit(l, o.txid, spends) && Alone(l, o, true)
    requires h < |spends| && Known(spends, h + 1) && Holds(l, o, h)
    ensures ParsedTxo(l[o.txid], o.txid, o.vout, spends).origin.value.deps == l[o.txid].inputs[..h + 1]
  {
    LocatedAtHolder(l, o, spends, h + 1, h);
    DepsAre(l, o, spends, h + 1);
  }

  // With the first n inputs known, none of them holding the satoshi, and the next unknown if there
  // is one, the first n are.
  lemma {:induction false} DepsUpToUnknown(l: Chain, o: Outpoint, spends: seq<Txo>, n: nat)
    requires Valid(l) && Has(l, o) && SpendsFit(l, o.txid, spends) && Alone(l, o, true)
    requires n <= |spends| && Known(spends, n) && (n == |spends| || spends[n].sats.None?)
    requires forall h :: 0 <= h < n ==> !Holds(l, o, h)
    ensures ParsedTxo(l[o.txid], o.txid, o.vout, spends).origin.value.deps == l[o.txid].inputs[..n]
  {
    var ins, outs := InSats(l, o.txid), OutSats(l[o.txid]);
    assert Conserves(l, o.txid);
    Acc64Exact(outs, o.vout);
    KnownSatsAreInSats(l, o.txid, spends, n);
    PrefixSumMonotone(outs, o.vout, |outs|);
    if Offset(l, o) < PrefixSum(ins, n) {
      var h := IntervalExists(ins, n, Offset(l, o));
      assert Holds(l, o, h);
    }
    LocateStops(spends, n, 0, Offset(l, o));
    DepsAre(l, o, spends, n);
  }

  // Main result: with settled inputs the record holds the walk's origin and parent as its events,
  // and the inputs through the one that holds the satoshi, or all of them, as its dependencies.
  lemma {:induction false} SettledRecord(l: Chain, o: Outpoint, spends: seq<Txo>)
    requires Valid(l) && Has(l, o) && Alone(l, o, true)
    requires SpendsFit(l, o.txid, spends) && HolderFits(l, o, spends, true) && Known(spends, |spends|)
    ensures ParsedTxo(l[o.txid], o.txid, o.vout, spends).origin.Some?
    ensures var r := ParsedTxo(l[o.txid], o.txid, o.vout, spends).origin.value;
            var origin := if l[Root(l, o).txid].inputs != [] then Some(Root(l, o)) else None;
            && r.origin == WalkOrigin(l, o)
            && (forall x :: OutpointEvent(x) in r.events <==> x == origin)
            && (forall p :: ParentEvent(p) in r.events <==> Before(l, o, false) == Some(p))
            && |r.events| == if Before(l, o, false).Some? then 2 else 1
    ensures var deps := ParsedTxo(l[o.txid], o.txid, o.vout, spends).origin.value.deps;
            && (forall h: nat :: h < |spends| && Holds(l, o, h) ==> deps == l[o.txid].inputs[..h + 1])
            && ((forall h: nat :: h < |spends| ==> !Holds(l, o, h)) ==> deps == l[o.txid].inputs)
  {
    ParseAgrees(l, o, spends, true);
    EventsTellRecord(l[o.txid].height, FreshTxo(l[o.txid], o.txid, o.vout), spends);
    forall h: nat | h < |spends| && Holds(l, o, h)
      ensures ParsedTxo(l[o.txid], o.txid, o.vout, spends).origin.value.deps == l[o.txid].inputs[..h + 1]
    {
      DepsThroughHolder(l, o, spends, h);
    }
    if forall h: nat :: h < |spends| ==> !Holds(l, o, h) {
      DepsUpToUnknown(l, o, spends, |spends|);
      assert l[o.txid].inputs[..|spends|] == l[o.txid].inputs;
    }
  }

  /** The map of a path */

  // The map that output i of the path sets for the key, if it does.
  predicate Sets(l: Chain, o: Outpoint, key: string)
    requires Has(l, o)
  {
    var data := l[o.txid].outputs[o.vout].data;
    data.Some? && key in data.value
  }

  // i is the last output of the path that sets the key.
  predicate SetsLast(l: Chain, path: seq<Outpoint>, key: string, i: nat)
    requires forall j :: 0 <= j < |path| ==> Has(l, path[j])
  {
    i < |path| && Sets(l, path[i], key) && forall j :: i < j < |path| ==> !Sets(l, path[j], key)
  }

  lemma {:induction false} LastSetsNext(l: Chain, path: seq<Outpoint>, key: string, i: nat)
    requires path != [] && forall j :: 0 <= j < |path| ==> Has(l, path[j])
    ensures SetsLast(l, path, key, i) <==>
              if Sets(l, path[|path| - 1], key) then i == |path| - 1
              else SetsLast(l, path[..|path| - 1], key, i)
  {
    var init := path[..|path| - 1];
    assert forall j :: 0 <= j < |init| ==> init[j] == path[j];
  }

  // The merged map holds, for each key, the value of the last output of the path that sets it.
  lemma {:induction false} LatestValueWins(l: Chain, path: seq<Outpoint>, key: string, i: nat)
    requires forall j :: 0 <= j < |path| ==> Has(l, path[j])
    ensures var data := FoldMaps(l, path);
            && (SetsLast(l, path, key, i) ==>
                  && data.Some? && key in data.value
                  && data.value[key] == l[path[i].txid].outputs[path[i].vout].data.value[key])
            && (data.Some? && key in data.value ==> exists j: nat :: SetsLast(l, path, key, j))
  {
    if path != [] {
      var n := |path| - 1;
      var init := path[..n];
      assert forall j :: 0 <= j < n ==> init[j] == path[j];
      LatestValueWins(l, init, key, i);
      LastSetsNext(l, path, key, i);
      if j: nat :| SetsLast(l, init, key, j) {
        LastSetsNext(l, path, key, j);
      }
      LastSetsNext(l, path, key, n);
    }
  }

  // A record without a map means that no output of the path has one.
  lemma {:induction false} NoMapIff(l: Chain, path: seq<Outpoint>)
    requires forall j :: 0 <= j < |path| ==> Has(l, path[j])
    ensures FoldMaps(l, path).None? <==>
              forall j :: 0 <= j < |path| ==> l[path[j].txid].outputs[path[j].vout].data.None?
  {
    if path != [] {
      var n := |path| - 1;
      assert forall j :: 0 <= j < n ==> path[..n][j] == path[j];
      NoMapIff(l, path[..n]);
    }
  }

  // For whatever a run stores: records for single tracked satoshis only, and maps as above.
  lemma {:induction false} StoredMaps(l: Chain, steps: seq<Step>, o: Outpoint, key: string, i: nat)
    requires Valid(l) && AllSensible(l, steps)
    requires forall i :: 0 <= i < |steps| ==> !LoadOnly(steps[i].cfg)
    requires o in Run(l, steps)
    ensures Has(l, o) && (Run(l, steps)[o].origin.Some? <==> Alone(l, o, true))
    ensures Run(l, steps)[o].origin.Some? && Run(l, steps)[o].origin.value.outpoint.Some? ==>
              var data, path := Run(l, steps)[o].origin.value.data, Path(l, o, false);
              && (SetsLast(l, path, key, i) ==>
                    && data.Some? && key in data.value
                    && data.value[key] == l[path[i].txid].outputs[path[i].vout].data.value[key])
              && (data.Some? && key in data.value ==> exists j: nat :: SetsLast(l, path, key, j))
  {
    RunFits(l, steps);
    assert RowFits(l, o, Run(l, steps)[o], false);
    LatestValueWins(l, Path(l, o, false), key, i);
  }
}
