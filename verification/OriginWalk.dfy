// The origin of a satoshi defined on the whole chain, without the index, and the
// agreement of the incrementally built index with it.
module OriginWalk {
  import opened Common
  import opened Ledger
  import opened OriginIndexing
  import opened Indexing

  /** The walk back */

  // Every output the satoshi was alone in, oldest first, ending in o.
  ghost function Path(l: Chain, o: Outpoint, pending: bool): (path: seq<Outpoint>)
    requires Valid(l) && Has(l, o)
    ensures |path| > 0 && path[|path| - 1] == o
    ensures forall i :: 0 <= i < |path| ==> Has(l, path[i])
    decreases o.txid
  {
    match Before(l, o, pending)
    case Some(p) => Path(l, p, pending) + [o]
    case None => [o]
  }

  ghost function Root(l: Chain, o: Outpoint): (r: Outpoint)
    requires Valid(l) && Has(l, o)
    ensures Has(l, r)
  {
    Path(l, o, false)[0]
  }

  // A satoshi first seen alone in a coinbase has no origin.
  ghost predicate Resolvable(l: Chain, o: Outpoint)
    requires Valid(l) && Has(l, o)
  {
    l[Root(l, o).txid].inputs != []
  }

  // All maps met on a path, later entries over earlier ones.
  function FoldMaps(l: Chain, path: seq<Outpoint>): Option<MapData>
    requires forall i :: 0 <= i < |path| ==> Has(l, path[i])
  {
    if path == [] then None
    else
      var last := path[|path| - 1];
      assert Has(l, last);
      MergeMaps(FoldMaps(l, path[..|path| - 1]), l[last.txid].outputs[last.vout].data)
  }

  ghost function WalkOrigin(l: Chain, o: Outpoint): Origin
    requires Valid(l) && Has(l, o)
  {
    Origin(
      if Resolvable(l, o) then Some(Root(l, o)) else None,
      |Path(l, o, false)| - 1,
      Before(l, o, false),
      l[o.txid].outputs[o.vout].fileType,
      FoldMaps(l, Path(l, o, false)))
  }

  /** One step of the walk is one offset lookup */

  lemma {:induction false} ArrivalIsUnique(l: Chain, o: Outpoint, k: nat, pending: bool)
    requires Valid(l) && Has(l, o) && ArrivesAlone(l, o, k, pending)
    ensures Before(l, o, pending) == Some(l[o.txid].inputs[k])
  {
    assert InputsExist(l, o.txid);
    var j: nat :| ArrivesAlone(l, o, j, pending) && Before(l, o, pending) == Some(l[o.txid].inputs[j]);
    assert ArrivesAlone(l, o, j, pending);
    IntervalUnique(InSats(l, o.txid), j, k, Offset(l, o));
  }

  lemma {:induction false} WalkStep(l: Chain, o: Outpoint, p: Outpoint)
    requires Valid(l) && Has(l, o) && Before(l, o, false) == Some(p)
    ensures Has(l, p)
    ensures Path(l, o, false) == Path(l, p, false) + [o]
    ensures Root(l, o) == Root(l, p) && (Resolvable(l, o) <==> Resolvable(l, p))
    ensures FoldMaps(l, Path(l, o, false)) ==
            MergeMaps(FoldMaps(l, Path(l, p, false)), l[o.txid].outputs[o.vout].data)
  {
    assert Path(l, o, false)[..|Path(l, o, false)| - 1] == Path(l, p, false);
  }

  lemma {:induction false} WalkEnd(l: Chain, o: Outpoint)
    requires Valid(l) && Has(l, o) && Before(l, o, false) == None
    ensures Path(l, o, false) == [o] && Root(l, o) == o
    ensures FoldMaps(l, Path(l, o, false)) == l[o.txid].outputs[o.vout].data
  {
    assert [o][..0] == [];
    assert FoldMaps(l, []) == None;
  }

  lemma {:induction false} Acc64Exact(s: seq<nat>, k: nat)
    requires k <= |s| && PrefixSum(s, |s|) < TWO64
    ensures Acc64(s, k) == PrefixSum(s, k)
  {
    if k > 0 {
      PrefixSumMonotone(s, k, |s|);
      Acc64Exact(s, k - 1);
    }
  }

  /** Parsing one output */

  // The record of o is the walk's, or (unless settled) leaves the origin open.
  ghost predicate Agrees(l: Chain, o: Outpoint, origin: Origin, settled: bool)
    requires Valid(l) && Has(l, o)
  {
    settled || origin.outpoint.Some? ==> origin == WalkOrigin(l, o)
  }

  // A loaded input carries its true value, if any.
  ghost predicate SatsFit(l: Chain, p: Outpoint, s: Txo)
    requires Has(l, p)
  {
    s.outpoint == p && (s.sats.Some? ==> s.sats.value == SatsOf(l, p))
  }

  // What parsing needs to know of the input that holds the satoshi.
  ghost predicate ParentFits(l: Chain, p: Outpoint, s: Txo, settled: bool)
    requires Valid(l) && Has(l, p)
  {
    && (SatsOf(l, p) == 1 ==> (s.height >= TRIGGER <==> Alone(l, p, false)))
    && (Alone(l, p, false) ==> s.origin.Some? && Agrees(l, p, s.origin.value.origin, settled))
  }

  ghost predicate SpendsFit(l: Chain, t: nat, spends: seq<Txo>)
    requires Valid(l) && t < |l|
  {
    && InputsExist(l, t)
    && |spends| == |l[t].inputs|
    && forall k :: 0 <= k < |spends| ==> SatsFit(l, l[t].inputs[k], spends[k])
  }

  // Input h holds the first satoshi of o.
  ghost predicate Holds(l: Chain, o: Outpoint, h: nat)
    requires Has(l, o) && InputsExist(l, o.txid) && h < |l[o.txid].inputs|
  {
    PrefixSum(InSats(l, o.txid), h) <= Offset(l, o) < PrefixSum(InSats(l, o.txid), h + 1)
  }

  ghost predicate HolderFits(l: Chain, o: Outpoint, spends: seq<Txo>, settled: bool)
    requires Valid(l) && Has(l, o) && SpendsFit(l, o.txid, spends)
  {
    forall h :: 0 <= h < |spends| && spends[h].sats.Some? && Holds(l, o, h) ==>
        ParentFits(l, l[o.txid].inputs[h], spends[h], settled)
  }

  function FirstUnknown(spends: seq<Txo>, k: nat): (n: nat)
    requires k <= |spends|
    ensures k <= n <= |spends| && (n == |spends| || spends[n].sats.None?)
    ensures forall j :: k <= j < n ==> spends[j].sats.Some?
    decreases |spends| - k
  {
    if k == |spends| || spends[k].sats.None? then k else FirstUnknown(spends, k + 1)
  }

  lemma {:induction false} KnownSatsAreInSats(l: Chain, t: nat, spends: seq<Txo>, n: nat)
    requires Valid(l) && t < |l| && SpendsFit(l, t, spends)
    requires n <= |spends| && Known(spends, n)
    ensures KnownSats(spends, n) == InSats(l, t)[..n]
    ensures forall k :: 0 <= k <= n ==> PrefixSum(KnownSats(spends, n), k) == PrefixSum(InSats(l, t), k)
  {
    var s := KnownSats(spends, n);
    forall j | 0 <= j < n
      ensures s[j] == InSats(l, t)[j]
    {
      assert SatsFit(l, l[t].inputs[j], spends[j]);
    }
    assert s == InSats(l, t)[..n];
    forall k | 0 <= k <= n
      ensures PrefixSum(s, k) == PrefixSum(InSats(l, t), k)
    {
      assert s[..k] == InSats(l, t)[..k];
      PrefixSumAgrees(s, InSats(l, t), k);
    }
  }

  // Input h holds the satoshi: the running sum ends there.
  lemma {:induction false} LocatedAtHolder(l: Chain, o: Outpoint, spends: seq<Txo>, n: nat, h: nat)
    requires Valid(l) && Has(l, o) && SpendsFit(l, o.txid, spends)
    requires h < n <= |spends| && Known(spends, n) && Holds(l, o, h)
    ensures Locate(spends, 0, 0, Acc64(OutSats(l[o.txid]), o.vout)) ==
            if spends[h].sats.value == 1 && spends[h].height >= TRIGGER then AtParent(h) else Mixed(h)
  {
    var ins := InSats(l, o.txid);
    assert Conserves(l, o.txid);
    Acc64Exact(OutSats(l[o.txid]), o.vout);
    KnownSatsAreInSats(l, o.txid, spends, n);
    PrefixSumMonotone(ins, h + 1, |ins|);
    LocateFinds(spends, n, 0, h, Offset(l, o));
  }

  lemma {:induction false} NotAloneNoStep(l: Chain, o: Outpoint, h: nat)
    requires Valid(l) && Has(l, o) && InputsExist(l, o.txid) && h < |l[o.txid].inputs| && Holds(l, o, h)
    requires !Alone(l, l[o.txid].inputs[h], false)
    ensures Before(l, o, false) == None
  {
    if Before(l, o, false).Some? {
      var k: nat :| ArrivesAlone(l, o, k, false);
      IntervalUnique(InSats(l, o.txid), k, h, Offset(l, o));
    }
  }

  lemma {:induction false} InheritAgrees(l: Chain, o: Outpoint, p: Outpoint, parent: Origin, settled: bool)
    requires Valid(l) && Has(l, o) && Before(l, o, false) == Some(p) && Agrees(l, p, parent, settled)
    ensures Agrees(l, o, Origin(parent.outpoint, parent.nonce + 1, Some(p), l[o.txid].outputs[o.vout].fileType,
                                MergeMaps(parent.data, l[o.txid].outputs[o.vout].data)), settled)
  {
    WalkStep(l, o, p);
  }

  lemma {:induction false} ParseAtHolder(l: Chain, o: Outpoint, spends: seq<Txo>, n: nat, h: nat, settled: bool)
    requires Valid(l) && Has(l, o) && SpendsFit(l, o.txid, spends) && HolderFits(l, o, spends, settled)
    requires h < n <= |spends| && Known(spends, n) && Holds(l, o, h)
    ensures Agrees(l, o, OriginFor(FreshTxo(l[o.txid], o.txid, o.vout), spends), settled)
  {
    LocatedAtHolder(l, o, spends, n, h);
    var p := l[o.txid].inputs[h];
    assert SatsFit(l, p, spends[h]);
    assert ParentFits(l, p, spends[h], settled);
    if Alone(l, p, false) {
      assert ArrivesAlone(l, o, h, false);
      ArrivalIsUnique(l, o, h, false);
      InheritAgrees(l, o, p, spends[h].origin.value.origin, settled);
    } else {
      NotAloneNoStep(l, o, h);
      WalkEnd(l, o);
    }
  }

  lemma {:induction false} ParseAgrees(l: Chain, o: Outpoint, spends: seq<Txo>, settled: bool)
    requires Valid(l) && Has(l, o) && SatsOf(l, o) == 1
    requires SpendsFit(l, o.txid, spends) && HolderFits(l, o, spends, settled)
    requires settled ==> Known(spends, |spends|)
    ensures Agrees(l, o, OriginFor(FreshTxo(l[o.txid], o.txid, o.vout), spends), settled)
  {
    var txo := FreshTxo(l[o.txid], o.txid, o.vout);
    var ins, outs := InSats(l, o.txid), OutSats(l[o.txid]);
    var n := FirstUnknown(spends, 0);
    assert Conserves(l, o.txid);
    Acc64Exact(outs, o.vout);
    KnownSatsAreInSats(l, o.txid, spends, n);
    PrefixSumMonotone(outs, o.vout + 1, |outs|);
    if Offset(l, o) < PrefixSum(ins, n) {
      var h := IntervalExists(ins, n, Offset(l, o));
      ParseAtHolder(l, o, spends, n, h, settled);
    } else {
      LocateStops(spends, n, 0, txo.outAcc);
      if settled {
        assert n == |spends|;
        UnfundedIsCoinbase(l, o);
        CoinbaseHasNoOrigin(l, o);
      }
    }
  }

  lemma {:induction false} UnfundedIsCoinbase(l: Chain, o: Outpoint)
    requires Valid(l) && Has(l, o) && SatsOf(l, o) == 1 && InputsExist(l, o.txid)
    requires PrefixSum(InSats(l, o.txid), |l[o.txid].inputs|) <= Offset(l, o)
    ensures l[o.txid].inputs == []
  {
    var outs := OutSats(l[o.txid]);
    PrefixSumMonotone(outs, o.vout + 1, |outs|);
    assert PrefixSum(outs, o.vout + 1) == Offset(l, o) + 1;
    assert Conserves(l, o.txid);
  }

  lemma {:induction false} CoinbaseHasNoOrigin(l: Chain, o: Outpoint)
    requires Valid(l) && Has(l, o) && l[o.txid].inputs == []
    ensures var output := l[o.txid].outputs[o.vout];
            WalkOrigin(l, o) == Origin(None, 0, None, output.fileType, output.data)
  {
    WalkEnd(l, o);
  }
}
