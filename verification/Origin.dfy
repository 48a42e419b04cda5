// The origin indexer (mod/onesat/origin.go): finds, for a one-satoshi output,
// the input its satoshi came from, and inherits that output's origin.
module OriginIndexing {
  import opened Common
  import opened Ledger

  datatype Origin = Origin(
    outpoint: Option<Outpoint>,
    nonce: nat,
    parent: Option<Outpoint>,
    fileType: string,
    data: Option<MapData>)

  datatype Event = ParentEvent(parent: Outpoint) | OutpointEvent(origin: Option<Outpoint>)

  datatype IndexData = IndexData(origin: Origin, deps: seq<Outpoint>, events: seq<Event>)

  // An output while its transaction is being indexed, or an input loaded for it.
  // `sats` is absent for an input the indexer knows nothing about.
  datatype Txo = Txo(
    outpoint: Outpoint,
    height: nat,
    sats: Option<nat>,
    outAcc: nat,
    data: Option<MapData>,
    fileType: string,
    origin: Option<IndexData>)

  // Where a satoshi offset lands among the inputs: nowhere yet known, in input k
  // as a tracked one-satoshi output, or inside input k otherwise.
  datatype Located = Unresolved(k: nat) | AtParent(k: nat) | Mixed(k: nat)

  function Locate(spends: seq<Txo>, k: nat, satsIn: nat, outAcc: nat): (r: Located)
    requires k <= |spends|
    ensures k <= r.k <= |spends|
    ensures !r.Unresolved? ==> r.k < |spends|
    ensures forall j :: k <= j < r.k ==> spends[j].sats.Some?
    ensures !r.Unresolved? ==> spends[r.k].sats.Some?
    ensures r.Unresolved? && r.k < |spends| ==> spends[r.k].sats.None?
    ensures r.AtParent? ==> spends[r.k].sats == Some(1) && spends[r.k].height >= TRIGGER
    decreases |spends| - k
  {
    if k == |spends| || spends[k].sats.None? then Unresolved(k)
    else if satsIn == outAcc && spends[k].sats.value == 1 && spends[k].height >= TRIGGER then AtParent(k)
    else if Add64(satsIn, spends[k].sats.value) > outAcc then Mixed(k)
    else Locate(spends, k + 1, Add64(satsIn, spends[k].sats.value), outAcc)
  }

  // Which outputs get an origin record at all.
  predicate Tracked(sats: nat, height: nat) {
    sats == 1 && !(height < TRIGGER && height != 0)
  }

  // Own entries win over inherited ones; absent maps are skipped.
  function MergeMaps(inherited: Option<MapData>, own: Option<MapData>): Option<MapData> {
    if own.None? then inherited
    else if inherited.None? then own
    else Some(inherited.value + own.value)
  }

  function OutpointsOf(spends: seq<Txo>): (r: seq<Outpoint>)
    ensures |r| == |spends|
  {
    seq(|spends|, i requires 0 <= i < |spends| => spends[i].outpoint)
  }

  function OriginFor(txo: Txo, spends: seq<Txo>): Origin {
    match Locate(spends, 0, 0, txo.outAcc)
    case Unresolved(_) => Origin(None, 0, None, txo.fileType, txo.data)
    case Mixed(_) => Origin(Some(txo.outpoint), 0, None, txo.fileType, txo.data)
    case AtParent(k) =>
      if spends[k].origin.None? then
        Origin(None, 0, Some(spends[k].outpoint), txo.fileType, txo.data)
      else
        var parent := spends[k].origin.value.origin;
        Origin(parent.outpoint, parent.nonce + 1, Some(spends[k].outpoint), txo.fileType,
               MergeMaps(parent.data, txo.data))
  }

  function EventsFor(origin: Origin): seq<Event> {
    (if origin.parent.Some? then [ParentEvent(origin.parent.value)] else []) + [OutpointEvent(origin.outpoint)]
  }

  function ParseSpec(height: nat, txo: Txo, spends: seq<Txo>): Option<IndexData>
    requires txo.sats.Some?
  {
    if !Tracked(txo.sats.value, height) then None
    else
      var at := Locate(spends, 0, 0, txo.outAcc);
      var seen := if at.Unresolved? then at.k else at.k + 1;
      var origin := OriginFor(txo, spends);
      Some(IndexData(origin, OutpointsOf(spends[..seen]), EventsFor(origin)))
  }

  // Map.Merge: a fresh map holding m, then m2 on top.
  method Merge(m: MapData, m2: MapData) returns (r: MapData)
    ensures r == m + m2
  {
    r := map[];
    var keys := m.Keys;
    while keys != {}
      invariant keys <= m.Keys
      invariant r == map k | k in m.Keys - keys :: m[k]
    {
      var k :| k in keys;
      r := r[k := m[k]];
      keys := keys - {k};
    }
    assert r == m;
    keys := m2.Keys;
    while keys != {}
      invariant keys <= m2.Keys
      invariant r == m + map k | k in m2.Keys - keys :: m2[k]
    {
      var k :| k in keys;
      r := r[k := m2[k]];
      keys := keys - {k};
    }
    assert (map k | k in m2.Keys - keys :: m2[k]) == m2;
  }

  // OriginIndexer.Parse
  method Parse(height: nat, txo: Txo, spends: seq<Txo>) returns (r: Option<IndexData>)
    requires txo.sats.Some?
    ensures r == ParseSpec(height, txo, spends)
  {
    if txo.sats.value != 1 || (height < TRIGGER && height != 0) {
      return None;
    }
    var outpoint: Option<Outpoint> := None;
    var nonce: nat := 0;
    var parentOp: Option<Outpoint> := None;
    var data := txo.data;
    var events: seq<Event> := [];
    var deps: seq<Outpoint> := [];
    var satsIn: nat := 0;
    var i: nat := 0;
    while i < |spends|
      invariant 0 <= i <= |spends|
      invariant outpoint.None? && nonce == 0 && parentOp.None? && data == txo.data && events == []
      invariant deps == OutpointsOf(spends[..i])
      invariant Locate(spends, 0, 0, txo.outAcc) == Locate(spends, i, satsIn, txo.outAcc)
    {
      var spend := spends[i];
      if spend.sats.None? {
        break;
      }
      deps := deps + [spend.outpoint];
      assert deps == OutpointsOf(spends[..i + 1]);
      if satsIn == txo.outAcc && spend.sats.value == 1 && spend.height >= TRIGGER {
        parentOp := Some(spend.outpoint);
        events := events + [ParentEvent(spend.outpoint)];
        if spend.origin.Some? {
          var parent := spend.origin.value.origin;
          nonce := parent.nonce + 1;
          outpoint := parent.outpoint;
          if data.None? {
            data := parent.data;
          } else if parent.data.Some? {
            var merged := Merge(parent.data.value, data.value);
            data := Some(merged);
          }
        }
        break;
      }
      satsIn := Add64(satsIn, spend.sats.value);
      if satsIn > txo.outAcc {
        outpoint := Some(txo.outpoint);
        break;
      }
      i := i + 1;
    }
    events := events + [OutpointEvent(outpoint)];
    var origin := Origin(outpoint, nonce, parentOp, txo.fileType, data);
    assert origin == OriginFor(txo, spends);
    assert events == EventsFor(origin);
    r := Some(IndexData(origin, deps, events));
  }

  /** What the running sum finds, said without it. */

  predicate Known(spends: seq<Txo>, n: nat)
    requires n <= |spends|
  {
    forall j :: 0 <= j < n ==> spends[j].sats.Some?
  }

  function KnownSats(spends: seq<Txo>, n: nat): (s: seq<nat>)
    requires n <= |spends| && Known(spends, n)
    ensures |s| == n
  {
    seq(n, j requires 0 <= j < n => spends[j].sats.value)
  }

  lemma {:induction false} PrefixSumAgrees(s: seq<nat>, s': seq<nat>, k: nat)
    requires k <= |s| && k <= |s'| && s[..k] == s'[..k]
    ensures PrefixSum(s, k) == PrefixSum(s', k)
  {
    if k > 0 {
      assert s[..k - 1] == s[..k][..k - 1] && s'[..k - 1] == s'[..k][..k - 1];
      assert s[k - 1] == s[..k][k - 1] && s'[k - 1] == s'[..k][k - 1];
      PrefixSumAgrees(s, s', k - 1);
    }
  }

  // The loop passes every input that ends at or before the offset.
  lemma {:induction false} LocatePasses(spends: seq<Txo>, s: seq<nat>, k: nat, g: nat)
    requires k < |s| <= |spends| && spends[k].sats == Some(s[k])
    requires PrefixSum(s, k + 1) <= g < TWO64
    ensures Locate(spends, k, PrefixSum(s, k), g) == Locate(spends, k + 1, PrefixSum(s, k + 1), g)
  {
    assert PrefixSum(s, k + 1) == PrefixSum(s, k) + s[k];
    assert Add64(PrefixSum(s, k), s[k]) == PrefixSum(s, k + 1);
  }

  lemma {:induction false} LocateHolds(spends: seq<Txo>, s: seq<nat>, h: nat, g: nat)
    requires h < |s| <= |spends| && spends[h].sats == Some(s[h])
    requires PrefixSum(s, h) <= g < PrefixSum(s, h + 1) < TWO64
    ensures Locate(spends, h, PrefixSum(s, h), g) ==
            if spends[h].sats.value == 1 && spends[h].height >= TRIGGER then AtParent(h) else Mixed(h)
  {
    assert PrefixSum(s, h + 1) == PrefixSum(s, h) + s[h];
    assert Add64(PrefixSum(s, h), s[h]) == PrefixSum(s, h + 1);
  }

  // If the first n inputs are known, input h < n holds offset g, and the sum up to
  // there does not overflow, the loop ends exactly at h.
  lemma {:induction false} LocateFinds(spends: seq<Txo>, n: nat, k: nat, h: nat, g: nat)
    requires k <= h < n <= |spends| && Known(spends, n)
    requires PrefixSum(KnownSats(spends, n), h) <= g < PrefixSum(KnownSats(spends, n), h + 1) < TWO64
    ensures Locate(spends, k, PrefixSum(KnownSats(spends, n), k), g) ==
            if spends[h].sats.value == 1 && spends[h].height >= TRIGGER then AtParent(h) else Mixed(h)
    decreases h - k
  {
    var s := KnownSats(spends, n);
    if k < h {
      PrefixSumMonotone(s, k + 1, h);
      LocatePasses(spends, s, k, g);
      LocateFinds(spends, n, k + 1, h, g);
    } else {
      LocateHolds(spends, s, h, g);
    }
  }

  // With an unknown input (or none left) before the offset is reached, nothing is found.
  lemma {:induction false} LocateStops(spends: seq<Txo>, n: nat, k: nat, g: nat)
    requires k <= n <= |spends| && Known(spends, n) && (n == |spends| || spends[n].sats.None?)
    requires PrefixSum(KnownSats(spends, n), n) <= g && g < TWO64
    ensures Locate(spends, k, PrefixSum(KnownSats(spends, n), k), g) == Unresolved(n)
    decreases n - k
  {
    var s := KnownSats(spends, n);
    if k < n {
      PrefixSumMonotone(s, k + 1, n);
      LocatePasses(spends, s, k, g);
      LocateStops(spends, n, k + 1, g);
    }
  }
}
