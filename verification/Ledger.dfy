// The block chain as the indexer sees it: a topologically ordered sequence of
// transactions, a transaction being named by its position.  A satoshi moves
// first-in-first-out: the satoshi at offset g of all outputs is the satoshi at
// offset g of all inputs.
module Ledger {
  import opened Common

  // First block height at which origins are tracked.
  const TRIGGER: nat := 783968

  type MapData = map<string, string>

  // `data` and `fileType` are what the MAP and inscription indexers found in the script.
  datatype Output = Output(sats: nat, data: Option<MapData>, fileType: string)

  // A coinbase has no inputs.  Height 0 means not mined.
  datatype Tx = Tx(inputs: seq<Outpoint>, outputs: seq<Output>, height: nat)

  type Chain = seq<Tx>

  function OutSats(tx: Tx): (s: seq<nat>)
    ensures |s| == |tx.outputs|
  {
    seq(|tx.outputs|, v requires 0 <= v < |tx.outputs| => tx.outputs[v].sats)
  }

  predicate Has(l: Chain, o: Outpoint) {
    o.txid < |l| && o.vout < |l[o.txid].outputs|
  }

  function SatsOf(l: Chain, o: Outpoint): nat
    requires Has(l, o)
  {
    l[o.txid].outputs[o.vout].sats
  }

  ghost predicate InputsExist(l: Chain, t: nat)
    requires t < |l|
  {
    forall k :: 0 <= k < |l[t].inputs| ==> l[t].inputs[k].txid < t && Has(l, l[t].inputs[k])
  }

  ghost function InSats(l: Chain, t: nat): (s: seq<nat>)
    requires t < |l| && InputsExist(l, t)
    ensures |s| == |l[t].inputs|
  {
    seq(|l[t].inputs|, k requires 0 <= k < |l[t].inputs| => SatsOf(l, l[t].inputs[k]))
  }

  ghost predicate NoDoubleSpend(l: Chain) {
    forall t, k, t', k' |
      && 0 <= t < |l| && 0 <= k < |l[t].inputs|
      && 0 <= t' < |l| && 0 <= k' < |l[t'].inputs|
      && l[t].inputs[k] == l[t'].inputs[k']
      :: t == t' && k == k'
  }

  // Only a coinbase may create satoshis, and every total fits in 64 bits.
  ghost predicate Conserves(l: Chain, t: nat)
    requires t < |l| && InputsExist(l, t)
  {
    && PrefixSum(OutSats(l[t]), |l[t].outputs|) < TWO64
    && PrefixSum(InSats(l, t), |l[t].inputs|) < TWO64
    && (l[t].inputs != [] ==>
          PrefixSum(OutSats(l[t]), |l[t].outputs|) <= PrefixSum(InSats(l, t), |l[t].inputs|))
  }

  ghost predicate Valid(l: Chain) {
    && (forall t :: 0 <= t < |l| ==> InputsExist(l, t) && Conserves(l, t))
    && NoDoubleSpend(l)
  }

  // Outputs below the trigger height are not tracked; whether an unmined
  // output is, is the question `pending` settles.
  predicate InEra(height: nat, pending: bool) {
    height >= TRIGGER || (pending && height == 0)
  }

  // One satoshi on its own, in a tracked transaction.
  predicate Alone(l: Chain, o: Outpoint, pending: bool)
    requires Has(l, o)
  {
    SatsOf(l, o) == 1 && InEra(l[o.txid].height, pending)
  }

  // Position of the first satoshi of o among all satoshis its transaction pays out.
  function Offset(l: Chain, o: Outpoint): nat
    requires Has(l, o)
  {
    PrefixSum(OutSats(l[o.txid]), o.vout)
  }

  // The first satoshi of o came in through input k, where it was already alone.
  ghost predicate ArrivesAlone(l: Chain, o: Outpoint, k: nat, pending: bool)
    requires Has(l, o) && InputsExist(l, o.txid)
  {
    && k < |l[o.txid].inputs|
    && PrefixSum(InSats(l, o.txid), k) <= Offset(l, o) < PrefixSum(InSats(l, o.txid), k + 1)
    && Alone(l, l[o.txid].inputs[k], pending)
  }

  ghost function Before(l: Chain, o: Outpoint, pending: bool): (p: Option<Outpoint>)
    requires Valid(l) && Has(l, o)
    ensures p.Some? ==> p.value.txid < o.txid && Has(l, p.value) && Alone(l, p.value, pending)
  {
    if k: nat :| ArrivesAlone(l, o, k, pending) then Some(l[o.txid].inputs[k]) else None
  }
}
