// An origin names one satoshi: no two outputs share origin and nonce, and no two
// unspent outputs share an origin.  Also the situations in which the index
// answers differently from the walk, or not at all.
module OriginUnique {
  import opened Common
  import opened Ledger
  import opened OriginIndexing
  import opened Indexing
  import opened OriginWalk
  import opened OriginIndex

  // The input a satoshi that was alone before came in through.
  lemma {:induction false} ArrivalInput(l: Chain, o: Outpoint, pending: bool) returns (k: nat)
    requires Valid(l) && Has(l, o) && Before(l, o, pending).Some?
    ensures InputsExist(l, o.txid) && ArrivesAlone(l, o, k, pending)
    ensures Before(l, o, pending) == Some(l[o.txid].inputs[k])
    ensures Offset(l, o) == PrefixSum(InSats(l, o.txid), k)
  {
    assert InputsExist(l, o.txid);
    k :| ArrivesAlone(l, o, k, pending) && Before(l, o, pending) == Some(l[o.txid].inputs[k]);
    assert PrefixSum(InSats(l, o.txid), k + 1) == PrefixSum(InSats(l, o.txid), k) + 1;
  }

  // Two one-satoshi outputs of a transaction never start at the same offset.
  lemma {:induction false} OffsetInjective(l: Chain, o: Outpoint, o': Outpoint)
    requires Has(l, o) && Has(l, o') && SatsOf(l, o) == 1 && SatsOf(l, o') == 1
    requires o.txid == o'.txid && Offset(l, o) == Offset(l, o')
    ensures o == o'
  {
    var outs := OutSats(l[o.txid]);
    if o.vout < o'.vout {
      PrefixSumMonotone(outs, o.vout + 1, o'.vout);
    } else if o'.vout < o.vout {
      PrefixSumMonotone(outs, o'.vout + 1, o.vout);
    }
  }

  // A one-satoshi output passes its satoshi to at most one one-satoshi output,
  // zero-satoshi inputs and outputs notwithstanding.
  lemma {:induction false} BeforeInjective(l: Chain, o: Outpoint, o': Outpoint, pending: bool)
    requires Valid(l) && Has(l, o) && Has(l, o') && SatsOf(l, o) == 1 && SatsOf(l, o') == 1
    requires Before(l, o, pending).Some? && Before(l, o, pending) == Before(l, o', pending)
    ensures o == o'
  {
    var k := ArrivalInput(l, o, pending);
    var k' := ArrivalInput(l, o', pending);
    assert o.txid == o'.txid && k == k';
    OffsetInjective(l, o, o');
  }

  lemma {:induction false} OriginAndNonceUnique(l: Chain, o: Outpoint, o': Outpoint)
    requires Valid(l) && Has(l, o) && Has(l, o') && SatsOf(l, o) == 1 && SatsOf(l, o') == 1
    requires Root(l, o) == Root(l, o') && |Path(l, o, false)| == |Path(l, o', false)|
    ensures o == o'
    decreases o.txid
  {
    if Before(l, o, false).Some? {
      var p, p' := Before(l, o, false).value, Before(l, o', false).value;
      WalkStep(l, o, p);
      WalkStep(l, o', p');
      OriginAndNonceUnique(l, p, p');
      BeforeInjective(l, o, o', false);
    }
  }

  lemma {:induction false} BeforeIsSpent(l: Chain, o: Outpoint)
    requires Valid(l) && Has(l, o) && Before(l, o, false).Some?
    ensures var p := Before(l, o, false).value; SatsOf(l, p) == 1 && Spent(l, o.txid + 1, p)
  {
    assert InputsExist(l, o.txid);
    var k: nat :| ArrivesAlone(l, o, k, false) && Before(l, o, false) == Some(l[o.txid].inputs[k]);
  }

  // Every output on a path but the last is spent, by the transaction of the next one.
  lemma {:induction false} PathIsSpent(l: Chain, o: Outpoint, i: nat)
    requires Valid(l) && Has(l, o) && i + 1 < |Path(l, o, false)|
    ensures var e := Path(l, o, false)[i];
            && Path(l, e, false) == Path(l, o, false)[..i + 1]
            && SatsOf(l, e) == 1
            && Spent(l, o.txid + 1, e)
    decreases o.txid
  {
    var p := Before(l, o, false).value;
    WalkStep(l, o, p);
    BeforeIsSpent(l, o);
    assert Path(l, o, false)[..|Path(l, p, false)|] == Path(l, p, false);
    if i + 1 < |Path(l, p, false)| {
      PathIsSpent(l, p, i);
      assert Path(l, o, false)[..i + 1] == Path(l, p, false)[..i + 1];
    } else {
      assert Path(l, o, false)[i] == p;
    }
  }

  // o is spent by one of the first n transactions.
  ghost predicate Spent(l: Chain, n: nat, o: Outpoint) {
    exists t, k :: 0 <= t < n && t < |l| && 0 <= k < |l[t].inputs| && l[t].inputs[k] == o
  }

  // At every point of the chain an origin sits in at most one unspent output.
  lemma {:induction false} OriginCarriedOnce(l: Chain, n: nat, o: Outpoint, o': Outpoint)
    requires Valid(l) && Has(l, o) && Has(l, o') && o.txid < n <= |l| && o'.txid < n
    requires SatsOf(l, o) == 1 && SatsOf(l, o') == 1 && Root(l, o) == Root(l, o')
    requires !Spent(l, n, o) && !Spent(l, n, o')
    ensures o == o'
  {
    var a, b := |Path(l, o, false)|, |Path(l, o', false)|;
    if a == b {
      OriginAndNonceUnique(l, o, o');
    } else if a < b {
      SharedPath(l, o, o');
    } else {
      SharedPath(l, o', o);
    }
  }

  lemma {:induction false} SharedPath(l: Chain, o: Outpoint, o': Outpoint)
    requires Valid(l) && Has(l, o) && Has(l, o') && SatsOf(l, o) == 1 && SatsOf(l, o') == 1
    requires Root(l, o) == Root(l, o') && |Path(l, o, false)| < |Path(l, o', false)|
    ensures Spent(l, o'.txid + 1, o)
  {
    var i := |Path(l, o, false)| - 1;
    PathIsSpent(l, o', i);
    OriginAndNonceUnique(l, o, Path(l, o', false)[i]);
  }

  // The same for what a run has written.
  lemma {:induction false} IndexedOriginsUnique(l: Chain, steps: seq<Step>, n: nat, o: Outpoint, o': Outpoint)
    requires Valid(l) && AllSensible(l, steps)
    requires forall i :: 0 <= i < |steps| ==> !LoadOnly(steps[i].cfg)
    requires o in Run(l, steps) && o' in Run(l, steps)
    requires Run(l, steps)[o].origin.Some? && Run(l, steps)[o].origin.value.outpoint.Some?
    requires Run(l, steps)[o'].origin.Some?
    requires Run(l, steps)[o'].origin.value.outpoint == Run(l, steps)[o].origin.value.outpoint
    ensures Run(l, steps)[o].origin.value.nonce == Run(l, steps)[o'].origin.value.nonce ==> o == o'
    ensures o.txid < n <= |l| && o'.txid < n && !Spent(l, n, o) && !Spent(l, n, o') ==> o == o'
  {
    StoredOriginsAreWalks(l, steps, o);
    StoredOriginsAreWalks(l, steps, o');
    if Run(l, steps)[o].origin.value.nonce == Run(l, steps)[o'].origin.value.nonce {
      OriginAndNonceUnique(l, o, o');
    }
    if o.txid < n <= |l| && o'.txid < n && !Spent(l, n, o) && !Spent(l, n, o') {
      OriginCarriedOnce(l, n, o, o');
    }
  }

  predicate MinedBeforeLast(l: Chain, path: seq<Outpoint>)
    requires forall i :: 0 <= i < |path| ==> Has(l, path[i])
  {
    forall i :: 0 <= i < |path| - 1 ==> Has(l, path[i]) && l[path[i].txid].height != 0
  }

  // An unmined output starts no inheritance: the origin found is the one the walk through
  // unmined transactions finds exactly when it passes no unmined ancestor, and then the paths
  // and with them nonce, parent and map are the same.
  lemma {:induction false} UnminedAncestorCutsWalk(l: Chain, o: Outpoint)
    requires Valid(l) && Has(l, o)
    ensures Root(l, o) == Path(l, o, true)[0] <==> MinedBeforeLast(l, Path(l, o, true))
    ensures MinedBeforeLast(l, Path(l, o, true)) ==>
              Path(l, o, false) == Path(l, o, true) && Before(l, o, false) == Before(l, o, true)
    decreases o.txid
  {
    if Before(l, o, true).Some? {
      var p := Before(l, o, true).value;
      var k := ArrivalInput(l, o, true);
      if l[p.txid].height == 0 {
        NotAloneNoStep(l, o, k);
        CutAtUnmined(l, o, p);
      } else {
        assert ArrivesAlone(l, o, k, false);
        ArrivalIsUnique(l, o, k, false);
        UnminedAncestorCutsWalk(l, p);
        ExtendMinedPath(l, o, p);
      }
    } else {
      if Before(l, o, false).Some? {
        var k := ArrivalInput(l, o, false);
        assert ArrivesAlone(l, o, k, true);
      }
      WalkEnd(l, o);
    }
  }

  lemma {:induction false} CutAtUnmined(l: Chain, o: Outpoint, p: Outpoint)
    requires Valid(l) && Has(l, o) && Before(l, o, true) == Some(p) && Before(l, o, false) == None
    requires l[p.txid].height == 0
    ensures Root(l, o) != Path(l, o, true)[0]
    ensures !MinedBeforeLast(l, Path(l, o, true))
  {
    var path := Path(l, o, true);
    assert path == Path(l, p, true) + [o];
    assert path[|path| - 2] == p;
    WalkEnd(l, o);
    PathIsOlder(l, p, true);
  }

  lemma {:induction false} ExtendMinedPath(l: Chain, o: Outpoint, p: Outpoint)
    requires Valid(l) && Has(l, o) && Before(l, o, true) == Some(p) && Before(l, o, false) == Some(p)
    requires l[p.txid].height != 0
    ensures Root(l, o) == Root(l, p) && Path(l, o, true)[0] == Path(l, p, true)[0]
    ensures MinedBeforeLast(l, Path(l, o, true)) <==> MinedBeforeLast(l, Path(l, p, true))
  {
    WalkStep(l, o, p);
    MinedAppend(l, Path(l, p, true), o);
  }

  lemma {:induction false} MinedAppend(l: Chain, path: seq<Outpoint>, o: Outpoint)
    requires |path| > 0 && Has(l, o) && forall i :: 0 <= i < |path| ==> Has(l, path[i])
    requires Has(l, path[|path| - 1]) && l[path[|path| - 1].txid].height != 0
    ensures MinedBeforeLast(l, path + [o]) <==> MinedBeforeLast(l, path)
  {
    assert forall i :: 0 <= i < |path| ==> (path + [o])[i] == path[i];
  }

  lemma {:induction false} PathIsOlder(l: Chain, o: Outpoint, pending: bool)
    requires Valid(l) && Has(l, o)
    ensures Path(l, o, pending)[0].txid <= o.txid
    decreases o.txid
  {
    if Before(l, o, pending).Some? {
      PathIsOlder(l, Before(l, o, pending).value, pending);
    }
  }

  // The last two transactions are both at this height, or both unmined.
  function SmallChain(height: nat): Chain {
    var alone := Output(1, None, "");
    [ Tx([], [Output(5, None, "")], TRIGGER),
      Tx([Outpoint(0, 0)], [alone], height),
      Tx([Outpoint(1, 0)], [alone], height) ]
  }

  lemma {:induction false} SmallChainSums(height: nat)
    ensures var l := SmallChain(height);
            && InputsExist(l, 0) && InputsExist(l, 1) && InputsExist(l, 2)
            && OutSats(l[0]) == [5] && OutSats(l[1]) == [1] && OutSats(l[2]) == [1]
            && InSats(l, 0) == [] && InSats(l, 1) == [5] && InSats(l, 2) == [1]
    ensures PrefixSum([5], 1) == 5 && PrefixSum([1], 1) == 1
  {
  }

  lemma {:induction false} SmallChainIsValid(height: nat)
    ensures Valid(SmallChain(height))
  {
    var l := SmallChain(height);
    SmallChainSums(height);
    assert Conserves(l, 0) && Conserves(l, 1) && Conserves(l, 2);
  }

  lemma {:induction false} SmallChainWalk(height: nat, pending: bool)
    ensures Valid(SmallChain(height))
    ensures Has(SmallChain(height), Outpoint(2, 0)) && Has(SmallChain(height), Outpoint(1, 0))
    ensures Before(SmallChain(height), Outpoint(2, 0), pending) ==
            if InEra(height, pending) then Some(Outpoint(1, 0)) else None
    ensures Before(SmallChain(height), Outpoint(1, 0), pending) == None
  {
    var l := SmallChain(height);
    SmallChainIsValid(height);
    SmallChainSums(height);
    assert ArrivesAlone(l, Outpoint(2, 0), 0, pending) <==> InEra(height, pending);
    if InEra(height, pending) {
      ArrivalIsUnique(l, Outpoint(2, 0), 0, pending);
    }
  }

  // A run with ancestors loaded but not parsed writes a wrong origin.
  lemma {:induction false} LoadOnlyGoesWrong()
    ensures var l := SmallChain(TRIGGER);
            var steps := [Step(2, AncestorConfig(true, false, false), map[1 := l[1]])];
            && Valid(l) && AllSensible(l, steps) && Has(l, Outpoint(2, 0))
            && Outpoint(2, 0) in Run(l, steps)
            && Run(l, steps)[Outpoint(2, 0)].origin.Some?
            && Run(l, steps)[Outpoint(2, 0)].origin.value.outpoint == Some(Outpoint(2, 0))
            && Root(l, Outpoint(2, 0)) == Outpoint(1, 0)
  {
    var l := SmallChain(TRIGGER);
    var cfg, remote := AncestorConfig(true, false, false), map[1 := l[1]];
    var steps := [Step(2, cfg, remote)];
    SmallChainIsValid(TRIGGER);
    assert steps[..0] == [];
    var r0 := LoadSpends(map[], l[2].inputs, 0, cfg, remote);
    assert LoadSpends(map[], l[2].inputs, 1, cfg, remote) ==
           Loaded(true, [Txo(Outpoint(1, 0), 0, Some(1), 0, None, "", None)], map[]);
    var spends := [Txo(Outpoint(1, 0), 0, Some(1), 0, None, "", None)];
    assert Locate(spends, 0, 0, 0) == Mixed(0);
    var txos := ParsedTxos(l[2], 2, spends, 1);
    assert SaveAll(map[], txos, 1) == SaveTxo(SaveAll(map[], txos, 0), txos[0]);
    assert Run(l, steps) == SaveAll(map[], txos, 1);
    RootOfSmallChain(TRIGGER, false);
  }

  lemma {:induction false} RootOfSmallChain(height: nat, pending: bool)
    requires InEra(height, pending)
    ensures Valid(SmallChain(height)) && Has(SmallChain(height), Outpoint(2, 0))
    ensures Path(SmallChain(height), Outpoint(2, 0), pending)[0] == Outpoint(1, 0)
  {
    SmallChainWalk(height, pending);
    assert Path(SmallChain(height), Outpoint(1, 0), pending) == [Outpoint(1, 0)];
  }

  // With the last two transactions unmined, a run that parses the first of them writes a wrong
  // origin for the second: the satoshi was alone before.
  lemma {:induction false} UnminedParentGoesWrong()
    ensures var l := SmallChain(0);
            var steps := [Step(2, AncestorConfig(false, true, false), map[1 := l[1]])];
            && Valid(l) && AllSensible(l, steps) && Has(l, Outpoint(2, 0))
            && Outpoint(2, 0) in Run(l, steps)
            && Run(l, steps)[Outpoint(2, 0)].origin.Some?
            && Run(l, steps)[Outpoint(2, 0)].origin.value.outpoint == Some(Outpoint(2, 0))
            && Path(l, Outpoint(2, 0), true)[0] == Outpoint(1, 0)
  {
    var l := SmallChain(0);
    var cfg, remote := AncestorConfig(false, true, false), map[1 := l[1]];
    var steps := [Step(2, cfg, remote)];
    SmallChainIsValid(0);
    assert steps[..0] == [];
    var parent := ParsedTxos(l[1], 1, [], 1)[0];
    assert LoadSpends(map[], l[2].inputs, 0, cfg, remote) == Loaded(true, [], map[]);
    assert LoadSpends(map[], l[2].inputs, 1, cfg, remote) == Loaded(true, [parent], map[]);
    assert Locate([parent], 0, 0, 0) == Mixed(0);
    var txos := ParsedTxos(l[2], 2, [parent], 1);
    assert SaveAll(map[], txos, 1) == SaveTxo(SaveAll(map[], txos, 0), txos[0]);
    assert Run(l, steps) == SaveAll(map[], txos, 1);
    RootOfSmallChain(0, true);
  }

  function MintedAlone(): Chain {
    [Tx([], [Output(1, None, "")], TRIGGER)]
  }

  // A coinbase that pays out a satoshi on its own: this is the first outpoint where the satoshi is
  // alone, and the index gives it no origin.
  lemma {:induction false} MintedAloneStaysOpen()
    ensures var l, o := MintedAlone(), Outpoint(0, 0);
            var steps := [Step(0, AncestorConfig(false, true, true), map[])];
            && Valid(l) && AllSensible(l, steps) && Has(l, o) && Root(l, o) == o
            && o in Run(l, steps)
            && Run(l, steps)[o].origin.Some? && Run(l, steps)[o].origin.value.outpoint == None
  {
    var l, o := MintedAlone(), Outpoint(0, 0);
    var steps := [Step(0, AncestorConfig(false, true, true), map[])];
    assert OutSats(l[0]) == [1] && PrefixSum([1], 1) == 1;
    assert InputsExist(l, 0) && InSats(l, 0) == [] && Conserves(l, 0);
    assert steps[0].txid == o.txid;
    ParentsFirstResolves(l, steps, o);
    WalkEnd(l, o);
  }
}
