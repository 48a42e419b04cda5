// Token supply over a whole chain of transactions.  An output counts as valid when it
// deploys a token, or when the balance pass recorded no failure for its token.
module Bsv21Supply {
  import opened Common
  import opened Bsv21Tokens

  // Transaction number t: what it spends, what it creates, and whether some input is
  // unknown to the indexer.
  datatype TokenTx = TokenTx(inputs: seq<Outpoint>, outs: Outs, missing: bool)

  type Tokens = map<Outpoint, Bsv21>

  // All token outputs stored so far with their verdicts, the outpoints spent so far, and
  // the amounts deployed so far.
  datatype State = State(seen: Tokens, spent: set<Outpoint>, issued: map<TokenId, nat>)
  {
    function Utxo(): Tokens {
      seen - spent
    }
  }

  // The inputs as loaded from the stored outputs.
  function SpendsOf(stored: Tokens, tx: TokenTx): (r: seq<Spend>)
    ensures |r| == |tx.inputs|
  {
    seq(|tx.inputs|, k requires 0 <= k < |tx.inputs| =>
      var o := tx.inputs[k];
      Spend(o, !tx.missing, if o in stored then Some(stored[o]) else None))
  }

  function Verdict(tx: TokenTx, spends: seq<Spend>, v: nat): Status
    requires v < |tx.outs| && tx.outs[v].Some?
  {
    if tx.outs[v].value.token.op == DeployMint then Valid
    else if IsPending(spends) then Pending
    else if Outcome(tx.outs, spends, tx.outs[v].value.token.id).reason == None then Valid
    else Invalid
  }

  function Judged(tx: TokenTx, spends: seq<Spend>, v: nat): Bsv21
    requires v < |tx.outs| && tx.outs[v].Some?
  {
    tx.outs[v].value.token.(status := Verdict(tx, spends, v))
  }

  function AddOutputs(utxo: Tokens, t: nat, tx: TokenTx, spends: seq<Spend>, n: nat): Tokens
    requires n <= |tx.outs|
  {
    if n == 0 then utxo
    else
      var rest := AddOutputs(utxo, t, tx, spends, n - 1);
      if tx.outs[n - 1].None? then rest else rest[Outpoint(t, n - 1) := Judged(tx, spends, n - 1)]
  }

  function RemoveInputs(utxo: Tokens, inputs: seq<Outpoint>, n: nat): Tokens
    requires n <= |inputs|
  {
    if n == 0 then utxo else RemoveInputs(utxo, inputs, n - 1) - {inputs[n - 1]}
  }

  function AddIssues(issued: map<TokenId, nat>, t: nat, tx: TokenTx, n: nat): map<TokenId, nat>
    requires n <= |tx.outs|
  {
    if n == 0 then issued
    else
      var rest := AddIssues(issued, t, tx, n - 1);
      if tx.outs[n - 1].Some? && tx.outs[n - 1].value.token.op == DeployMint
      then rest[OfOutpoint(Outpoint(t, n - 1)) := tx.outs[n - 1].value.token.amt] else rest
  }

  function Apply(s: State, t: nat, tx: TokenTx): State {
    State(AddOutputs(s.seen, t, tx, SpendsOf(s.seen, tx), |tx.outs|),
          s.spent + (set o | o in tx.inputs),
          AddIssues(s.issued, t, tx, |tx.outs|))
  }

  // What parsing guarantees of transaction t: a deployment is its own token and amounts are
  // 64-bit; and that a transaction spends earlier outputs, none of them twice.
  ghost predicate WellFormed(t: nat, tx: TokenTx) {
    && (forall k :: 0 <= k < |tx.inputs| ==> tx.inputs[k].txid < t)
    && (forall i, j :: 0 <= i < j < |tx.inputs| ==> tx.inputs[i] != tx.inputs[j])
    && (forall v :: 0 <= v < |tx.outs| && tx.outs[v].Some? ==>
          var token := tx.outs[v].value.token;
          token.amt < TWO64 && (token.op == DeployMint ==> token.id == OfOutpoint(Outpoint(t, v))))
  }

  function After(txs: seq<TokenTx>): State {
    if txs == [] then State(map[], {}, map[])
    else Apply(After(txs[..|txs| - 1]), |txs| - 1, txs[|txs| - 1])
  }

  /** Valid amounts of one token */

  function Weight(b: Bsv21, id: TokenId): nat {
    if b.status == Valid && b.id == id then b.amt else 0
  }

  ghost function Supply(utxo: Tokens, id: TokenId): nat
    decreases |utxo|
  {
    if utxo == map[] then 0
    else
      var o :| o in utxo;
      assert (utxo - {o}).Keys == utxo.Keys - {o};
      assert |utxo - {o}| == |(utxo - {o}).Keys|;
      Weight(utxo[o], id) + Supply(utxo - {o}, id)
  }

  lemma {:induction false} SupplyWithout(utxo: Tokens, id: TokenId, o: Outpoint)
    requires o in utxo
    ensures Supply(utxo, id) == Weight(utxo[o], id) + Supply(utxo - {o}, id)
    decreases |utxo|
  {
    var p :| p in utxo && Supply(utxo, id) == Weight(utxo[p], id) + Supply(utxo - {p}, id);
    if p != o {
      assert (utxo - {p}).Keys == utxo.Keys - {p};
      assert |utxo - {p}| == |(utxo - {p}).Keys|;
      SupplyWithout(utxo - {p}, id, o);
      assert (utxo - {o}).Keys == utxo.Keys - {o};
      assert |utxo - {o}| == |(utxo - {o}).Keys|;
      SupplyWithout(utxo - {o}, id, p);
      assert utxo - {p} - {o} == utxo - {o} - {p};
    }
  }

  lemma {:induction false} SupplyWith(utxo: Tokens, id: TokenId, o: Outpoint, b: Bsv21)
    requires o !in utxo
    ensures Supply(utxo[o := b], id) == Weight(b, id) + Supply(utxo, id)
  {
    SupplyWithout(utxo[o := b], id, o);
    assert utxo[o := b] - {o} == utxo;
  }

  /** One transaction */

  lemma {:induction false} RemovedAre(utxo: Tokens, inputs: seq<Outpoint>, n: nat)
    requires n <= |inputs|
    ensures RemoveInputs(utxo, inputs, n) == utxo - (set o | o in inputs[..n])
  {
    if n > 0 {
      RemovedAre(utxo, inputs, n - 1);
      assert inputs[..n] == inputs[..n - 1] + [inputs[n - 1]];
    }
  }

  // Spending takes exactly the valid inputs out of the supply.
  lemma {:induction false} SpendingTakes(utxo: Tokens, tx: TokenTx, id: TokenId, n: nat)
    requires n <= |tx.inputs| && forall i, j :: 0 <= i < j < |tx.inputs| ==> tx.inputs[i] != tx.inputs[j]
    ensures var ins := InAmts(SpendsOf(utxo, tx), id, n);
            Supply(RemoveInputs(utxo, tx.inputs, n), id) + PrefixSum(ins, |ins|) == Supply(utxo, id)
  {
    if n > 0 {
      SpendingTakes(utxo, tx, id, n - 1);
      RemovedAre(utxo, tx.inputs, n - 1);
      SpendingNext(utxo, RemoveInputs(utxo, tx.inputs, n - 1), tx, id, n - 1);
    }
  }

  lemma {:induction false} InSumNext(spends: seq<Spend>, id: TokenId, n: nat)
    requires n < |spends|
    ensures var ins := InAmts(spends, id, n + 1);
            var before := InAmts(spends, id, n);
            PrefixSum(ins, |ins|) == PrefixSum(before, |before|) +
                                     (if Supplies(spends[n], id) then spends[n].token.value.amt else 0)
  {
    if Supplies(spends[n], id) {
      SumAppend(InAmts(spends, id, n), spends[n], id);
    } else {
      assert InAmts(spends, id, n + 1) == InAmts(spends, id, n);
    }
  }

  lemma {:induction false} SpendingNext(utxo: Tokens, rest: Tokens, tx: TokenTx, id: TokenId, n: nat)
    requires n < |tx.inputs| && forall i, j :: 0 <= i < j < |tx.inputs| ==> tx.inputs[i] != tx.inputs[j]
    requires rest == utxo - (set o | o in tx.inputs[..n])
    ensures var spends := SpendsOf(utxo, tx);
            var ins := InAmts(spends, id, n + 1);
            var before := InAmts(spends, id, n);
            Supply(rest - {tx.inputs[n]}, id) + PrefixSum(ins, |ins|) == Supply(rest, id) + PrefixSum(before, |before|)
  {
    var o := tx.inputs[n];
    var spends := SpendsOf(utxo, tx);
    assert o !in tx.inputs[..n];
    if o in utxo {
      SupplyWithout(rest, id, o);
    } else {
      assert rest - {o} == rest;
    }
    InSumNext(spends, id, n);
  }

  // What the first n outputs add to the supply.
  function Gain(tx: TokenTx, spends: seq<Spend>, id: TokenId, n: nat): nat
    requires n <= |tx.outs|
  {
    if n == 0 then 0
    else Gain(tx, spends, id, n - 1) + (if tx.outs[n - 1].Some? then Weight(Judged(tx, spends, n - 1), id) else 0)
  }

  lemma {:induction false} CreatingAdds(utxo: Tokens, t: nat, tx: TokenTx, spends: seq<Spend>, id: TokenId, n: nat)
    requires n <= |tx.outs| && forall o :: o in utxo ==> o.txid < t
    ensures Supply(AddOutputs(utxo, t, tx, spends, n), id) == Supply(utxo, id) + Gain(tx, spends, id, n)
    ensures forall o :: o in AddOutputs(utxo, t, tx, spends, n) ==> o.txid < t || (o.txid == t && o.vout < n)
  {
    if n > 0 {
      CreatingAdds(utxo, t, tx, spends, id, n - 1);
      if tx.outs[n - 1].Some? {
        SupplyWith(AddOutputs(utxo, t, tx, spends, n - 1), id, Outpoint(t, n - 1), Judged(tx, spends, n - 1));
      }
    }
  }

  // The amount of id deployed by the first n outputs.
  function Deployed(t: nat, tx: TokenTx, id: TokenId, n: nat): nat
    requires n <= |tx.outs|
  {
    if n == 0 then 0
    else if tx.outs[n - 1].Some? && tx.outs[n - 1].value.token.op == DeployMint && id == OfOutpoint(Outpoint(t, n - 1))
    then Deployed(t, tx, id, n - 1) + tx.outs[n - 1].value.token.amt
    else Deployed(t, tx, id, n - 1)
  }

  // The outputs of the first n that ask for the token.
  function Asked(tx: TokenTx, id: TokenId, n: nat): nat
    requires n <= |tx.outs|
  {
    var asked := Amts(tx.outs, OutputsOf(tx.outs, id, n));
    PrefixSum(asked, |asked|)
  }

  lemma {:induction false} AmtsSnoc(txos: Outs, vs: seq<nat>, v: nat)
    requires forall j :: 0 <= j < |vs| ==> vs[j] < |txos| && txos[vs[j]].Some?
    requires v < |txos| && txos[v].Some?
    ensures Amts(txos, vs + [v]) == Amts(txos, vs) + [txos[v].value.token.amt]
  {
    assert forall j :: 0 <= j < |vs| ==> (vs + [v])[j] == vs[j];
  }

  lemma {:induction false} SumSnoc(s: seq<nat>, a: nat)
    ensures PrefixSum(s + [a], |s| + 1) == PrefixSum(s, |s|) + a
  {
    SumOfPrefix(s, [a], |s|);
    assert (s + [a])[|s|] == a;
  }

  lemma {:induction false} AskedStep(tx: TokenTx, id: TokenId, n: nat)
    requires n < |tx.outs|
    ensures Asked(tx, id, n + 1) ==
            Asked(tx, id, n) + (if Moves(tx.outs[n], id) then tx.outs[n].value.token.amt else 0)
  {
    OutputsNext(tx.outs, id, n);
    var before := OutputsOf(tx.outs, id, n);
    if Moves(tx.outs[n], id) {
      AmtsSnoc(tx.outs, before, n);
      SumSnoc(Amts(tx.outs, before), tx.outs[n].value.token.amt);
    } else {
      assert OutputsOf(tx.outs, id, n + 1) == before;
    }
  }

  predicate Passes(tx: TokenTx, spends: seq<Spend>, id: TokenId) {
    !IsPending(spends) && Outcome(tx.outs, spends, id).reason == None
  }

  lemma {:induction false} WeightOf(t: nat, tx: TokenTx, spends: seq<Spend>, id: TokenId, v: nat)
    requires WellFormed(t, tx) && v < |tx.outs| && tx.outs[v].Some?
    ensures var token := tx.outs[v].value.token;
            Weight(Judged(tx, spends, v), id) ==
            if token.op == DeployMint then (if id == OfOutpoint(Outpoint(t, v)) then token.amt else 0)
            else if token.id == id && Passes(tx, spends, id) then token.amt else 0
  {
  }

  // An output adds to the supply what it deploys, or what it asks for if its token passed.
  lemma {:induction false} GainIsDeployedAndAsked(t: nat, tx: TokenTx, spends: seq<Spend>, id: TokenId, n: nat)
    requires WellFormed(t, tx) && n <= |tx.outs|
    ensures Gain(tx, spends, id, n) ==
            Deployed(t, tx, id, n) + (if Passes(tx, spends, id) then Asked(tx, id, n) else 0)
  {
    if n > 0 {
      GainIsDeployedAndAsked(t, tx, spends, id, n - 1);
      AskedStep(tx, id, n - 1);
      if tx.outs[n - 1].Some? {
        WeightOf(t, tx, spends, id, n - 1);
      }
    }
  }

  // An id in this transaction is deployed at most once, and only here.
  lemma {:induction false} IssuesAre(issued: map<TokenId, nat>, t: nat, tx: TokenTx, id: TokenId, n: nat)
    requires n <= |tx.outs|
    requires forall i :: i in issued ==> i.OfOutpoint? && i.o.txid < t
    ensures var issued' := AddIssues(issued, t, tx, n);
            && (id.OfOutpoint? && id.o.txid == t && id.o.vout >= n ==> id !in issued' && Deployed(t, tx, id, n) == 0)
            && (id in issued ==> id in issued' && issued'[id] == issued[id] && Deployed(t, tx, id, n) == 0)
            && (id !in issued ==> Deployed(t, tx, id, n) == if id in issued' then issued'[id] else 0)
            && (forall i :: i in issued' ==> i.OfOutpoint? && i.o.txid <= t)
  {
    if n > 0 {
      IssuesAre(issued, t, tx, id, n - 1);
      if id == OfOutpoint(Outpoint(t, n - 1)) {
        assert Deployed(t, tx, id, n - 1) == 0;
      }
    }
  }

  lemma {:induction false} IssuesFit(issued: map<TokenId, nat>, t: nat, tx: TokenTx, n: nat)
    requires n <= |tx.outs| && WellFormed(t, tx)
    requires forall i :: i in issued ==> issued[i] < TWO64
    ensures forall i :: i in AddIssues(issued, t, tx, n) ==> AddIssues(issued, t, tx, n)[i] < TWO64
  {
    if n > 0 {
      IssuesFit(issued, t, tx, n - 1);
    }
  }

  ghost predicate Within(utxo: Tokens, issued: map<TokenId, nat>, id: TokenId) {
    Supply(utxo, id) <= if id in issued then issued[id] else 0
  }

  ghost predicate Inv(s: State, t: nat) {
    && (forall id :: Within(s.Utxo(), s.issued, id))
    && (forall o :: o in s.seen || o in s.spent ==> o.txid < t)
    && (forall i :: i in s.issued ==> i.OfOutpoint? && i.o.txid < t && s.issued[i] < TWO64)
  }

  // A transaction whose inputs are all unspent reads them from the unspent outputs.
  lemma {:induction false} SpendsAreUnspent(s: State, tx: TokenTx)
    requires forall k :: 0 <= k < |tx.inputs| ==> tx.inputs[k] !in s.spent
    ensures SpendsOf(s.seen, tx) == SpendsOf(s.Utxo(), tx)
  {
  }

  lemma {:induction false} AddSurvives(seen: Tokens, gone: set<Outpoint>, t: nat, tx: TokenTx, spends: seq<Spend>,
                                       n: nat)
    requires n <= |tx.outs| && forall o :: o in gone ==> o.txid < t
    ensures AddOutputs(seen, t, tx, spends, n) - gone == AddOutputs(seen - gone, t, tx, spends, n)
  {
    if n > 0 {
      AddSurvives(seen, gone, t, tx, spends, n - 1);
    }
  }

  // The inputs of a transaction never hold more of a token than was deployed, so
  // their uint64 sum does not wrap.
  lemma {:induction false} InputsWithinSupply(s: State, t: nat, tx: TokenTx, id: TokenId)
    requires Inv(s, t) && WellFormed(t, tx)
    requires forall k :: 0 <= k < |tx.inputs| ==> tx.inputs[k] !in s.spent
    ensures InputTotal(SpendsOf(s.seen, tx), id) <= Supply(s.Utxo(), id) < TWO64
    ensures Balance64(SpendsOf(s.seen, tx), id, |tx.inputs|) == InputTotal(SpendsOf(s.seen, tx), id)
  {
    assert Within(s.Utxo(), s.issued, id);
    SpendsAreUnspent(s, tx);
    SpendingTakes(s.Utxo(), tx, id, |tx.inputs|);
    Balance64Exact(SpendsOf(s.seen, tx), id, |tx.inputs|);
  }

  // The unspent outputs after a transaction.
  lemma {:induction false} UtxoAfter(s: State, t: nat, tx: TokenTx)
    requires Inv(s, t) && WellFormed(t, tx)
    requires forall k :: 0 <= k < |tx.inputs| ==> tx.inputs[k] !in s.spent
    ensures Apply(s, t, tx).Utxo() ==
            AddOutputs(RemoveInputs(s.Utxo(), tx.inputs, |tx.inputs|), t, tx, SpendsOf(s.Utxo(), tx), |tx.outs|)
  {
    var gone := s.spent + (set o | o in tx.inputs);
    SpendsAreUnspent(s, tx);
    AddSurvives(s.seen, gone, t, tx, SpendsOf(s.seen, tx), |tx.outs|);
    RemovedAre(s.Utxo(), tx.inputs, |tx.inputs|);
    assert tx.inputs[..|tx.inputs|] == tx.inputs;
    assert s.seen - gone == RemoveInputs(s.Utxo(), tx.inputs, |tx.inputs|);
  }

  lemma {:induction false} OneTokenBounded(s: State, t: nat, tx: TokenTx, id: TokenId)
    requires Inv(s, t) && WellFormed(t, tx)
    requires forall k :: 0 <= k < |tx.inputs| ==> tx.inputs[k] !in s.spent
    ensures Within(Apply(s, t, tx).Utxo(), Apply(s, t, tx).issued, id)
  {
    var spends := SpendsOf(s.Utxo(), tx);
    SpendsAreUnspent(s, tx);
    UtxoAfter(s, t, tx);
    SpendingTakes(s.Utxo(), tx, id, |tx.inputs|);
    RemovedAre(s.Utxo(), tx.inputs, |tx.inputs|);
    InputsWithinSupply(s, t, tx, id);
    CreatingAdds(RemoveInputs(s.Utxo(), tx.inputs, |tx.inputs|), t, tx, spends, id, |tx.outs|);
    GainIsDeployedAndAsked(t, tx, spends, id, |tx.outs|);
    IssuesAre(s.issued, t, tx, id, |tx.outs|);
    PassingIsCovered(tx, spends, id);
    assert Within(s.Utxo(), s.issued, id);
  }

  lemma {:induction false} PassingIsCovered(tx: TokenTx, spends: seq<Spend>, id: TokenId)
    requires InputTotal(spends, id) < TWO64
    ensures Passes(tx, spends, id) ==> Asked(tx, id, |tx.outs|) <= InputTotal(spends, id)
  {
    if id in Ids(tx.outs, |tx.outs|) {
      TokenAccounts(tx.outs, spends, id);
    } else {
      NoneBefore(tx.outs, id, |tx.outs|);
      assert PrefixSum(Amts(tx.outs, []), 0) == 0;
    }
  }

  lemma {:induction false} ApplyKeepsInv(s: State, t: nat, tx: TokenTx)
    requires Inv(s, t) && WellFormed(t, tx)
    requires forall k :: 0 <= k < |tx.inputs| ==> tx.inputs[k] !in s.spent
    ensures Inv(Apply(s, t, tx), t + 1)
  {
    var s' := Apply(s, t, tx);
    forall id
      ensures Within(s'.Utxo(), s'.issued, id)
    {
      OneTokenBounded(s, t, tx, id);
    }
    var any := Other("");
    CreatingAdds(s.seen, t, tx, SpendsOf(s.seen, tx), any, |tx.outs|);
    IssuesAre(s.issued, t, tx, any, |tx.outs|);
    IssuesFit(s.issued, t, tx, |tx.outs|);
  }

  // A chain: every transaction well formed, no outpoint spent by two of them.
  ghost predicate ValidChain(txs: seq<TokenTx>) {
    && (forall t :: 0 <= t < |txs| ==> WellFormed(t, txs[t]))
    && (forall t, t', k | 0 <= t < t' < |txs| && 0 <= k < |txs[t'].inputs| :: txs[t'].inputs[k] !in txs[t].inputs)
  }

  lemma {:induction false} SpentBySome(txs: seq<TokenTx>, o: Outpoint)
    requires o in After(txs).spent
    ensures exists t :: 0 <= t < |txs| && o in txs[t].inputs
  {
    var n := |txs| - 1;
    if o !in txs[n].inputs {
      SpentBySome(txs[..n], o);
      var t :| 0 <= t < n && o in txs[..n][t].inputs;
      assert o in txs[t].inputs;
    }
  }

  lemma {:induction false} InitIsValid(txs: seq<TokenTx>)
    requires ValidChain(txs) && txs != []
    ensures ValidChain(txs[..|txs| - 1])
  {
    assert forall t :: 0 <= t < |txs| - 1 ==> txs[..|txs| - 1][t] == txs[t];
  }

  lemma {:induction false} InputsAreUnspent(txs: seq<TokenTx>, k: nat)
    requires ValidChain(txs) && txs != [] && k < |txs[|txs| - 1].inputs|
    ensures txs[|txs| - 1].inputs[k] !in After(txs[..|txs| - 1]).spent
  {
    var init, o := txs[..|txs| - 1], txs[|txs| - 1].inputs[k];
    if o in After(init).spent {
      SpentBySome(init, o);
      var t :| 0 <= t < |init| && o in init[t].inputs;
    }
  }

  lemma {:induction false} AfterKeepsInv(txs: seq<TokenTx>)
    requires ValidChain(txs)
    ensures Inv(After(txs), |txs|)
  {
    if txs != [] {
      var n := |txs| - 1;
      InitIsValid(txs);
      AfterKeepsInv(txs[..n]);
      assert WellFormed(n, txs[n]);
      forall k: nat | k < |txs[n].inputs|
        ensures txs[n].inputs[k] !in After(txs[..n]).spent
      {
        InputsAreUnspent(txs, k);
      }
      ApplyKeepsInv(After(txs[..n]), n, txs[n]);
    } else {
      assert forall id :: Within(map[], map[], id);
      assert After(txs).Utxo() == map[];
    }
  }

  // Main result: at no point of any chain do the valid unspent outputs of a token exceed the
  // amount its deployment minted, and what was never deployed is never valid.
  lemma {:induction false} SupplyNeverExceedsDeployment(txs: seq<TokenTx>, id: TokenId)
    requires ValidChain(txs)
    ensures Supply(After(txs).Utxo(), id) <= if id in After(txs).issued then After(txs).issued[id] else 0
    ensures id in After(txs).issued ==>
              && id.OfOutpoint? && id.o.txid < |txs| && id.o.vout < |txs[id.o.txid].outs|
              && txs[id.o.txid].outs[id.o.vout].Some?
              && After(txs).issued[id] == txs[id.o.txid].outs[id.o.vout].value.token.amt
  {
    AfterKeepsInv(txs);
    assert Within(After(txs).Utxo(), After(txs).issued, id);
    IssuedIsDeployed(txs, id);
  }

  lemma {:induction false} IssuedIsDeployed(txs: seq<TokenTx>, id: TokenId)
    ensures id in After(txs).issued ==>
              && id.OfOutpoint? && id.o.txid < |txs| && id.o.vout < |txs[id.o.txid].outs|
              && txs[id.o.txid].outs[id.o.vout].Some?
              && After(txs).issued[id] == txs[id.o.txid].outs[id.o.vout].value.token.amt
  {
    if txs != [] {
      var n := |txs| - 1;
      IssuedIsDeployed(txs[..n], id);
      NewIssue(After(txs[..n]).issued, n, txs[n], id, |txs[n].outs|);
    }
  }

  lemma {:induction false} NewIssue(issued: map<TokenId, nat>, t: nat, tx: TokenTx, id: TokenId, n: nat)
    requires n <= |tx.outs|
    ensures id in AddIssues(issued, t, tx, n) ==>
              || (id in issued && AddIssues(issued, t, tx, n)[id] == issued[id])
              || (id.OfOutpoint? && id.o.txid == t && id.o.vout < n && tx.outs[id.o.vout].Some?
                  && AddIssues(issued, t, tx, n)[id] == tx.outs[id.o.vout].value.token.amt)
  {
    if n > 0 {
      NewIssue(issued, t, tx, id, n - 1);
    }
  }

  /** What a missing or pending input does */

  lemma {:induction false} OutputsSeen(seen: Tokens, t: nat, tx: TokenTx, spends: seq<Spend>, n: nat, v: nat)
    requires v < n <= |tx.outs| && tx.outs[v].Some?
    ensures var after := AddOutputs(seen, t, tx, spends, n);
            Outpoint(t, v) in after && after[Outpoint(t, v)] == Judged(tx, spends, v)
  {
    if v < n - 1 {
      OutputsSeen(seen, t, tx, spends, n - 1, v);
    }
  }

  lemma {:induction false} OthersStay(seen: Tokens, t: nat, tx: TokenTx, spends: seq<Spend>, n: nat, o: Outpoint)
    requires n <= |tx.outs| && o in seen && o.txid != t
    ensures var after := AddOutputs(seen, t, tx, spends, n); o in after && after[o] == seen[o]
  {
    if n > 0 {
      OthersStay(seen, t, tx, spends, n - 1, o);
    }
  }

  // What has been judged once stays as it is.
  lemma {:induction false} JudgedFor(txs: seq<TokenTx>, t: nat, v: nat)
    requires t < |txs| && v < |txs[t].outs| && txs[t].outs[v].Some?
    ensures Outpoint(t, v) in After(txs).seen
    ensures After(txs).seen[Outpoint(t, v)] == Judged(txs[t], SpendsOf(After(txs[..t]).seen, txs[t]), v)
  {
    var n := |txs| - 1;
    var seen, tx := After(txs[..n]).seen, txs[n];
    if t < n {
      assert txs[..n][..t] == txs[..t];
      JudgedFor(txs[..n], t, v);
      OthersStay(seen, n, tx, SpendsOf(seen, tx), |tx.outs|, Outpoint(t, v));
    } else {
      OutputsSeen(seen, n, tx, SpendsOf(seen, tx), |tx.outs|, v);
    }
  }

  // A transfer or burn next to an unknown input, or to one of a token that is not settled, is not
  // valid: it is pending.  This holds for the output from then on.
  lemma {:induction false} OpenInputIsPending(txs: seq<TokenTx>, t: nat, v: nat, k: nat)
    requires t < |txs| && v < |txs[t].outs| && k < |txs[t].inputs|
    requires txs[t].outs[v].Some? && txs[t].outs[v].value.token.op != DeployMint
    requires var seen, o := After(txs[..t]).seen, txs[t].inputs[k];
             txs[t].missing || (o in seen && seen[o].status == Pending)
    ensures Outpoint(t, v) in After(txs).seen && After(txs).seen[Outpoint(t, v)].status == Pending
  {
    var spends := SpendsOf(After(txs[..t]).seen, txs[t]);
    JudgedFor(txs, t, v);
    assert !spends[k].known || (spends[k].token.Some? && spends[k].token.value.status == Pending);
    OpenIsPending(spends);
  }

  // Along a chain the sum of a transaction's valid inputs never wraps.
  lemma {:induction false} InputSumsNeverWrap(txs: seq<TokenTx>, id: TokenId)
    requires ValidChain(txs) && txs != []
    ensures var n := |txs| - 1;
            var spends := SpendsOf(After(txs[..n]).seen, txs[n]);
            Balance64(spends, id, |spends|) == InputTotal(spends, id) < TWO64
  {
    var n := |txs| - 1;
    InitIsValid(txs);
    AfterKeepsInv(txs[..n]);
    assert WellFormed(n, txs[n]);
    forall k: nat | k < |txs[n].inputs|
      ensures txs[n].inputs[k] !in After(txs[..n]).spent
    {
      InputsAreUnspent(txs, k);
    }
    InputsWithinSupply(After(txs[..n]), n, txs[n], id);
  }
}
