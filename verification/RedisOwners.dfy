// The owner index of the Redis store agrees with its rows over every run, so a balance read
// through the index is the sum over the rows.
module RedisOwners {
  import opened Common
  import opened Keys
  import opened SortedSets
  import opened RedisSearch
  import opened RedisSearchExact
  import opened RedisStores

  // An output is listed under an owner exactly when its row names that owner.
  ghost predicate Indexed(s: Store) {
    forall o, owner :: OutMember(o) in ZSetAt(s.zsets, OwnerKey(owner)) <==> Owns(s, o, owner)
  }

  predicate Owns(s: Store, o: Outpoint, owner: string) {
    o in s.txos && owner != "" && owner in s.txos[o].owners
  }

  predicate OwnedByAny(s: Store, o: Outpoint, owners: seq<string>) {
    exists i :: 0 <= i < |owners| && Owns(s, o, owners[i])
  }

  datatype Op =
    | Save(txos: seq<Txo>, score: int)
    | Spend(t: Txid, rows: seq<Keys.Spend>, score: int)
    | Reserve(o: Outpoint, t: Txid)
    | Unreserve(os: set<Outpoint>)
    | Undo(t: Txid)
    | Refresh(asked: seq<Outpoint>, remote: map<Outpoint, Txid>)

  function Apply(s: Store, op: Op): Store {
    match op
    case Save(txos, score) => SavedAll(s, txos, score, |txos|)
    case Spend(t, rows, score) => if rows == [] then s else Spent(s, t, rows, score)
    case Reserve(o, t) => if o in s.spends then s else s.(spends := s.spends[o := t])
    case Unreserve(os) => s.(spends := s.spends - os)
    case Undo(t) => if InputsOf(s, t) == {} then s else RolledBack(s, t)
    case Refresh(asked, remote) => s.(spends := Refreshed(s, asked, |asked|, true, remote))
  }

  function Run(ops: seq<Op>): Store {
    if ops == [] then Store(map[], map[], map[], map[], map[]) else Apply(Run(ops[..|ops| - 1]), ops[|ops| - 1])
  }

  lemma {:induction false} OwnerKeyListed(owners: seq<string>, owner: string)
    ensures OwnerKey(owner) in OwnerKeys(owners) <==> owner != "" && owner in owners
  {
    forall i | 0 <= i < |owners|
      ensures OwnerKey(owners[i]) == OwnerKey(owner) <==> owners[i] == owner
    {
      KeysApart(owners[i], owner, "", ("", ""));
    }
    if owner != "" && owner in owners {
      var i :| 0 <= i < |owners| && owners[i] == owner;
      assert OwnerKey(owners[i]) in OwnerKeys(owners);
    }
  }

  lemma {:induction false} TxoListed(txo: Txo, owner: string)
    ensures OwnerKey(owner) in KeysOf(txo) <==> owner != "" && owner in txo.row.owners
  {
    OwnerKeyListed(txo.row.owners, owner);
    forall tag | tag in txo.data
      ensures OwnerKey(owner) != TagKey(tag)
      ensures forall event :: event in txo.data[tag] ==> OwnerKey(owner) != EventKey(tag, event)
    {
      KeysApart(owner, owner, tag, ("", ""));
      forall event | event in txo.data[tag]
        ensures OwnerKey(owner) != EventKey(tag, event)
      {
        KeysApart(owner, owner, tag, event);
      }
    }
  }

  lemma {:induction false} SavedLists(s: Store, txo: Txo, score: int, o: Outpoint, owner: string)
    requires Indexed(s)
    ensures OutMember(o) in ZSetAt(Saved(s, txo, score).zsets, OwnerKey(owner)) <==>
              Owns(s, o, owner) || (o == txo.outpoint && owner != "" && owner in txo.row.owners)
  {
    TxoListed(txo, owner);
    assert OutMember(o) in ZSetAt(s.zsets, OwnerKey(owner)) <==> Owns(s, o, owner);
  }

  // Saving an output keeps the index right exactly when no owner of the earlier row is gone:
  // old entries are never taken out.
  lemma {:induction false} SaveKeepsIndexIff(s: Store, txo: Txo, score: int)
    requires Indexed(s)
    ensures Indexed(Saved(s, txo, score)) <==>
              forall owner :: Owns(s, txo.outpoint, owner) ==> owner in txo.row.owners
  {
    var s' := Saved(s, txo, score);
    if forall owner :: Owns(s, txo.outpoint, owner) ==> owner in txo.row.owners {
      forall o, owner
        ensures OutMember(o) in ZSetAt(s'.zsets, OwnerKey(owner)) <==> Owns(s', o, owner)
      {
        SavedLists(s, txo, score, o, owner);
      }
    } else {
      var owner :| Owns(s, txo.outpoint, owner) && owner !in txo.row.owners;
      SavedLists(s, txo, score, txo.outpoint, owner);
      assert !Owns(s', txo.outpoint, owner);
    }
  }

  lemma {:induction false} SpendKeepsIndex(s: Store, t: Txid, rows: seq<Keys.Spend>, score: int)
    requires Indexed(s)
    ensures Indexed(Spent(s, t, rows, score))
  {
    var s' := Spent(s, t, rows, score);
    forall o, owner
      ensures OutMember(o) in ZSetAt(s'.zsets, OwnerKey(owner)) <==> Owns(s', o, owner)
    {
      assert OutMember(o) in ZSetAt(s.zsets, OwnerKey(owner)) <==> Owns(s, o, owner);
    }
  }

  lemma {:induction false} DropKeepsIndex(s: Store, os: set<Outpoint>)
    requires Indexed(s) && os <= s.txos.Keys
    ensures Indexed(Dropped(s, os))
  {
    var s' := Dropped(s, os);
    forall o, owner
      ensures OutMember(o) in ZSetAt(s'.zsets, OwnerKey(owner)) <==> Owns(s', o, owner)
    {
      assert OutMember(o) in ZSetAt(s.zsets, OwnerKey(owner)) <==> Owns(s, o, owner);
      if o in os {
        OwnerKeyListed(s.txos[o].owners, owner);
      }
    }
  }

  /** Whole runs */

  // Every save of an output gives it the owners it has by nature (its script decides them).
  ghost predicate OwnersFixed(op: Op, own: Outpoint -> set<string>) {
    op.Save? ==> forall i :: 0 <= i < |op.txos| ==> Fits(op.txos[i].outpoint, op.txos[i].row, own)
  }

  ghost predicate Fits(o: Outpoint, row: Row, own: Outpoint -> set<string>) {
    forall owner :: owner != "" ==> (owner in row.owners <==> owner in own(o))
  }

  ghost predicate RowsFit(s: Store, own: Outpoint -> set<string>) {
    forall o :: o in s.txos ==> Fits(o, s.txos[o], own)
  }

  lemma {:induction false} SaveAllKeepsIndex(s: Store, txos: seq<Txo>, score: int, n: nat, own: Outpoint -> set<string>)
    requires Indexed(s) && RowsFit(s, own) && n <= |txos|
    requires forall i :: 0 <= i < |txos| ==> Fits(txos[i].outpoint, txos[i].row, own)
    ensures Indexed(SavedAll(s, txos, score, n)) && RowsFit(SavedAll(s, txos, score, n), own)
  {
    if n > 0 {
      SaveAllKeepsIndex(s, txos, score, n - 1, own);
      var mid, txo := SavedAll(s, txos, score, n - 1), txos[n - 1];
      assert Fits(txo.outpoint, txo.row, own);
      assert txo.outpoint in mid.txos ==> Fits(txo.outpoint, mid.txos[txo.outpoint], own);
      SaveKeepsIndexIff(mid, txo, score);
    }
  }

  // Saves, spends, reservations and rollbacks in any order keep the owner index right.
  lemma {:induction false} RunsKeepIndex(ops: seq<Op>, own: Outpoint -> set<string>)
    requires forall i :: 0 <= i < |ops| ==> OwnersFixed(ops[i], own)
    ensures Indexed(Run(ops)) && RowsFit(Run(ops), own)
  {
    if ops != [] {
      var n := |ops| - 1;
      RunsKeepIndex(ops[..n], own);
      var s, op := Run(ops[..n]), ops[n];
      assert OwnersFixed(op, own);
      match op {
        case Save(txos, score) => SaveAllKeepsIndex(s, txos, score, |txos|, own);
        case Spend(t, rows, score) => SpendKeepsIndex(s, t, rows, score);
        case Undo(t) =>
          var s' := s.(spends := Released(s, t));
          SameIndex(s, s');
          DropKeepsIndex(s', OutputsOf(s, t));
        case _ => SameIndex(s, Apply(s, op));
      }
    }
  }

  lemma {:induction false} SameIndex(s: Store, s': Store)
    requires Indexed(s) && s'.txos == s.txos && s'.zsets == s.zsets
    ensures Indexed(s')
  {
    assert forall o, owner :: Owns(s', o, owner) <==> Owns(s, o, owner);
  }

  /** Undoing an ingest */

  lemma {:induction false} SavedAllKeeps(s: Store, txos: seq<Txo>, score: int, n: nat)
    requires n <= |txos|
    ensures SavedAll(s, txos, score, n).spends == s.spends && SavedAll(s, txos, score, n).inputs == s.inputs
  {
    if n > 0 {
      SavedAllKeeps(s, txos, score, n - 1);
    }
  }

  // Saving outputs of t touches only rows of t.
  lemma {:induction false} SavedAllRows(s: Store, t: Txid, txos: seq<Txo>, score: int, n: nat)
    requires n <= |txos| && forall i :: 0 <= i < |txos| ==> txos[i].outpoint.txid == t
    ensures var rows := SavedAll(s, txos, score, n).txos;
            forall o: Outpoint :: o.txid != t ==> (o in rows <==> o in s.txos) && (o in rows ==> rows[o] == s.txos[o])
  {
    if n > 0 {
      SavedAllRows(s, t, txos, score, n - 1);
    }
  }

  lemma {:induction false} SavedValues(s: Store, txo: Txo, score: int, o: Outpoint)
    ensures var saved := Saved(s, txo, score);
            && (o != txo.outpoint ==>
                  (o in saved.values <==> o in s.values) && (o in s.values ==> saved.values[o] == s.values[o]))
            && (o in saved.values ==> o in s.values || o in saved.txos)
            && (o in s.txos ==> o in saved.txos)
  {
  }

  // Saving outputs of t touches only values of t, and leaves none without a row.
  lemma {:induction false} SavedAllValues(s: Store, t: Txid, txos: seq<Txo>, score: int, n: nat, o: Outpoint)
    requires n <= |txos| && forall i :: 0 <= i < |txos| ==> txos[i].outpoint.txid == t
    ensures var saved := SavedAll(s, txos, score, n);
            && (o.txid != t ==>
                  (o in saved.values <==> o in s.values) && (o in s.values ==> saved.values[o] == s.values[o]))
            && (o in saved.values ==> o in s.values || o in saved.txos)
  {
    if n > 0 {
      SavedAllValues(s, t, txos, score, n - 1, o);
      SavedValues(SavedAll(s, txos, score, n - 1), txos[n - 1], score, o);
    }
  }

  function Ingested(s: Store, t: Txid, txos: seq<Txo>, rows: seq<Keys.Spend>, score: int): Store {
    Spent(SavedAll(s, txos, score, |txos|), t, rows, score)
  }

  // Nothing in the store is of t.
  predicate NoTrace(s: Store, t: Txid) {
    && t !in s.inputs
    && (forall o :: o in s.spends ==> s.spends[o] != t)
    && (forall o :: o in s.txos ==> o.txid != t)
    && (forall o :: o in s.values ==> o.txid != t)
  }

  lemma {:induction false} RollbackRestoresRows(s: Store, t: Txid, txos: seq<Txo>, rows: seq<Keys.Spend>, score: int)
    requires NoTrace(s, t) && forall i :: 0 <= i < |txos| ==> txos[i].outpoint.txid == t
    ensures RolledBack(Ingested(s, t, txos, rows, score), t).txos == s.txos
  {
    SavedAllRows(s, t, txos, score, |txos|);
    var after := RolledBack(Ingested(s, t, txos, rows, score), t);
    forall o
      ensures o in after.txos <==> o in s.txos
    {
    }
  }

  lemma {:induction false} RollbackRestoresValues(s: Store, t: Txid, txos: seq<Txo>, rows: seq<Keys.Spend>, score: int)
    requires NoTrace(s, t) && forall i :: 0 <= i < |txos| ==> txos[i].outpoint.txid == t
    ensures RolledBack(Ingested(s, t, txos, rows, score), t).values == s.values
  {
    var saved := SavedAll(s, txos, score, |txos|);
    var after := saved.values - OutputsOf(saved, t);
    forall o
      ensures o in after <==> o in s.values
      ensures o in after ==> after[o] == s.values[o]
    {
      SavedAllValues(s, t, txos, score, |txos|, o);
    }
    assert RolledBack(Ingested(s, t, txos, rows, score), t).values == after;
  }

  lemma {:induction false} RollbackFreesInputs(s: Store, t: Txid, txos: seq<Txo>, rows: seq<Keys.Spend>, score: int)
    requires NoTrace(s, t)
    ensures InputsOf(Ingested(s, t, txos, rows, score), t) == Outpoints(rows)
    ensures RolledBack(Ingested(s, t, txos, rows, score), t).spends == s.spends - Outpoints(rows)
  {
    SavedAllKeeps(s, txos, score, |txos|);
    SpentThenReleased(SavedAll(s, txos, score, |txos|), t, rows, score);
  }

  lemma {:induction false} SpentThenReleased(s: Store, t: Txid, rows: seq<Keys.Spend>, score: int)
    requires t !in s.inputs && forall o :: o in s.spends ==> s.spends[o] != t
    ensures InputsOf(Spent(s, t, rows, score), t) == Outpoints(rows)
    ensures Released(Spent(s, t, rows, score), t) == s.spends - Outpoints(rows)
  {
  }

  lemma {:induction false} ActivityStays(s: Store, t: Txid, key: string)
    requires TxMember(t) in ZSetAt(s.zsets, key)
    ensures TxMember(t) in ZSetAt(RolledBack(s, t).zsets, key)
  {
  }

  // Rolling back a transaction that had left no trace before its ingest goes through and brings
  // back the rows and values, and the spends if and only if its inputs were unspent.  Its entries in the
  // activity of the owners it spent from stay.
  lemma {:induction false} RollbackRestores(s: Store, t: Txid, txos: seq<Txo>, rows: seq<Keys.Spend>, score: int,
                                            owner: string)
    requires NoTrace(s, t) && rows != [] && forall i :: 0 <= i < |txos| ==> txos[i].outpoint.txid == t
    ensures var ingested := Ingested(s, t, txos, rows, score);
            var after := RolledBack(ingested, t);
            && InputsOf(ingested, t) != {} && after.txos == s.txos && after.values == s.values
            && (after.spends == s.spends <==> forall o :: o in Outpoints(rows) ==> o !in s.spends)
            && (OwnerKey(owner) in SpendKeys(rows) ==> TxMember(t) in ZSetAt(after.zsets, OwnerKey(owner)))
  {
    RollbackRestoresRows(s, t, txos, rows, score);
    RollbackRestoresValues(s, t, txos, rows, score);
    RollbackFreesInputs(s, t, txos, rows, score);
    assert rows[0].outpoint in Outpoints(rows);
    var ingested := Ingested(s, t, txos, rows, score);
    if OwnerKey(owner) in SpendKeys(rows) {
      assert TxMember(t) in ZSetAt(ingested.zsets, OwnerKey(owner));
      ActivityStays(ingested, t, OwnerKey(owner));
    }
  }

  /** Two inputs on which the index or a spend goes wrong */

  // The output is saved under "a", then under "b": it stays listed under "a".
  lemma {:induction false} StaleOwnerStays()
    ensures var o := Outpoint(1, 0);
            var first := Saved(Run([]), Txo(o, Row(Some(1), ["a"]), map[], map[]), 5);
            var second := Saved(first, Txo(o, Row(Some(1), ["b"]), map[], map[]), 5);
            && Indexed(first) && !Indexed(second)
            && OutMember(o) in ZSetAt(second.zsets, OwnerKey("a")) && !Owns(second, o, "a")
  {
    var o := Outpoint(1, 0);
    var txo, txo' := Txo(o, Row(Some(1), ["a"]), map[], map[]), Txo(o, Row(Some(1), ["b"]), map[], map[]);
    assert Indexed(Run([]));
    SaveKeepsIndexIff(Run([]), txo, 5);
    var first := Saved(Run([]), txo, 5);
    assert Owns(first, o, "a");
    SaveKeepsIndexIff(first, txo', 5);
    SavedLists(first, txo', 5, o, "a");
  }

  // Transaction 7 has spent the input; ingesting 8 and rolling it back leaves it unspent.
  lemma {:induction false} OverwrittenSpendIsLost()
    ensures var o := Outpoint(1, 0);
            var s := Run([]).(spends := map[o := 7]);
            NoTrace(s, 8) && o !in RolledBack(Ingested(s, 8, [], [Keys.Spend(o, [])], 5), 8).spends
  {
    var o := Outpoint(1, 0);
    var rows := [Keys.Spend(o, [])];
    RollbackFreesInputs(Run([]).(spends := map[o := 7]), 8, [], rows, 5);
    assert rows[0].outpoint in Outpoints(rows);
  }

  /** Balances */

  // A row without satoshis counts nothing.
  function Worth(row: Row): nat {
    match row.sats
    case Some(sats) => sats
    case None => 0
  }

  ghost function Total(txos: map<Outpoint, Row>, os: set<Outpoint>): nat
    requires os <= txos.Keys
    decreases |os|
  {
    if os == {} then 0
    else
      var o :| o in os;
      Worth(txos[o]) + Total(txos, os - {o})
  }

  lemma {:induction false} TotalSplit(txos: map<Outpoint, Row>, os: set<Outpoint>, o: Outpoint)
    requires os <= txos.Keys && o in os
    ensures Total(txos, os) == Worth(txos[o]) + Total(txos, os - {o})
    decreases |os|
  {
    var p :| p in os && Total(txos, os) == Worth(txos[p]) + Total(txos, os - {p});
    if p != o {
      TotalSplit(txos, os - {p}, o);
      TotalSplit(txos, os - {o}, p);
      assert os - {p} - {o} == os - {o} - {p};
    }
  }

  lemma {:induction false} AddAfterWrap(total: nat, sats: nat)
    ensures Add64(total % TWO64, sats) == (total + sats) % TWO64
  {
    assert total == total / TWO64 * TWO64 + total % TWO64;
  }

  function FirstOf(os: seq<Outpoint>, n: nat): set<Outpoint>
    requires n <= |os|
  {
    set i | 0 <= i < n :: os[i]
  }

  lemma {:induction false} BalanceIsTotal(txos: map<Outpoint, Row>, os: seq<Outpoint>, n: nat)
    requires n <= |os| && forall i :: 0 <= i < |os| ==> os[i] in txos
    requires Distinct(os)
    ensures Balance64(txos, os, n) == Total(txos, FirstOf(os, n)) % TWO64
  {
    if n > 0 {
      BalanceIsTotal(txos, os, n - 1);
      assert os[n - 1] in FirstOf(os, n);
      assert FirstOf(os, n) - {os[n - 1]} == FirstOf(os, n - 1);
      TotalSplit(txos, FirstOf(os, n), os[n - 1]);
      AddAfterWrap(Total(txos, FirstOf(os, n - 1)), Sats(txos[os[n - 1]]));
    } else {
      assert FirstOf(os, 0) == {};
    }
  }

  // The direct definition: rows of any of the owners, with no spend on record or known elsewhere.
  function Holdings(s: Store, owners: seq<string>, refresh: bool, remote: map<Outpoint, Txid>): set<Outpoint> {
    set o | o in s.txos && o !in s.spends && !(refresh && o in remote) && OwnedByAny(s, o, owners)
  }

  function OwnerCfg(owners: seq<string>, reverse: bool): SearchCfg {
    var keys := seq(|owners|, i requires 0 <= i < |owners| => OwnerKey(owners[i]));
    SearchCfg(keys, None, None, 0, false, reverse, true, false)
  }

  lemma {:induction false} FoundIsOwned(s: Store, owners: seq<string>, reverse: bool, o: Outpoint)
    requires Indexed(s)
    ensures var cfg := OwnerCfg(owners, reverse);
            OutMember(o) in Kept(cfg, Union(s.zsets, cfg, |cfg.keys|)) <==> OwnedByAny(s, o, owners)
  {
    var cfg := OwnerCfg(owners, reverse);
    UnionIs(s.zsets, cfg, OutMember(o));
    forall i | 0 <= i < |owners|
      ensures OutMember(o) in Asked(s.zsets, cfg, i) <==> Owns(s, o, owners[i])
    {
      assert OutMember(o) in ZSetAt(s.zsets, OwnerKey(owners[i])) <==> Owns(s, o, owners[i]);
    }
    var k := FirstKey(s.zsets, cfg, |owners|, OutMember(o));
    assert k < |owners| ==> Owns(s, o, owners[k]);
  }

  lemma {:induction false} UnspentDistinct(s: Store, os: seq<Outpoint>, n: nat, refresh: bool,
                                           remote: map<Outpoint, Txid>)
    requires n <= |os| && Distinct(os)
    ensures Distinct(Unspent(s, os, n, refresh, remote))
  {
    if n > 0 {
      UnspentDistinct(s, os, n - 1, refresh, remote);
      UnspentOf(s, os, n - 1, refresh, remote);
      assert os[n - 1] !in os[..n - 1];
      DistinctSnoc(Unspent(s, os, n - 1, refresh, remote), os[n - 1]);
      assert Unspent(s, os, n - 1, refresh, remote) + [] == Unspent(s, os, n - 1, refresh, remote);
    }
  }

  lemma {:induction false} DistinctSnoc(os: seq<Outpoint>, o: Outpoint)
    requires Distinct(os)
    ensures o !in os ==> Distinct(os + [o])
  {
  }

  lemma {:induction false} OutsAre(records: seq<Log>)
    requires OutputsOnly(records) && DistinctMembers(records)
    ensures Distinct(Outs(records))
    ensures forall o :: o in Outs(records) <==> OutMember(o) in Members(records)
  {
    forall i | 0 <= i < |records|
      ensures records[i].member == OutMember(Outs(records)[i])
    {
    }
    forall o
      ensures o in Outs(records) <==> OutMember(o) in Members(records)
    {
      if OutMember(o) in Members(records) {
        var i :| 0 <= i < |records| && records[i].member == OutMember(o);
        assert Outs(records)[i] == o;
      }
    }
  }

  // The outputs an owner search answers, each once.
  lemma {:induction false} AnsweredOutputs(s: Store, owners: seq<string>, reverse: bool, records: seq<Log>)
    requires Indexed(s) && OutputsOnly(records)
    requires IsAnswer(s.zsets, OwnerCfg(owners, reverse), records)
    ensures Distinct(Outs(records))
    ensures forall o :: o in Outs(records) <==> OwnedByAny(s, o, owners)
  {
    AnswerCovers(s.zsets, OwnerCfg(owners, reverse), records);
    OutsAre(records);
    forall o
      ensures o in Outs(records) <==> OwnedByAny(s, o, owners)
    {
      FoundIsOwned(s, owners, reverse, o);
    }
  }

  lemma {:induction false} AnswerCovers(zsets: ZSets, cfg: SearchCfg, records: seq<Log>)
    requires IsAnswer(zsets, cfg, records) && !cfg.both && cfg.limit == 0
    ensures DistinctMembers(records) && Members(records) == Kept(cfg, Union(zsets, cfg, |cfg.keys|)).Keys
  {
    OrSearchIsExact(zsets, cfg, records);
    ListingCovers(Kept(cfg, Union(zsets, cfg, |cfg.keys|)), records);
  }

  // The balance of any list of owners (repeated, empty or unknown ones included) is the sum
  // over the unspent rows of any of them, each counted once; no listed row is missing.
  lemma {:induction false} BalanceIsHoldings(s: Store, owners: seq<string>, reverse: bool, refresh: bool,
                                             remote: map<Outpoint, Txid>, records: seq<Log>)
    requires Indexed(s) && OutputsOnly(records)
    requires IsAnswer(s.zsets, OwnerCfg(owners, reverse), records)
    ensures var unspent := Unspent(s, Outs(records), |records|, refresh, remote);
            && (forall i :: 0 <= i < |unspent| ==> unspent[i] in s.txos)
            && Balance64(s.txos, unspent, |unspent|) == Total(s.txos, Holdings(s, owners, refresh, remote)) % TWO64
  {
    AnsweredOutputs(s, owners, reverse, records);
    UnspentOf(s, Outs(records), |records|, refresh, remote);
    UnspentDistinct(s, Outs(records), |records|, refresh, remote);
    var unspent := Unspent(s, Outs(records), |records|, refresh, remote);
    assert Outs(records)[..|records|] == Outs(records);
    forall i | 0 <= i < |unspent|
      ensures unspent[i] in s.txos
    {
      assert unspent[i] in unspent;
    }
    BalanceIsTotal(s.txos, unspent, |unspent|);
    var listed := FirstOf(unspent, |unspent|);
    forall o
      ensures o in listed <==> o in Holdings(s, owners, refresh, remote)
    {
      assert o in listed <==> o in unspent;
    }
    assert listed == Holdings(s, owners, refresh, remote);
  }
}
