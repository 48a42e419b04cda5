// The Redis store (idx/redis-store/txos.go): a hash of outputs, a hash of spends, the inputs
// of each transaction, the tag values of each output, and sorted sets that index outputs by
// owner, tag and event.
module RedisStores {
  import opened Common
  import opened Keys
  import opened SortedSets
  import opened RedisSearch

  type Txid = nat

  datatype Row = Row(sats: Option<nat>, owners: seq<string>)

  // What a save writes: the row, the events found under each tag, and the printed tag values.
  datatype Txo = Txo(
    outpoint: Outpoint,
    row: Row,
    data: map<string, set<(string, string)>>,
    values: map<string, string>)

  datatype Store = Store(
    txos: map<Outpoint, Row>,
    spends: map<Outpoint, Txid>,
    inputs: map<Txid, set<Outpoint>>,
    values: map<Outpoint, map<string, string>>,
    zsets: ZSets)

  // The sorted sets that list an output.
  function KeysOf(txo: Txo): set<string> {
    DataKeys(txo.data) + OwnerKeys(txo.row.owners)
  }

  function ZAddAll(zsets: ZSets, keys: set<string>, x: Member, score: int): ZSets {
    map k | k in zsets.Keys + keys :: if k in keys then ZSetAt(zsets, k)[x := score] else zsets[k]
  }

  lemma {:induction false} ZAddNext(zsets: ZSets, keys: set<string>, k: string, x: Member, score: int)
    ensures var z := ZAddAll(zsets, keys, x, score);
            ZAddAll(zsets, keys + {k}, x, score) == z[k := ZSetAt(z, k)[x := score]]
  {
    assert ZSetAt(zsets, k)[x := score][x := score] == ZSetAt(zsets, k)[x := score];
  }

  function ZRemAll(zsets: ZSets, keys: set<string>, x: Member): ZSets {
    map k | k in zsets :: if k in keys then zsets[k] - {x} else zsets[k]
  }

  lemma {:induction false} ZRemNone(zsets: ZSets, x: Member)
    ensures ZRemAll(zsets, {}, x) == zsets
  {
  }

  lemma {:induction false} ZRemNext(zsets: ZSets, keys: set<string>, k: string, x: Member)
    ensures var z := ZRemAll(zsets, keys, x);
            ZRemAll(zsets, keys + {k}, x) == if k in z then z[k := z[k] - {x}] else z
  {
    if k in zsets {
      assert zsets[k] - {x} - {x} == zsets[k] - {x};
    }
  }

  /** What each operation does to the whole store */

  // Without values the hash of the output is left alone.
  function WithValues(table: map<Outpoint, map<string, string>>, o: Outpoint, values: map<string, string>):
      map<Outpoint, map<string, string>> {
    if values == map[] then table else table[o := (if o in table then table[o] else map[]) + values]
  }

  function Saved(s: Store, txo: Txo, score: int): Store {
    s.(txos := s.txos[txo.outpoint := txo.row],
       values := WithValues(s.values, txo.outpoint, txo.values),
       zsets := ZAddAll(s.zsets, KeysOf(txo), OutMember(txo.outpoint), score))
  }

  function SavedAll(s: Store, txos: seq<Txo>, score: int, n: nat): Store
    requires n <= |txos|
  {
    if n == 0 then s else Saved(SavedAll(s, txos, score, n - 1), txos[n - 1], score)
  }

  function Spent(s: Store, t: Txid, spends: seq<Spend>, score: int): Store {
    var os := Outpoints(spends);
    s.(spends := s.spends + map o | o in os :: t,
       inputs := s.inputs[t := (if t in s.inputs then s.inputs[t] else {}) + os],
       zsets := ZAddAll(s.zsets, SpendKeys(spends), TxMember(t), score))
  }

  function InputsOf(s: Store, t: Txid): set<Outpoint> {
    if t in s.inputs then s.inputs[t] else {}
  }

  function OutputsOf(s: Store, t: Txid): set<Outpoint> {
    set o | o in s.txos && o.txid == t
  }

  // Removing rows removes their owner entries only: they are loaded without their tags.
  function Dropped(s: Store, os: set<Outpoint>): Store
    requires os <= s.txos.Keys
  {
    s.(txos := s.txos - os, values := s.values - os,
       zsets := map k | k in s.zsets :: map x | x in s.zsets[k] && !Drops(s, os, k, x) :: s.zsets[k][x])
  }

  predicate Drops(s: Store, os: set<Outpoint>, k: string, x: Member) {
    x.OutMember? && x.o in os && x.o in s.txos && k in OwnerKeys(s.txos[x.o].owners)
  }

  lemma {:induction false} DroppedNext(s: Store, os: set<Outpoint>, o: Outpoint)
    requires os <= s.txos.Keys && o in s.txos && o !in os
    ensures Dropped(s, os + {o}) ==
            Dropped(s, os).(txos := s.txos - (os + {o}), values := s.values - (os + {o}),
                            zsets := ZRemAll(Dropped(s, os).zsets, OwnerKeys(s.txos[o].owners), OutMember(o)))
  {
    var next := Dropped(s, os + {o}).zsets;
    var zs := ZRemAll(Dropped(s, os).zsets, OwnerKeys(s.txos[o].owners), OutMember(o));
    forall k | k in s.zsets
      ensures next[k] == zs[k]
    {
      forall x
        ensures x in next[k] <==> x in zs[k]
      {
        assert Drops(s, os + {o}, k, x) <==> Drops(s, os, k, x) || Drops(s, {o}, k, x);
      }
    }
  }

  // The inputs recorded for t that t itself still holds are freed.
  function Released(s: Store, t: Txid): map<Outpoint, Txid> {
    map o | o in s.spends && !(o in InputsOf(s, t) && s.spends[o] == t) :: s.spends[o]
  }

  function RolledBack(s: Store, t: Txid): Store {
    Dropped(s.(spends := Released(s, t)), OutputsOf(s, t))
  }

  predicate IsUnspent(s: Store, o: Outpoint, refresh: bool, remote: map<Outpoint, Txid>) {
    o !in s.spends && !(refresh && o in remote)
  }

  // Those of the first n outpoints that are unspent, and the spends learnt on the way.
  function Unspent(s: Store, os: seq<Outpoint>, n: nat, refresh: bool, remote: map<Outpoint, Txid>): seq<Outpoint>
    requires n <= |os|
  {
    if n == 0 then []
    else Unspent(s, os, n - 1, refresh, remote) + (if IsUnspent(s, os[n - 1], refresh, remote) then [os[n - 1]] else [])
  }

  function Refreshed(s: Store, os: seq<Outpoint>, n: nat, refresh: bool, remote: map<Outpoint, Txid>):
      map<Outpoint, Txid>
    requires n <= |os|
  {
    if n == 0 then s.spends
    else
      var spends := Refreshed(s, os, n - 1, refresh, remote);
      if refresh && os[n - 1] in remote && os[n - 1] !in spends then spends[os[n - 1] := remote[os[n - 1]]] else spends
  }

  lemma {:induction false} RefreshedKeeps(s: Store, os: seq<Outpoint>, n: nat, refresh: bool,
                                          remote: map<Outpoint, Txid>)
    requires n <= |os|
    ensures var spends := Refreshed(s, os, n, refresh, remote);
            && (forall o :: o in s.spends ==> o in spends && spends[o] == s.spends[o])
            && (forall o :: o in spends && o !in s.spends ==> refresh && o in remote && spends[o] == remote[o])
  {
    if n > 0 {
      RefreshedKeeps(s, os, n - 1, refresh, remote);
    }
  }

  predicate OutputsOnly(records: seq<Log>) {
    forall i :: 0 <= i < |records| ==> records[i].member.OutMember?
  }

  function Outs(records: seq<Log>): (r: seq<Outpoint>)
    requires OutputsOnly(records)
    ensures |r| == |records|
  {
    seq(|records|, i requires 0 <= i < |records| => records[i].member.o)
  }

  function Sats(row: Row): nat {
    if row.sats.Some? then row.sats.value else 0
  }

  function Balance64(txos: map<Outpoint, Row>, os: seq<Outpoint>, n: nat): nat
    requires n <= |os| && forall i :: 0 <= i < n ==> os[i] in txos
  {
    if n == 0 then 0
    else if txos[os[n - 1]].sats.None? then Balance64(txos, os, n - 1)
    else Add64(Balance64(txos, os, n - 1), Sats(txos[os[n - 1]]))
  }

  // A search for outputs only answers outputs only.
  lemma {:induction false} OnlyOutputs(zsets: ZSets, cfg: SearchCfg, records: seq<Log>)
    requires cfg.outpointsOnly && IsAnswer(zsets, cfg, records)
    ensures OutputsOnly(records)
  {
    var lists :| Fetched(zsets, cfg, lists) && Answers(cfg, lists, records);
    if |cfg.keys| == 1 {
      WantedKept(cfg, lists[0]);
    } else if |cfg.keys| > 1 {
      TalliedKept(cfg, lists, |lists|);
    }
  }

  lemma {:induction false} WantedKept(cfg: SearchCfg, rs: seq<Log>)
    ensures forall i :: 0 <= i < |Wanted(cfg, rs)| ==> Keeps(cfg, Wanted(cfg, rs)[i].member)
  {
    if rs != [] {
      WantedKept(cfg, rs[..|rs| - 1]);
    }
  }

  lemma {:induction false} SightKept(cfg: SearchCfg, seen: map<Member, Record>, rs: seq<Log>, n: nat)
    requires n <= |rs| && (forall x :: x in seen ==> Keeps(cfg, x))
    requires forall i :: 0 <= i < |rs| ==> Keeps(cfg, rs[i].member)
    ensures forall x :: x in SightAll(seen, rs, n) ==> Keeps(cfg, x)
  {
    if n > 0 {
      SightKept(cfg, seen, rs, n - 1);
    }
  }

  lemma {:induction false} TalliedKept(cfg: SearchCfg, lists: seq<seq<Log>>, n: nat)
    requires n <= |lists|
    ensures forall x :: x in Tally(cfg, lists, n) ==> Keeps(cfg, x)
  {
    if n > 0 {
      TalliedKept(cfg, lists, n - 1);
      WantedKept(cfg, lists[n - 1]);
      SightKept(cfg, Tally(cfg, lists, n - 1), Wanted(cfg, lists[n - 1]), |Wanted(cfg, lists[n - 1])|);
    }
  }

  /** The store as the program updates it */

  class RedisStore {
    var txos: map<Outpoint, Row>
    var spends: map<Outpoint, Txid>
    var inputs: map<Txid, set<Outpoint>>
    var values: map<Outpoint, map<string, string>>
    var zsets: ZSets

    constructor ()
      ensures Contents() == Store(map[], map[], map[], map[], map[])
    {
      txos, spends, inputs, values, zsets := map[], map[], map[], map[], map[];
    }

    function Contents(): Store
      reads this
    {
      Store(txos, spends, inputs, values, zsets)
    }

    method SaveTxo(txo: Txo, score: int)
      modifies this
      ensures Contents() == Saved(old(Contents()), txo, score)
    {
      var events := CollectEvents(txo.data, txo.row.owners);
      txos := txos[txo.outpoint := txo.row];
      if |txo.values| > 0 {
        values := WithValues(values, txo.outpoint, txo.values);
      }
      ZAddEach(events, KeysOf(txo), OutMember(txo.outpoint), score);
    }

    method ZAddEach(events: seq<string>, ghost keys: set<string>, x: Member, score: int)
      requires Elems(events) == keys
      modifies this`zsets
      ensures zsets == ZAddAll(old(zsets), keys, x, score)
    {
      for i: nat := 0 to |events|
        invariant zsets == ZAddAll(old(zsets), Elems(events[..i]), x, score)
      {
        assert events[..i + 1] == events[..i] + [events[i]];
        ElemsSnoc(events[..i], events[i]);
        ZAddNext(old(zsets), Elems(events[..i]), events[i], x, score);
        zsets := zsets[events[i] := ZSetAt(zsets, events[i])[x := score]];
      }
      assert events[..|events|] == events;
    }

    method SaveTxos(rows: seq<Txo>, score: int)
      modifies this
      ensures Contents() == SavedAll(old(Contents()), rows, score, |rows|)
    {
      for i: nat := 0 to |rows|
        invariant Contents() == SavedAll(old(Contents()), rows, score, i)
      {
        SaveTxo(rows[i], score);
      }
    }

    // Without inputs the commands are malformed, and the program panics.
    method SaveSpends(t: Txid, rows: seq<Spend>, score: int) returns (ok: bool)
      modifies this
      ensures ok == (rows != [])
      ensures Contents() == if ok then Spent(old(Contents()), t, rows, score) else old(Contents())
    {
      if rows == [] {
        return false;
      }
      var os, keys := CollectSpends(rows);
      spends := spends + map o | o in os :: t;
      inputs := inputs[t := (if t in inputs then inputs[t] else {}) + os];
      ZAddEach(keys, SpendKeys(rows), TxMember(t), score);
      ok := true;
    }

    method SetNewSpend(o: Outpoint, t: Txid) returns (added: bool)
      modifies this`spends
      ensures added == (o !in old(spends))
      ensures spends == if added then old(spends)[o := t] else old(spends)
    {
      added := o !in spends;
      if added {
        spends := spends[o := t];
      }
    }

    method UnsetSpends(os: set<Outpoint>)
      modifies this`spends
      ensures spends == old(spends) - os
    {
      spends := spends - os;
    }

    method RollbackTxo(o: Outpoint, row: Row)
      modifies this`txos, this`values, this`zsets
      ensures txos == old(txos) - {o} && values == old(values) - {o}
      ensures zsets == ZRemAll(old(zsets), OwnerKeys(row.owners), OutMember(o))
    {
      ZRemNone(zsets, OutMember(o));
      for i: nat := 0 to |row.owners|
        invariant txos == old(txos) && values == old(values)
        invariant zsets == ZRemAll(old(zsets), OwnerKeys(row.owners[..i]), OutMember(o))
      {
        OwnerKeysNext(row.owners, i);
        var key := OwnerKey(row.owners[i]);
        if row.owners[i] == "" {
          assert OwnerKeys(row.owners[..i + 1]) == OwnerKeys(row.owners[..i]);
          continue;
        }
        ZRemNext(old(zsets), OwnerKeys(row.owners[..i]), key, OutMember(o));
        if key in zsets {
          zsets := zsets[key := zsets[key] - {OutMember(o)}];
        }
      }
      assert row.owners[..|row.owners|] == row.owners;
      txos := txos - {o};
      values := values - {o};
    }

    // With no inputs on record the read of their spends is malformed, and nothing is undone.
    method Rollback(t: Txid) returns (ok: bool)
      modifies this
      ensures ok == (InputsOf(old(Contents()), t) != {})
      ensures Contents() == if ok then RolledBack(old(Contents()), t) else old(Contents())
    {
      var outpoints := if t in inputs then inputs[t] else {};
      if outpoints == {} {
        return false;
      }
      ReleaseSpends(t, outpoints);
      DroppedNone(Contents());
      ghost var mid := Contents();
      var rest := set o | o in txos && o.txid == t;
      ghost var done: set<Outpoint> := {};
      while rest != {}
        invariant rest !! done && rest + done == OutputsOf(mid, t)
        invariant Contents() == Dropped(mid, done)
      {
        var o :| o in rest;
        DroppedNext(mid, done, o);
        RollbackTxo(o, txos[o]);
        rest, done := rest - {o}, done + {o};
      }
      ok := true;
    }

    method ReleaseSpends(t: Txid, outpoints: set<Outpoint>)
      requires outpoints == InputsOf(Contents(), t)
      modifies this`spends
      ensures spends == Released(old(Contents()), t)
    {
      var deletes := set o | o in outpoints && o in spends && spends[o] == t;
      assert spends - deletes == Released(Contents(), t);
      if deletes != {} {
        UnsetSpends(deletes);
      }
    }

    // filterSpent: outpoints with no spend on record, and none known elsewhere if asked.
    method FilterSpent(outpoints: seq<Outpoint>, refresh: bool, remote: map<Outpoint, Txid>)
        returns (unspent: seq<Outpoint>)
      modifies this`spends
      ensures unspent == Unspent(old(Contents()), outpoints, |outpoints|, refresh, remote)
      ensures spends == Refreshed(old(Contents()), outpoints, |outpoints|, refresh, remote)
    {
      unspent := [];
      var known := spends;
      for i: nat := 0 to |outpoints|
        invariant unspent == Unspent(old(Contents()), outpoints, i, refresh, remote)
        invariant spends == Refreshed(old(Contents()), outpoints, i, refresh, remote)
      {
        RefreshedKeeps(old(Contents()), outpoints, i, refresh, remote);
        if outpoints[i] !in known {
          if refresh && outpoints[i] in remote {
            var _ := SetNewSpend(outpoints[i], remote[outpoints[i]]);
            continue;
          }
          unspent := unspent + [outpoints[i]];
        }
      }
    }

    method SearchMembers(cfg: SearchCfg) returns (members: seq<Member>, ghost records: seq<Log>)
      ensures IsAnswer(zsets, cfg, records)
      ensures |members| == |records| && forall i :: 0 <= i < |members| ==> members[i] == records[i].member
    {
      var items := Search(zsets, cfg);
      records := items;
      members := seq(|items|, i requires 0 <= i < |items| => items[i].member);
    }

    // A missing row would be dereferenced: the program then panics (ok is false).
    method SearchBalance(cfg: SearchCfg, refresh: bool, remote: map<Outpoint, Txid>)
        returns (ok: bool, balance: nat, ghost records: seq<Log>)
      modifies this`spends
      ensures IsAnswer(zsets, cfg.(outpointsOnly := true), records) && OutputsOnly(records)
      ensures var unspent := Unspent(old(Contents()), Outs(records), |records|, refresh, remote);
              && ok == (forall i :: 0 <= i < |unspent| ==> unspent[i] in txos)
              && (ok ==> balance == Balance64(txos, unspent, |unspent|))
              && spends == Refreshed(old(Contents()), Outs(records), |records|, refresh, remote)
    {
      var members;
      members, records := SearchMembers(cfg.(outpointsOnly := true));
      OnlyOutputs(zsets, cfg.(outpointsOnly := true), records);
      var outpoints := seq(|members|, i requires 0 <= i < |members| => members[i].o);
      assert outpoints == Outs(records);
      outpoints := FilterSpent(outpoints, refresh, remote);
      ok, balance := SumSats(outpoints);
    }

    method SumSats(outpoints: seq<Outpoint>) returns (ok: bool, balance: nat)
      ensures ok == forall i :: 0 <= i < |outpoints| ==> outpoints[i] in txos
      ensures ok ==> balance == Balance64(txos, outpoints, |outpoints|)
    {
      balance := 0;
      for i: nat := 0 to |outpoints|
        invariant forall j :: 0 <= j < i ==> outpoints[j] in txos
        invariant balance == Balance64(txos, outpoints, i)
      {
        if outpoints[i] !in txos {
          return false, 0;
        }
        if txos[outpoints[i]].sats.Some? {
          balance := Add64(balance, txos[outpoints[i]].sats.value);
        }
      }
      ok := true;
    }
  }

  lemma {:induction false} UnspentOf(s: Store, os: seq<Outpoint>, n: nat, refresh: bool, remote: map<Outpoint, Txid>)
    requires n <= |os|
    ensures forall o :: o in Unspent(s, os, n, refresh, remote) <==> o in os[..n] && IsUnspent(s, o, refresh, remote)
  {
    if n > 0 {
      UnspentOf(s, os, n - 1, refresh, remote);
      assert os[..n] == os[..n - 1] + [os[n - 1]];
    }
  }

  lemma {:induction false} DroppedNone(s: Store)
    ensures Dropped(s, {}) == s
  {
    assert s.values - {} == s.values;
    assert forall k :: k in s.zsets ==> Dropped(s, {}).zsets[k] == s.zsets[k];
  }
}
