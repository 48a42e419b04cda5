// What each operation of the Redis store does to every entry, said without the operation, and what
// searches then answer over whole runs.
module RedisEffects {
  import opened Common
  import opened Keys
  import opened SortedSets
  import opened RedisSearch
  import opened RedisSearchExact
  import opened RedisStores
  import opened RedisOwners

  // The entry of x under a key, before and after, is the same.
  predicate SameEntry(s: Store, s': Store, key: string, x: Member) {
    var z, z' := ZSetAt(s.zsets, key), ZSetAt(s'.zsets, key);
    (x in z <==> x in z') && (x in z ==> z[x] == z'[x])
  }

  predicate HasEntry(s: Store, key: string, x: Member, score: int) {
    x in ZSetAt(s.zsets, key) && ZSetAt(s.zsets, key)[x] == score
  }

  /** Saving an output */

  // The key is that of a tag of the output, of an event of it, or of an owner.
  predicate Names(txo: Txo, key: string) {
    NamesData(txo.data, key) || NamesOwner(txo.row.owners, key)
  }

  // The output is listed under all its tags, events and owners with exactly this score; all other
  // entries, rows and values are as before.
  lemma {:induction false} SaveLists(s: Store, txo: Txo, score: int, key: string, x: Member)
    ensures var after := Saved(s, txo, score);
            if x == OutMember(txo.outpoint) && Names(txo, key) then HasEntry(after, key, x, score)
            else SameEntry(s, after, key, x)
  {
    NamedKeys(txo.data, txo.row.owners, key);
  }

  // The row is the one saved, and its values are laid over those already there.
  lemma {:induction false} SaveWrites(s: Store, txo: Txo, score: int, o: Outpoint, tag: string)
    ensures var after := Saved(s, txo, score);
            && after.spends == s.spends && after.inputs == s.inputs
            && (o == txo.outpoint ==> o in after.txos && after.txos[o] == txo.row)
            && (o != txo.outpoint ==>
                  (o in after.txos <==> o in s.txos) && (o in s.txos ==> after.txos[o] == s.txos[o]))
            && ValueOf(after, o, tag) == (if o == txo.outpoint && tag in txo.values then Some(txo.values[tag])
                                          else ValueOf(s, o, tag))
  {
  }

  function ValueOf(s: Store, o: Outpoint, tag: string): Option<string> {
    if o in s.values && tag in s.values[o] then Some(s.values[o][tag]) else None
  }

  /** Saving spends */

  // The transaction is listed under every owner it spends from with exactly this score.
  lemma {:induction false} SpendLists(s: Store, t: Txid, rows: seq<Keys.Spend>, score: int, key: string, x: Member)
    ensures var after := Spent(s, t, rows, score);
            if x == TxMember(t) && SpendsFrom(rows, key) then HasEntry(after, key, x, score)
            else SameEntry(s, after, key, x)
  {
    SpentKeys(rows, key);
  }

  lemma {:induction false} SpendWrites(s: Store, t: Txid, rows: seq<Keys.Spend>, score: int, o: Outpoint, u: Txid)
    ensures var after := Spent(s, t, rows, score);
            && after.txos == s.txos && after.values == s.values
            && SpendOf(after, o) == (if SpendsOutput(rows, o) then Some(t) else SpendOf(s, o))
            && (IsInput(after, u, o) <==> IsInput(s, u, o) || (u == t && SpendsOutput(rows, o)))
  {
  }

  function SpendOf(s: Store, o: Outpoint): Option<Txid> {
    if o in s.spends then Some(s.spends[o]) else None
  }

  // The outpoint is on record as an input of the transaction.
  predicate IsInput(s: Store, t: Txid, o: Outpoint) {
    t in s.inputs && o in s.inputs[t]
  }

  /** Rolling back */

  // Only recorded inputs that the transaction itself holds are freed, only its own rows and values
  // go, and only the entries of those rows under their owners.
  lemma {:induction false} RollbackFrees(s: Store, t: Txid, o: Outpoint)
    ensures var after := RolledBack(s, t);
            && SpendOf(after, o) == (if IsInput(s, t, o) && SpendOf(s, o) == Some(t) then None else SpendOf(s, o))
            && after.inputs == s.inputs
            && (o in after.txos <==> o in s.txos && o.txid != t)
            && (o in after.txos ==> after.txos[o] == s.txos[o])
            && (o in after.values <==> o in s.values && !(o.txid == t && o in s.txos))
            && (o in after.values ==> after.values[o] == s.values[o])
  {
  }

  lemma {:induction false} RollbackUnlists(s: Store, t: Txid, key: string, x: Member)
    ensures var after := RolledBack(s, t);
            if x.OutMember? && x.o.txid == t && x.o in s.txos && NamesOwner(s.txos[x.o].owners, key)
            then x !in ZSetAt(after.zsets, key)
            else SameEntry(s, after, key, x)
  {
  }

  /** Filtering spent outputs */

  // A spend learnt elsewhere is recorded, unless one is on record already.
  lemma {:induction false} RefreshRecords(s: Store, os: seq<Outpoint>, n: nat, refresh: bool,
                                          remote: map<Outpoint, Txid>, o: Outpoint)
    requires n <= |os|
    ensures var spends := Refreshed(s, os, n, refresh, remote);
            (if o in spends then Some(spends[o]) else None) ==
            if o in s.spends then Some(s.spends[o])
            else if refresh && o in os[..n] && o in remote then Some(remote[o])
            else None
  {
    if n > 0 {
      RefreshRecords(s, os, n - 1, refresh, remote, o);
      assert os[..n] == os[..n - 1] + [os[n - 1]];
    }
  }

  // What is left are the outpoints without a spend on record or elsewhere, in their order.
  lemma {:induction false} UnspentInOrder(s: Store, os: seq<Outpoint>, n: nat, refresh: bool,
                                          remote: map<Outpoint, Txid>) returns (ks: seq<nat>)
    requires n <= |os|
    ensures |ks| == |Unspent(s, os, n, refresh, remote)|
    ensures forall a :: 0 <= a < |ks| ==> ks[a] < n && Unspent(s, os, n, refresh, remote)[a] == os[ks[a]]
    ensures forall a, b :: 0 <= a < b < |ks| ==> ks[a] < ks[b]
    ensures forall k :: 0 <= k < n ==> (k in ks <==> os[k] !in s.spends && !(refresh && os[k] in remote))
  {
    ks := [];
    if n > 0 {
      ks := UnspentInOrder(s, os, n - 1, refresh, remote);
      if os[n - 1] !in s.spends && !(refresh && os[n - 1] in remote) {
        ks := ks + [n - 1];
      }
    }
  }

  /** Searches over whole runs */

  // The save of the output by one operation, if it finds the tag there.
  predicate SavesUnder(op: Op, o: Outpoint, tag: string) {
    op.Save? && IsSavedUnder(op.txos, |op.txos|, o, tag)
  }

  predicate IsSavedUnder(txos: seq<Txo>, n: nat, o: Outpoint, tag: string)
    requires n <= |txos|
  {
    exists i :: 0 <= i < n && txos[i].outpoint == o && tag in txos[i].data
  }

  // The score of the last save of the output under the tag.
  function TagScore(ops: seq<Op>, o: Outpoint, tag: string): Option<int> {
    if ops == [] then None
    else if SavesUnder(ops[|ops| - 1], o, tag) then Some(ops[|ops| - 1].score)
    else TagScore(ops[..|ops| - 1], o, tag)
  }

  lemma {:induction false} TagKeysApart(tag: string, other: string, event: (string, string), owner: string)
    ensures TagKey(tag) == TagKey(other) <==> tag == other
    ensures TagKey(tag) != EventKey(other, event) && TagKey(tag) != OwnerKey(owner)
  {
    assert TagKey(tag)[4..] == tag && TagKey(other)[4..] == other;
    assert TagKey(tag)[0] == 't' && EventKey(other, event)[0] == 'e' && OwnerKey(owner)[0] == 'o';
  }

  lemma {:induction false} NamesTag(txo: Txo, tag: string)
    ensures Names(txo, TagKey(tag)) <==> tag in txo.data
    ensures !NamesOwner(txo.row.owners, TagKey(tag))
  {
    NoOwnerIsTag(txo.row.owners, tag);
    if other :| other in txo.data && TagKey(tag) == TagKey(other) {
      TagKeysApart(tag, other, ("", ""), "");
    }
    if other, event :| other in txo.data && event in txo.data[other] && TagKey(tag) == EventKey(other, event) {
      TagKeysApart(tag, other, event, "");
    }
  }

  lemma {:induction false} NoOwnerIsTag(owners: seq<string>, tag: string)
    ensures !NamesOwner(owners, TagKey(tag))
  {
    forall i | 0 <= i < |owners|
      ensures TagKey(tag) != OwnerKey(owners[i])
    {
      TagKeysApart(tag, tag, ("", ""), owners[i]);
    }
  }

  // The entry under the tag after saving on top of `mid`; `was` tells whether it was set on the way.
  lemma {:induction false} UnderTagNext(s: Store, mid: Store, txo: Txo, score: int, x: Member, tag: string, was: bool)
    requires if was then HasEntry(mid, TagKey(tag), x, score) else SameEntry(s, mid, TagKey(tag), x)
    ensures var after := Saved(mid, txo, score);
            if was || (x == OutMember(txo.outpoint) && tag in txo.data) then HasEntry(after, TagKey(tag), x, score)
            else SameEntry(s, after, TagKey(tag), x)
  {
    SaveUnderTag(mid, txo, score, x, tag);
    if !(x == OutMember(txo.outpoint) && tag in txo.data) {
      EntryStays(s, mid, Saved(mid, txo, score), TagKey(tag), x, score);
    }
  }

  predicate WasSaved(txos: seq<Txo>, n: nat, x: Member, tag: string)
    requires n <= |txos|
  {
    x.OutMember? && IsSavedUnder(txos, n, x.o, tag)
  }

  lemma {:induction false} WasSavedNext(txos: seq<Txo>, n: nat, x: Member, tag: string)
    requires n < |txos|
    ensures WasSaved(txos, n + 1, x, tag) <==>
              WasSaved(txos, n, x, tag) || (x == OutMember(txos[n].outpoint) && tag in txos[n].data)
  {
    if x.OutMember? {
      SavedUnderNext(txos, n, x.o, tag);
    }
  }

  lemma {:induction false} SaveAllUnderTag(s: Store, txos: seq<Txo>, score: int, n: nat, x: Member, tag: string)
    requires n <= |txos|
    ensures var after := SavedAll(s, txos, score, n);
            if WasSaved(txos, n, x, tag) then HasEntry(after, TagKey(tag), x, score)
            else SameEntry(s, after, TagKey(tag), x)
  {
    if n > 0 {
      var mid := SavedAll(s, txos, score, n - 1);
      SaveAllUnderTag(s, txos, score, n - 1, x, tag);
      UnderTagNext(s, mid, txos[n - 1], score, x, tag, WasSaved(txos, n - 1, x, tag));
      WasSavedNext(txos, n - 1, x, tag);
      assert SavedAll(s, txos, score, n) == Saved(mid, txos[n - 1], score);
    }
  }

  lemma {:induction false} SavedUnderNext(txos: seq<Txo>, n: nat, o: Outpoint, tag: string)
    requires n < |txos|
    ensures IsSavedUnder(txos, n + 1, o, tag) <==>
              IsSavedUnder(txos, n, o, tag) || (txos[n].outpoint == o && tag in txos[n].data)
  {
  }

  lemma {:induction false} EntryStays(s: Store, mid: Store, after: Store, key: string, x: Member, score: int)
    requires SameEntry(mid, after, key, x)
    ensures HasEntry(mid, key, x, score) ==> HasEntry(after, key, x, score)
    ensures SameEntry(s, mid, key, x) ==> SameEntry(s, after, key, x)
  {
  }

  lemma {:induction false} SaveUnderTag(s: Store, txo: Txo, score: int, x: Member, tag: string)
    ensures var after := Saved(s, txo, score);
            if x == OutMember(txo.outpoint) && tag in txo.data then HasEntry(after, TagKey(tag), x, score)
            else SameEntry(s, after, TagKey(tag), x)
  {
    SaveLists(s, txo, score, TagKey(tag), x);
    NamesTag(txo, tag);
  }

  // Nothing but a save touches the set of a tag.
  lemma {:induction false} OthersLeaveTags(s: Store, op: Op, x: Member, tag: string)
    requires !op.Save?
    ensures SameEntry(s, Apply(s, op), TagKey(tag), x)
  {
    match op {
      case Spend(t, rows, score) =>
        if rows != [] {
          SpendLists(s, t, rows, score, TagKey(tag), x);
          forall i | 0 <= i < |rows|
            ensures !NamesOwner(rows[i].owners, TagKey(tag))
          {
            NoOwnerIsTag(rows[i].owners, tag);
          }
        }
      case Undo(t) =>
        RollbackUnlists(s, t, TagKey(tag), x);
        if x.OutMember? && x.o in s.txos {
          NoOwnerIsTag(s.txos[x.o].owners, tag);
        }
      case _ =>
    }
  }

  // After any run the set of a tag holds exactly the outputs ever saved under it, each with the
  // score of its last save; a rollback leaves them there.
  lemma {:induction false} TagEntries(ops: seq<Op>, x: Member, tag: string)
    ensures var z := ZSetAt(Run(ops).zsets, TagKey(tag));
            && (x in z <==> x.OutMember? && TagScore(ops, x.o, tag).Some?)
            && (x in z ==> TagScore(ops, x.o, tag) == Some(z[x]))
  {
    if ops != [] {
      var init, op := ops[..|ops| - 1], ops[|ops| - 1];
      TagEntries(init, x, tag);
      match op {
        case Save(txos, score) => SaveAllUnderTag(Run(init), txos, score, |txos|, x, tag);
        case _ => OthersLeaveTags(Run(init), op, x, tag);
      }
    }
  }

  // A transaction is ingested and rolled back: its output has no row, and is still under its tag.
  lemma {:induction false} RolledBackStaysTagged()
    ensures var o := Outpoint(8, 0);
            var ops: seq<Op> := [Save([Txo(o, Row(Some(1), []), map["origin" := {}], map[])], 5),
                        Op.Spend(8, [Keys.Spend(Outpoint(7, 0), [])], 5), Undo(8)];
            OutMember(o) in ZSetAt(Run(ops).zsets, TagKey("origin")) && o !in Run(ops).txos
  {
    var o := Outpoint(8, 0);
    var txo := Txo(o, Row(Some(1), []), map["origin" := {}], map[]);
    var rows := [Keys.Spend(Outpoint(7, 0), [])];
    var ops: seq<Op> := [Save([txo], 5), Op.Spend(8, rows, 5), Undo(8)];
    assert ops[..2] == [Save([txo], 5), Op.Spend(8, rows, 5)] && ops[..2][..1] == [Save([txo], 5)];
    assert SavesUnder(ops[0], o, "origin") by {
      assert ops[0].txos[0].outpoint == o;
    }
    assert TagScore(ops[..2][..1], o, "origin") == Some(5);
    assert TagScore(ops[..2], o, "origin") == Some(5);
    TagEntries(ops, OutMember(o), "origin");
    SpendWrites(Run(ops[..2][..1]), 8, rows, 5, Outpoint(7, 0), 8);
    assert rows[0].outpoint == Outpoint(7, 0);
    assert InputsOf(Run(ops[..2]), 8) != {};
    RollbackFrees(Run(ops[..2]), 8, o);
  }

  // The score is strictly between the bounds, in the direction of the search.
  predicate InRange(cfg: SearchCfg, score: int) {
    && (cfg.from'.Some? ==> if cfg.reverse then score < cfg.from'.value else score > cfg.from'.value)
    && (cfg.to.Some? ==> if cfg.reverse then score > cfg.to.value else score < cfg.to.value)
  }

  // The part of a key's set that is asked for lies strictly between the bounds.
  lemma {:induction false} AskedIs(zsets: ZSets, cfg: SearchCfg, k: nat, x: Member)
    requires k < |cfg.keys|
    ensures x in Asked(zsets, cfg, k) <==>
              x in ZSetAt(zsets, cfg.keys[k]) && InRange(cfg, ZSetAt(zsets, cfg.keys[k])[x])
    ensures x in Asked(zsets, cfg, k) ==> Asked(zsets, cfg, k)[x] == ZSetAt(zsets, cfg.keys[k])[x]
  {
  }

  // Transaction ids are skipped when outputs only, or unspent outputs, are asked for; outputs never.
  lemma {:induction false} KeptIs(cfg: SearchCfg, m: ZSet, x: Member)
    ensures x in Kept(cfg, m) <==> x in m && (x.OutMember? || (!cfg.outpointsOnly && !cfg.filterSpent))
    ensures x in Kept(cfg, m) ==> Kept(cfg, m)[x] == m[x]
  {
  }

  predicate UnderSomeKey(zsets: ZSets, cfg: SearchCfg, x: Member) {
    exists k :: 0 <= k < |cfg.keys| && x in ZSetAt(zsets, cfg.keys[k]) && InRange(cfg, ZSetAt(zsets, cfg.keys[k])[x])
  }

  lemma {:induction false} InUnionIff(zsets: ZSets, cfg: SearchCfg, x: Member)
    ensures x in Union(zsets, cfg, |cfg.keys|) <==> UnderSomeKey(zsets, cfg, x)
  {
    UnionIs(zsets, cfg, x);
    var k := FirstKey(zsets, cfg, |cfg.keys|, x);
    if k < |cfg.keys| {
      AskedIs(zsets, cfg, k, x);
    } else {
      forall j | 0 <= j < |cfg.keys|
        ensures x !in Asked(zsets, cfg, j)
      {
      }
      forall j: nat | j < |cfg.keys|
        ensures !(x in ZSetAt(zsets, cfg.keys[j]) && InRange(cfg, ZSetAt(zsets, cfg.keys[j])[x]))
      {
        AskedIs(zsets, cfg, j, x);
      }
    }
  }

  // An unlimited search for any of some keys answers exactly what is in range under one of them.
  lemma {:induction false} UnlimitedAnswers(zsets: ZSets, cfg: SearchCfg, records: seq<Log>, x: Member)
    requires IsAnswer(zsets, cfg, records) && cfg.limit == 0 && !cfg.both
    ensures DistinctMembers(records) && Sorted(records, cfg.reverse)
    ensures x in Members(records) <==>
              (x.OutMember? || (!cfg.outpointsOnly && !cfg.filterSpent)) && UnderSomeKey(zsets, cfg, x)
  {
    OrSearchIsExact(zsets, cfg, records);
    ListingCovers(Kept(cfg, Union(zsets, cfg, |cfg.keys|)), records);
    KeptIs(cfg, Union(zsets, cfg, |cfg.keys|), x);
    InUnionIff(zsets, cfg, x);
  }

  // An unlimited search for all keys answers exactly what is in range under each of them.
  lemma {:induction false} UnlimitedAndAnswers(zsets: ZSets, cfg: SearchCfg, records: seq<Log>, x: Member)
    requires IsAnswer(zsets, cfg, records) && cfg.limit == 0 && cfg.both && |cfg.keys| > 1
    ensures DistinctMembers(records) && Sorted(records, cfg.reverse)
    ensures x in Members(records) <==>
              && (x.OutMember? || (!cfg.outpointsOnly && !cfg.filterSpent))
              && forall k :: 0 <= k < |cfg.keys| ==>
                   x in ZSetAt(zsets, cfg.keys[k]) && InRange(cfg, ZSetAt(zsets, cfg.keys[k])[x])
  {
    AndSearchIsExact(zsets, cfg, records);
    ListingCovers(Kept(cfg, Intersection(zsets, cfg)), records);
    KeptIs(cfg, Intersection(zsets, cfg), x);
    forall k: nat | k < |cfg.keys|
      ensures x in Asked(zsets, cfg, k) <==>
                x in ZSetAt(zsets, cfg.keys[k]) && InRange(cfg, ZSetAt(zsets, cfg.keys[k])[x])
    {
      AskedIs(zsets, cfg, k, x);
    }
  }

  // Main result on tags: over any run an unlimited search for a tag answers every output saved
  // under it whose last score is in range, with that score, in order, and nothing else.
  lemma {:induction false} TagSearch(ops: seq<Op>, tag: string, cfg: SearchCfg, records: seq<Log>)
    requires cfg.keys == [TagKey(tag)] && cfg.limit == 0 && !cfg.both
    requires IsAnswer(Run(ops).zsets, cfg, records)
    ensures DistinctMembers(records) && Sorted(records, cfg.reverse)
    ensures forall o :: OutMember(o) in Members(records) <==>
                TagScore(ops, o, tag).Some? && InRange(cfg, TagScore(ops, o, tag).value)
    ensures forall i :: 0 <= i < |records| ==>
              records[i].member.OutMember? && TagScore(ops, records[i].member.o, tag) == Some(records[i].score)
  {
    var zsets := Run(ops).zsets;
    UnlimitedAnswers(zsets, cfg, records, OutMember(Outpoint(0, 0)));
    forall o
      ensures OutMember(o) in Members(records) <==>
                TagScore(ops, o, tag).Some? && InRange(cfg, TagScore(ops, o, tag).value)
    {
      UnlimitedAnswers(zsets, cfg, records, OutMember(o));
      TagEntries(ops, OutMember(o), tag);
      assert cfg.keys[0] == TagKey(tag);
    }
    OrSearchIsExact(zsets, cfg, records);
    forall i | 0 <= i < |records|
      ensures records[i].member.OutMember? && TagScore(ops, records[i].member.o, tag) == Some(records[i].score)
    {
      TagEntries(ops, records[i].member, tag);
      OneKeyUnion(zsets, cfg, records[i].member);
    }
  }

  lemma {:induction false} OneKeyUnion(zsets: ZSets, cfg: SearchCfg, x: Member)
    requires |cfg.keys| == 1
    ensures var u := Union(zsets, cfg, 1);
            x in u ==> x in ZSetAt(zsets, cfg.keys[0]) && u[x] == ZSetAt(zsets, cfg.keys[0])[x]
  {
    assert Union(zsets, cfg, 0) == map[];
  }
}
