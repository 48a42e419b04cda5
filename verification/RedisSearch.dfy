// Search over several sorted sets (idx/redis-store/search.go): a limited fetch per key, then
// merge, sort and cut.
module RedisSearch {
  import opened Common
  import opened SortedSets

  // from' and to are exclusive bounds in the direction of the search; a limit of 0 is none.
  datatype SearchCfg = SearchCfg(
    keys: seq<string>,
    from': Option<int>,
    to: Option<int>,
    limit: nat,
    both: bool,
    reverse: bool,
    outpointsOnly: bool,
    filterSpent: bool)

  datatype Record = Record(count: nat, score: int)

  type ZSets = map<string, ZSet>

  function ZSetAt(zsets: ZSets, key: string): ZSet {
    if key in zsets then zsets[key] else map[]
  }

  // The scores asked for: strictly after `from'` and strictly before `to`, as the search runs.
  predicate Between(cfg: SearchCfg, score: int) {
    && (cfg.from'.Some? ==> Before(cfg.from'.value, score, cfg.reverse))
    && (cfg.to.Some? ==> Before(score, cfg.to.value, cfg.reverse))
  }

  // The part of key k's set that the search asks for.
  function Asked(zsets: ZSets, cfg: SearchCfg, k: nat): ZSet
    requires k < |cfg.keys|
  {
    var z := ZSetAt(zsets, cfg.keys[k]);
    map x | x in z && Between(cfg, z[x]) :: z[x]
  }

  method BuildQuery(cfg: SearchCfg) returns (q: Query)
    ensures q.count == cfg.limit
    ensures forall score :: Admits(q, score) <==> Between(cfg, score)
  {
    q := Query(Infinite, Infinite, cfg.limit);
    if cfg.reverse {
      if cfg.from'.Some? {
        q := q.(max := Open(cfg.from'.value));
      }
    } else if cfg.from'.Some? {
      q := q.(min := Open(cfg.from'.value));
    }
    if cfg.to.Some? {
      if cfg.reverse {
        q := q.(min := Open(cfg.to.value));
      } else {
        q := q.(max := Open(cfg.to.value));
      }
    }
  }

  /** What is made of the lists fetched for the keys */

  predicate Keeps(cfg: SearchCfg, x: Member) {
    !(x.TxMember? && (cfg.outpointsOnly || cfg.filterSpent))
  }

  function Wanted(cfg: SearchCfg, rs: seq<Log>): (r: seq<Log>)
    ensures |r| <= |rs|
  {
    if rs == [] then []
    else
      var n := |rs| - 1;
      Wanted(cfg, rs[..n]) + (if Keeps(cfg, rs[n].member) then [rs[n]] else [])
  }

  // One more sighting of a member; the first one fixes its score.
  function Sight(seen: map<Member, Record>, e: Log): map<Member, Record> {
    if e.member in seen then seen[e.member := seen[e.member].(count := seen[e.member].count + 1)]
    else seen[e.member := Record(1, e.score)]
  }

  function SightAll(seen: map<Member, Record>, rs: seq<Log>, n: nat): map<Member, Record>
    requires n <= |rs|
  {
    if n == 0 then seen else Sight(SightAll(seen, rs, n - 1), rs[n - 1])
  }

  function Tally(cfg: SearchCfg, lists: seq<seq<Log>>, n: nat): map<Member, Record>
    requires n <= |lists|
  {
    if n == 0 then map[]
    else
      var wanted := Wanted(cfg, lists[n - 1]);
      SightAll(Tally(cfg, lists, n - 1), wanted, |wanted|)
  }

  // The members that count, with their scores.
  function Merged(cfg: SearchCfg, seen: map<Member, Record>): ZSet {
    map x | x in seen && (cfg.both ==> seen[x].count == |cfg.keys|) :: seen[x].score
  }

  // The answer of a search, given what was fetched for each key.
  predicate Answers(cfg: SearchCfg, lists: seq<seq<Log>>, records: seq<Log>) {
    && |lists| == |cfg.keys|
    && if |cfg.keys| == 0 then records == []
       else if |cfg.keys| == 1 then records == Truncate(Wanted(cfg, lists[0]), cfg.limit)
       else IsTop(Merged(cfg, Tally(cfg, lists, |lists|)), cfg.reverse, cfg.limit, records)
  }

  // What the limited range of key k brings.
  ghost predicate FetchedAt(zsets: ZSets, cfg: SearchCfg, k: nat, l: seq<Log>)
    requires k < |cfg.keys|
  {
    IsTop(Asked(zsets, cfg, k), cfg.reverse, cfg.limit, l) && InOrder(Asked(zsets, cfg, k), cfg.reverse, l)
  }

  ghost predicate Fetched(zsets: ZSets, cfg: SearchCfg, lists: seq<seq<Log>>) {
    |lists| <= |cfg.keys| && forall k :: 0 <= k < |lists| ==> FetchedAt(zsets, cfg, k, lists[k])
  }

  // What the loop over the keys has gathered from the lists fetched so far.
  predicate Gathered(cfg: SearchCfg, lists: seq<seq<Log>>, records: seq<Log>, seen: map<Member, Record>) {
    if |cfg.keys| > 1 then records == [] && seen == Tally(cfg, lists, |lists|)
    else records == if lists == [] then [] else Wanted(cfg, lists[0])
  }

  // records is what some limited fetches of the keys, merged, sorted and cut, come to.
  ghost predicate IsAnswer(zsets: ZSets, cfg: SearchCfg, records: seq<Log>) {
    exists lists :: Fetched(zsets, cfg, lists) && Answers(cfg, lists, records)
  }

  lemma {:induction false} FetchedNext(zsets: ZSets, cfg: SearchCfg, lists: seq<seq<Log>>, results: seq<Log>)
    requires Fetched(zsets, cfg, lists) && |lists| < |cfg.keys| && FetchedAt(zsets, cfg, |lists|, results)
    ensures Fetched(zsets, cfg, lists + [results])
  {
  }

  method Search(zsets: ZSets, cfg: SearchCfg) returns (records: seq<Log>)
    ensures IsAnswer(zsets, cfg, records)
  {
    var seen;
    ghost var lists;
    records, seen, lists := GatherAll(zsets, cfg);
    if |cfg.keys| > 1 {
      records := Order(cfg, seen);
    } else {
      records := Truncate(records, cfg.limit);
    }
    assert Answers(cfg, lists, records);
  }

  method GatherAll(zsets: ZSets, cfg: SearchCfg)
      returns (records: seq<Log>, seen: map<Member, Record>, ghost lists: seq<seq<Log>>)
    ensures |lists| == |cfg.keys| && Fetched(zsets, cfg, lists) && Gathered(cfg, lists, records, seen)
  {
    var query := BuildQuery(cfg);
    records, seen, lists := [], map[], [];
    for k: nat := 0 to |cfg.keys|
      invariant |lists| == k && Fetched(zsets, cfg, lists) && Gathered(cfg, lists, records, seen)
    {
      var results := Fetch(zsets, cfg, query, k);
      records, seen := Gather(cfg, results, records, seen, lists);
      FetchedNext(zsets, cfg, lists, results);
      lists := lists + [results];
    }
  }

  method Fetch(zsets: ZSets, cfg: SearchCfg, query: Query, k: nat) returns (results: seq<Log>)
    requires k < |cfg.keys| && query.count == cfg.limit
    requires forall score :: Admits(query, score) <==> Between(cfg, score)
    ensures FetchedAt(zsets, cfg, k, results)
  {
    assert Window(ZSetAt(zsets, cfg.keys[k]), query) == Asked(zsets, cfg, k);
    results := ZRange(ZSetAt(zsets, cfg.keys[k]), query, cfg.reverse);
  }

  method Gather(cfg: SearchCfg, results: seq<Log>, records: seq<Log>, seen: map<Member, Record>,
                ghost lists: seq<seq<Log>>) returns (records': seq<Log>, seen': map<Member, Record>)
    requires |lists| < |cfg.keys| && Gathered(cfg, lists, records, seen)
    ensures Gathered(cfg, lists + [results], records', seen')
  {
    var more;
    more, seen' := Scan(cfg, results, seen);
    records' := records;
    if |cfg.keys| > 1 {
      TallyNext(cfg, lists, results);
    } else {
      records' := records + more;
    }
  }

  method Order(cfg: SearchCfg, seen: map<Member, Record>) returns (records: seq<Log>)
    ensures IsTop(Merged(cfg, seen), cfg.reverse, cfg.limit, records)
  {
    records := Entries(Merged(cfg, seen));
    records := SortListing(records, cfg.reverse, Merged(cfg, seen));
    TruncatedListingIsTop(Merged(cfg, seen), cfg.reverse, cfg.limit, records);
    records := Truncate(records, cfg.limit);
  }

  // One key's results: kept ones are listed (one key) or counted (several).
  method Scan(cfg: SearchCfg, results: seq<Log>, seen: map<Member, Record>)
      returns (records: seq<Log>, seen': map<Member, Record>)
    ensures records == Wanted(cfg, results)
    ensures seen' == SightAll(seen, Wanted(cfg, results), |Wanted(cfg, results)|)
  {
    records, seen' := [], seen;
    for i: nat := 0 to |results|
      invariant records == Wanted(cfg, results[..i])
      invariant seen' == SightAll(seen, records, |records|)
    {
      assert results[..i + 1][..i] == results[..i];
      var result := results[i];
      if result.member.TxMember? && (cfg.outpointsOnly || cfg.filterSpent) {
        continue;
      }
      SightAllPrefix(seen, records, [result], |records|);
      if result.member !in seen' {
        seen' := seen'[result.member := Record(0, result.score)];
      }
      seen' := seen'[result.member := seen'[result.member].(count := seen'[result.member].count + 1)];
      records := records + [result];
    }
    assert results[..|results|] == results;
  }

  lemma {:induction false} SightAllPrefix(seen: map<Member, Record>, rs: seq<Log>, more: seq<Log>, n: nat)
    requires n <= |rs|
    ensures SightAll(seen, rs + more, n) == SightAll(seen, rs, n)
  {
    if n > 0 {
      SightAllPrefix(seen, rs, more, n - 1);
    }
  }

  lemma {:induction false} TallyNext(cfg: SearchCfg, lists: seq<seq<Log>>, results: seq<Log>)
    ensures var wanted := Wanted(cfg, results);
            Tally(cfg, lists + [results], |lists| + 1) == SightAll(Tally(cfg, lists, |lists|), wanted, |wanted|)
  {
    TallyPrefix(cfg, lists, [results], |lists|);
  }

  lemma {:induction false} TallyPrefix(cfg: SearchCfg, lists: seq<seq<Log>>, more: seq<seq<Log>>, n: nat)
    requires n <= |lists|
    ensures Tally(cfg, lists + more, n) == Tally(cfg, lists, n)
  {
    if n > 0 {
      TallyPrefix(cfg, lists, more, n - 1);
    }
  }
}
