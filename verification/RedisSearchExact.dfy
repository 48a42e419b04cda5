// What a search answers, compared with the plain definition: the first `limit` members, in
// order, of the union (or intersection) of the sets asked for.
module RedisSearchExact {
  import opened Common
  import opened SortedSets
  import opened RedisSearch

  // With outputs only or unspent outputs asked for, transaction ids are not wanted.
  predicate IsWanted(cfg: SearchCfg, x: Member) {
    x.OutMember? || (!cfg.outpointsOnly && !cfg.filterSpent)
  }

  function Kept(cfg: SearchCfg, m: ZSet): ZSet {
    map x | x in m && IsWanted(cfg, x) :: m[x]
  }

  // All members under the first n keys, each with its score under the first key that has it.
  function Union(zsets: ZSets, cfg: SearchCfg, n: nat): ZSet
    requires n <= |cfg.keys|
  {
    if n == 0 then map[] else Asked(zsets, cfg, n - 1) + Union(zsets, cfg, n - 1)
  }

  // The members under every key, with their scores under the first one.
  function Intersection(zsets: ZSets, cfg: SearchCfg): ZSet
    requires |cfg.keys| > 0
  {
    var z := Asked(zsets, cfg, 0);
    map x | x in z && forall k :: 0 <= k < |cfg.keys| ==> x in Asked(zsets, cfg, k) :: z[x]
  }

  // No member has different scores under different keys.
  predicate Consistent(zsets: ZSets, cfg: SearchCfg) {
    forall j, k :: 0 <= j < |cfg.keys| && 0 <= k < |cfg.keys| ==>
      forall x :: x in Asked(zsets, cfg, j) && x in Asked(zsets, cfg, k) ==>
        Asked(zsets, cfg, j)[x] == Asked(zsets, cfg, k)[x]
  }

  /** What the merge makes of the lists */

  // The wanted entries are those of rs that are kept, each once.
  lemma {:induction false} WantedOnce(cfg: SearchCfg, rs: seq<Log>)
    requires DistinctMembers(rs)
    ensures var w := Wanted(cfg, rs);
            && DistinctMembers(w)
            && (forall x :: x in Members(w) <==> x in Members(rs) && IsWanted(cfg, x))
  {
    if rs != [] {
      var n := |rs| - 1;
      WantedOnce(cfg, rs[..n]);
      assert rs == rs[..n] + [rs[n]];
      MembersSnoc(rs[..n], rs[n]);
      MembersSnoc(Wanted(cfg, rs[..n]), rs[n]);
      var w := Wanted(cfg, rs[..n]);
      assert rs[n].member !in Members(rs[..n]);
      assert forall i :: 0 <= i < |w| ==> w[i].member in Members(w);
      assert Wanted(cfg, rs) == if IsWanted(cfg, rs[n].member) then w + [rs[n]] else w;
    }
  }

  lemma {:induction false} WantedComeFrom(cfg: SearchCfg, rs: seq<Log>, e: Log)
    ensures e in Wanted(cfg, rs) <==> e in rs && IsWanted(cfg, e.member)
  {
    if rs != [] {
      WantedComeFrom(cfg, rs[..|rs| - 1], e);
      assert rs == rs[..|rs| - 1] + [rs[|rs| - 1]];
    }
  }

  lemma {:induction false} WantedWithin(cfg: SearchCfg, m: ZSet, rs: seq<Log>)
    requires Within(m, rs)
    ensures Within(Kept(cfg, m), Wanted(cfg, rs))
  {
    var w := Wanted(cfg, rs);
    forall i | 0 <= i < |w|
      ensures w[i].member in Kept(cfg, m) && Kept(cfg, m)[w[i].member] == w[i].score
    {
      WantedComeFrom(cfg, rs, w[i]);
      assert w[i] in w;
      var j :| 0 <= j < |rs| && rs[j] == w[i];
    }
  }

  lemma {:induction false} WantedAre(cfg: SearchCfg, m: ZSet, rs: seq<Log>)
    requires DistinctMembers(rs) && Within(m, rs)
    ensures var w := Wanted(cfg, rs);
            && DistinctMembers(w) && Within(Kept(cfg, m), w)
            && (forall x :: x in Members(w) <==> x in Members(rs) && IsWanted(cfg, x))
  {
    WantedOnce(cfg, rs);
    WantedWithin(cfg, m, rs);
  }

  lemma {:induction false} WantedStaySorted(cfg: SearchCfg, rs: seq<Log>, rev: bool)
    requires Sorted(rs, rev)
    ensures Sorted(Wanted(cfg, rs), rev)
    ensures forall e :: e in Wanted(cfg, rs) ==> e in rs
  {
    if rs != [] {
      var n := |rs| - 1;
      WantedStaySorted(cfg, rs[..n], rev);
      var w := Wanted(cfg, rs[..n]);
      assert forall i :: 0 <= i < |w| ==> w[i] in w && w[i] in rs[..n];
      assert Wanted(cfg, rs) == if IsWanted(cfg, rs[n].member) then w + [rs[n]] else w;
    }
  }

  // How many of the first n lists hold x, and which of them is the first.
  function CountOf(cfg: SearchCfg, lists: seq<seq<Log>>, n: nat, x: Member): (r: nat)
    requires n <= |lists|
    ensures r <= n
  {
    if n == 0 then 0
    else CountOf(cfg, lists, n - 1, x) + (if x in Members(Wanted(cfg, lists[n - 1])) then 1 else 0)
  }

  function FirstIn(cfg: SearchCfg, lists: seq<seq<Log>>, n: nat, x: Member): (r: nat)
    requires n <= |lists|
    ensures r <= n
    ensures r < n ==> x in Members(Wanted(cfg, lists[r]))
    ensures forall k :: 0 <= k < r ==> x !in Members(Wanted(cfg, lists[k]))
  {
    if n == 0 then 0
    else
      var r := FirstIn(cfg, lists, n - 1, x);
      if r == n - 1 && x !in Members(Wanted(cfg, lists[n - 1])) then n else r
  }

  lemma {:induction false} SightAllIs(seen: map<Member, Record>, rs: seq<Log>, n: nat, x: Member)
    requires n <= |rs| && DistinctMembers(rs)
    ensures var all := SightAll(seen, rs, n);
            && (x in all <==> x in seen || x in Members(rs[..n]))
            && (x in seen && x !in Members(rs[..n]) ==> all[x] == seen[x])
            && (x in seen && x in Members(rs[..n]) ==> all[x] == Record(seen[x].count + 1, seen[x].score))
            && (x !in seen && x in Members(rs[..n]) ==>
                  all[x].count == 1 && exists i :: 0 <= i < n && rs[i] == Log(x, all[x].score))
  {
    if n > 0 {
      SightAllIs(seen, rs, n - 1, x);
      assert rs[..n] == rs[..n - 1] + [rs[n - 1]];
      MembersSnoc(rs[..n - 1], rs[n - 1]);
      assert rs[n - 1].member !in Members(rs[..n - 1]);
    }
  }

  // Member x of a tally over the first n lists: counted once per list that holds it, scored
  // by the first of them.
  ghost predicate Tallied(zsets: ZSets, cfg: SearchCfg, lists: seq<seq<Log>>, n: nat, seen: map<Member, Record>,
                          x: Member)
    requires n <= |lists| && Fetched(zsets, cfg, lists)
  {
    var k := FirstIn(cfg, lists, n, x);
    && (x in seen <==> k < n)
    && (if x in seen then
          seen[x].count == CountOf(cfg, lists, n, x) && x in Asked(zsets, cfg, k) &&
              seen[x].score == Asked(zsets, cfg, k)[x]
        else CountOf(cfg, lists, n, x) == 0)
  }

  lemma {:induction false} FirstNext(cfg: SearchCfg, lists: seq<seq<Log>>, n: nat, x: Member)
    requires n < |lists|
    ensures FirstIn(cfg, lists, n + 1, x) ==
            if FirstIn(cfg, lists, n, x) < n then FirstIn(cfg, lists, n, x)
            else if x in Members(Wanted(cfg, lists[n])) then n else n + 1
  {
  }

  // What one more list does to the tally of x.
  lemma {:induction false} SightNext(zsets: ZSets, cfg: SearchCfg, n: nat, l: seq<Log>, seen: map<Member, Record>,
                                     x: Member)
    requires n < |cfg.keys| && FetchedAt(zsets, cfg, n, l)
    ensures var w := Wanted(cfg, l);
            var all := SightAll(seen, w, |w|);
            && (x in all <==> x in seen || x in Members(w))
            && (x in seen ==> all[x] == Record(seen[x].count + (if x in Members(w) then 1 else 0), seen[x].score))
            && (x !in seen && x in Members(w) ==>
                  x in Asked(zsets, cfg, n) && all[x] == Record(1, Asked(zsets, cfg, n)[x]))
  {
    var w := Wanted(cfg, l);
    WantedAre(cfg, Asked(zsets, cfg, n), l);
    SightAllIs(seen, w, |w|, x);
    assert w[..|w|] == w;
  }

  lemma {:induction false} TalliedNext(zsets: ZSets, cfg: SearchCfg, lists: seq<seq<Log>>, n: nat,
                                       seen: map<Member, Record>, x: Member)
    requires n < |lists| && Fetched(zsets, cfg, lists) && Tallied(zsets, cfg, lists, n, seen, x)
    ensures var w := Wanted(cfg, lists[n]); Tallied(zsets, cfg, lists, n + 1, SightAll(seen, w, |w|), x)
  {
    assert FetchedAt(zsets, cfg, n, lists[n]);
    SightNext(zsets, cfg, n, lists[n], seen, x);
    FirstNext(cfg, lists, n, x);
  }

  lemma {:induction false} TallyUnfolds(cfg: SearchCfg, lists: seq<seq<Log>>, n: nat)
    requires 0 < n <= |lists|
    ensures var w := Wanted(cfg, lists[n - 1]); Tally(cfg, lists, n) == SightAll(Tally(cfg, lists, n - 1), w, |w|)
  {
  }

  lemma {:induction false} TallyStep(zsets: ZSets, cfg: SearchCfg, lists: seq<seq<Log>>, n: nat, x: Member)
    requires n < |lists| && Fetched(zsets, cfg, lists) && Tallied(zsets, cfg, lists, n, Tally(cfg, lists, n), x)
    ensures Tallied(zsets, cfg, lists, n + 1, Tally(cfg, lists, n + 1), x)
  {
    TallyUnfolds(cfg, lists, n + 1);
    TalliedNext(zsets, cfg, lists, n, Tally(cfg, lists, n), x);
  }

  lemma {:induction false} TallyIs(zsets: ZSets, cfg: SearchCfg, lists: seq<seq<Log>>, n: nat, x: Member)
    requires n <= |lists| && Fetched(zsets, cfg, lists)
    ensures Tallied(zsets, cfg, lists, n, Tally(cfg, lists, n), x)
  {
    if n > 0 {
      TallyIs(zsets, cfg, lists, n - 1, x);
      TallyStep(zsets, cfg, lists, n - 1, x);
    }
  }

  lemma {:induction false} CountFull(cfg: SearchCfg, lists: seq<seq<Log>>, n: nat, x: Member)
    requires n <= |lists|
    ensures CountOf(cfg, lists, n, x) == n <==> forall k :: 0 <= k < n ==> x in Members(Wanted(cfg, lists[k]))
  {
    if n > 0 {
      CountFull(cfg, lists, n - 1, x);
    }
  }

  /** One key */

  function PageSize(limit: nat, n: nat): nat {
    if limit == 0 || n <= limit then n else limit
  }

  // Whatever a limited fetch leaves out is no better than anything it brings.
  lemma {:induction false} OmittedIsNoBetter(m: ZSet, l: seq<Log>, rev: bool, limit: nat, x: Member)
    requires IsTop(m, rev, limit, l) && x in m && x !in Members(l)
    ensures limit > 0 && |l| == limit
    ensures forall i :: 0 <= i < |l| ==> !Before(m[x], l[i].score, rev)
  {
    if |l| == |m| {
      ListingCovers(m, l);
    }
  }

  // x is among the first `limit` members of m.
  predicate IsEarly(cfg: SearchCfg, m: ZSet, x: Member)
    requires x in m
  {
    cfg.limit == 0 || |Ahead(m, x, cfg.reverse)| < cfg.limit
  }

  predicate IsEarlyUnder(zsets: ZSets, cfg: SearchCfg, k: nat, x: Member)
    requires k < |cfg.keys|
  {
    x in Asked(zsets, cfg, k) && IsEarly(cfg, Asked(zsets, cfg, k), x)
  }

  lemma {:induction false} FetchedAreEarly(zsets: ZSets, cfg: SearchCfg, k: nat, l: seq<Log>)
    requires k < |cfg.keys| && FetchedAt(zsets, cfg, k, l)
    ensures forall x :: x in Members(l) <==> IsEarlyUnder(zsets, cfg, k, x)
  {
    var m := Asked(zsets, cfg, k);
    forall x
      ensures x in Members(l) <==> IsEarlyUnder(zsets, cfg, k, x)
    {
      if x in m {
        FetchedIffEarly(m, cfg.reverse, cfg.limit, l, x);
      }
    }
  }

  lemma {:induction false} KeptSizes(cfg: SearchCfg, m: ZSet, l: seq<Log>)
    requires DistinctMembers(l) && Within(m, l)
    ensures |Members(l)| == |l| && |Wanted(cfg, l)| == |Members(Wanted(cfg, l))|
    ensures |Wanted(cfg, l)| <= |Kept(cfg, m)| <= |m|
  {
    WantedAre(cfg, m, l);
    MembersCount(l);
    MembersCount(Wanted(cfg, l));
    SubsetSize(Members(Wanted(cfg, l)), Kept(cfg, m).Keys);
    SubsetSize(Kept(cfg, m).Keys, m.Keys);
  }

  // Something fetched in vain and something missed: the page is short.
  lemma {:induction false} ShortPage(cfg: SearchCfg, m: ZSet, l: seq<Log>, t: Member, x: Member)
    requires IsTop(m, cfg.reverse, cfg.limit, l)
    requires t in Members(l) && !IsWanted(cfg, t) && x in Kept(cfg, m) && x !in Members(l)
    ensures |Wanted(cfg, l)| < PageSize(cfg.limit, |Kept(cfg, m)|)
  {
    KeptSizes(cfg, m, l);
    WantedAre(cfg, m, l);
    OmittedIsNoBetter(m, l, cfg.reverse, cfg.limit, x);
    SubsetSize(Members(Wanted(cfg, l)), Members(l) - {t});
    SubsetSize(Members(Wanted(cfg, l)), Kept(cfg, m).Keys - {x});
  }

  lemma {:induction false} NothingDropped(cfg: SearchCfg, m: ZSet, l: seq<Log>)
    requires IsTop(m, cfg.reverse, cfg.limit, l) && forall t :: t in Members(l) ==> IsWanted(cfg, t)
    ensures |Wanted(cfg, l)| == PageSize(cfg.limit, |Kept(cfg, m)|)
  {
    KeptSizes(cfg, m, l);
    WantedAre(cfg, m, l);
    assert Members(Wanted(cfg, l)) == Members(l);
    if |l| == |m| {
      ListingCovers(m, l);
      assert Kept(cfg, m) == m;
    }
  }

  lemma {:induction false} OneKeyPage(cfg: SearchCfg, m: ZSet, l: seq<Log>)
    requires IsTop(m, cfg.reverse, cfg.limit, l)
    ensures |Wanted(cfg, l)| == PageSize(cfg.limit, |Kept(cfg, m)|) <==>
              || (forall t :: t in Members(l) ==> IsWanted(cfg, t))
              || (forall x :: x in Kept(cfg, m) ==> x in Members(l))
  {
    if forall t :: t in Members(l) ==> IsWanted(cfg, t) {
      NothingDropped(cfg, m, l);
    } else if forall x :: x in Kept(cfg, m) ==> x in Members(l) {
      KeptSizes(cfg, m, l);
      WantedAre(cfg, m, l);
      assert Members(Wanted(cfg, l)) == Kept(cfg, m).Keys;
    } else {
      var t :| t in Members(l) && !IsWanted(cfg, t);
      var x :| x in Kept(cfg, m) && x !in Members(l);
      ShortPage(cfg, m, l, t, x);
    }
  }

  // Only its length can be wrong with the page of one key.
  lemma {:induction false} OneKeyTop(cfg: SearchCfg, m: ZSet, l: seq<Log>)
    requires IsTop(m, cfg.reverse, cfg.limit, l)
    ensures IsTop(Kept(cfg, m), cfg.reverse, cfg.limit, Wanted(cfg, l)) <==>
              |Wanted(cfg, l)| == PageSize(cfg.limit, |Kept(cfg, m)|)
  {
    var w := Wanted(cfg, l);
    WantedAre(cfg, m, l);
    WantedStaySorted(cfg, l, cfg.reverse);
    assert forall i :: 0 <= i < |w| ==> w[i] in l;
    forall x, i | x in Kept(cfg, m) && x !in Members(w) && 0 <= i < |w|
      ensures !Before(m[x], w[i].score, cfg.reverse)
    {
      OmittedIsNoBetter(m, l, cfg.reverse, cfg.limit, x);
    }
  }

  // Among the first `limit` members of m nothing is skipped, or nothing wanted comes after them.
  predicate FirstOnesDo(cfg: SearchCfg, m: ZSet) {
    || (forall t :: t in m && IsEarly(cfg, m, t) ==> IsWanted(cfg, t))
    || (forall x :: x in Kept(cfg, m) ==> IsEarly(cfg, m, x))
  }

  // With one key, a search that skips transaction ids answers the first `limit` outputs exactly
  // when no transaction id is among the first `limit` members, or no output comes after them.
  lemma {:induction false} OneKeySearchExact(zsets: ZSets, cfg: SearchCfg, records: seq<Log>)
    requires |cfg.keys| == 1 && IsAnswer(zsets, cfg, records)
    ensures IsTop(Kept(cfg, Asked(zsets, cfg, 0)), cfg.reverse, cfg.limit, records) <==>
              FirstOnesDo(cfg, Asked(zsets, cfg, 0))
  {
    var lists :| Fetched(zsets, cfg, lists) && Answers(cfg, lists, records);
    assert FetchedAt(zsets, cfg, 0, lists[0]);
    assert records == Wanted(cfg, lists[0]);
    OneKeyIff(zsets, cfg, lists[0]);
  }

  lemma {:induction false} OneKeyIff(zsets: ZSets, cfg: SearchCfg, l: seq<Log>)
    requires |cfg.keys| == 1 && FetchedAt(zsets, cfg, 0, l)
    ensures IsTop(Kept(cfg, Asked(zsets, cfg, 0)), cfg.reverse, cfg.limit, Wanted(cfg, l)) <==>
              FirstOnesDo(cfg, Asked(zsets, cfg, 0))
  {
    var m := Asked(zsets, cfg, 0);
    FetchedAreEarly(zsets, cfg, 0, l);
    OneKeyTop(cfg, m, l);
    OneKeyPage(cfg, m, l);
    EarlyOnesDo(cfg, m, Members(l)) by {
      forall x | x in m
        ensures x in Members(l) <==> IsEarly(cfg, m, x)
      {
        assert x in Members(l) <==> IsEarlyUnder(zsets, cfg, 0, x);
      }
    }
  }

  lemma {:induction false} EarlyOnesDo(cfg: SearchCfg, m: ZSet, fetched: set<Member>)
    requires fetched <= m.Keys && forall x :: x in m ==> (x in fetched <==> IsEarly(cfg, m, x))
    ensures FirstOnesDo(cfg, m) <==>
              || (forall t :: t in fetched ==> IsWanted(cfg, t))
              || (forall x :: x in Kept(cfg, m) ==> x in fetched)
  {
  }

  // One transaction id ahead of an output: a search for one output answers none.
  lemma {:induction false} OneKeyGoesWrong(cfg: SearchCfg, records: seq<Log>)
    requires cfg == SearchCfg(["a"], None, None, 1, false, false, true, false)
    ensures var zsets: ZSets := map["a" := map[TxMember(1) := 5, OutMember(Outpoint(2, 0)) := 6]];
            IsAnswer(zsets, cfg, records) ==>
                records == [] && OutMember(Outpoint(2, 0)) in Kept(cfg, Asked(zsets, cfg, 0))
  {
    var t, o := TxMember(1), OutMember(Outpoint(2, 0));
    var zsets: ZSets := map["a" := map[t := 5, o := 6]];
    assert Asked(zsets, cfg, 0) == map[t := 5, o := 6];
    if IsAnswer(zsets, cfg, records) {
      var lists :| Fetched(zsets, cfg, lists) && Answers(cfg, lists, records);
      assert FetchedAt(zsets, cfg, 0, lists[0]);
      FetchedFirst(Asked(zsets, cfg, 0), t, lists[0]);
      WantedAre(cfg, Asked(zsets, cfg, 0), lists[0]);
      MembersCount(Wanted(cfg, lists[0]));
      assert Members(Wanted(cfg, lists[0])) == {};
    }
  }

  lemma {:induction false} FetchedFirst(m: ZSet, x: Member, l: seq<Log>)
    requires x in m && (forall y :: y in m && y != x ==> m[y] > m[x]) && IsTop(m, false, 1, l)
    ensures Members(l) == {x}
  {
    assert m != map[] && |m| > 0;
    assert |l| == 1 && Members(l) == {l[0].member};
    assert forall y :: y in m && y !in Members(l) ==> !Before(m[y], l[0].score, false);
  }

  /** Several keys, any of them */

  lemma {:induction false} UnionHas(zsets: ZSets, cfg: SearchCfg, n: nat, k: nat, x: Member)
    requires k < n <= |cfg.keys| && x in Asked(zsets, cfg, k)
    requires forall j :: 0 <= j < k ==> x !in Asked(zsets, cfg, j)
    ensures x in Union(zsets, cfg, n) && Union(zsets, cfg, n)[x] == Asked(zsets, cfg, k)[x]
  {
    if k < n - 1 {
      UnionHas(zsets, cfg, n - 1, k, x);
    } else {
      UnionLacks(zsets, cfg, n - 1, x);
    }
  }

  lemma {:induction false} UnionLacks(zsets: ZSets, cfg: SearchCfg, n: nat, x: Member)
    requires n <= |cfg.keys| && forall j :: 0 <= j < n ==> x !in Asked(zsets, cfg, j)
    ensures x !in Union(zsets, cfg, n)
  {
    if n > 0 {
      UnionLacks(zsets, cfg, n - 1, x);
    }
  }

  // The first key that has x.
  function FirstKey(zsets: ZSets, cfg: SearchCfg, n: nat, x: Member): (k: nat)
    requires n <= |cfg.keys|
    ensures k <= n && (k < n ==> x in Asked(zsets, cfg, k))
    ensures forall j :: 0 <= j < k ==> x !in Asked(zsets, cfg, j)
  {
    if n == 0 then 0
    else
      var k := FirstKey(zsets, cfg, n - 1, x);
      if k == n - 1 && x !in Asked(zsets, cfg, n - 1) then n else k
  }

  lemma {:induction false} UnionIs(zsets: ZSets, cfg: SearchCfg, x: Member)
    ensures var k := FirstKey(zsets, cfg, |cfg.keys|, x);
            && (x in Union(zsets, cfg, |cfg.keys|) <==> k < |cfg.keys|)
            && (k < |cfg.keys| ==> Union(zsets, cfg, |cfg.keys|)[x] == Asked(zsets, cfg, k)[x])
  {
    var k := FirstKey(zsets, cfg, |cfg.keys|, x);
    if k < |cfg.keys| {
      UnionHas(zsets, cfg, |cfg.keys|, k, x);
    } else {
      UnionLacks(zsets, cfg, |cfg.keys|, x);
    }
  }

  function Found(cfg: SearchCfg, lists: seq<seq<Log>>): ZSet {
    Merged(cfg, Tally(cfg, lists, |lists|))
  }

  // Whatever the merge holds belongs there, with a score that one of its keys gives it.
  lemma {:induction false} FoundBelongs(zsets: ZSets, cfg: SearchCfg, lists: seq<seq<Log>>, x: Member)
    requires |lists| == |cfg.keys| && Fetched(zsets, cfg, lists) && !cfg.both
    ensures x in Found(cfg, lists) <==> FirstIn(cfg, lists, |lists|, x) < |lists|
    ensures x in Found(cfg, lists) ==>
              && x in Kept(cfg, Union(zsets, cfg, |cfg.keys|))
              && x in Asked(zsets, cfg, FirstIn(cfg, lists, |lists|, x))
              && Found(cfg, lists)[x] == Asked(zsets, cfg, FirstIn(cfg, lists, |lists|, x))[x]
              && (Consistent(zsets, cfg) ==> Found(cfg, lists)[x] == Union(zsets, cfg, |cfg.keys|)[x])
  {
    TallyIs(zsets, cfg, lists, |lists|, x);
    UnionIs(zsets, cfg, x);
    if x in Found(cfg, lists) {
      var k := FirstIn(cfg, lists, |lists|, x);
      WantedAre(cfg, Asked(zsets, cfg, k), lists[k]);
    }
  }

  lemma {:induction false} FirstAgrees(zsets: ZSets, cfg: SearchCfg, lists: seq<seq<Log>>, x: Member)
    requires |lists| == |cfg.keys| && Fetched(zsets, cfg, lists) && IsWanted(cfg, x)
    requires forall k :: 0 <= k < |lists| ==> Members(lists[k]) == Asked(zsets, cfg, k).Keys
    ensures FirstIn(cfg, lists, |lists|, x) == FirstKey(zsets, cfg, |lists|, x)
  {
    forall k | 0 <= k < |lists|
      ensures x in Members(Wanted(cfg, lists[k])) <==> x in Asked(zsets, cfg, k)
    {
      WantedAre(cfg, Asked(zsets, cfg, k), lists[k]);
    }
    var i, k := FirstIn(cfg, lists, |lists|, x), FirstKey(zsets, cfg, |lists|, x);
    assert i < |lists| ==> x in Asked(zsets, cfg, i);
    assert k < |lists| ==> x in Members(Wanted(cfg, lists[k]));
  }

  lemma {:induction false} FoundIs(zsets: ZSets, cfg: SearchCfg, lists: seq<seq<Log>>, x: Member)
    requires |lists| == |cfg.keys| && Fetched(zsets, cfg, lists) && !cfg.both
    requires forall k :: 0 <= k < |lists| ==> Members(lists[k]) == Asked(zsets, cfg, k).Keys
    ensures x in Found(cfg, lists) <==> x in Union(zsets, cfg, |cfg.keys|) && IsWanted(cfg, x)
    ensures x in Found(cfg, lists) ==> Found(cfg, lists)[x] == Union(zsets, cfg, |cfg.keys|)[x]
  {
    FoundBelongs(zsets, cfg, lists, x);
    if IsWanted(cfg, x) {
      UnionIs(zsets, cfg, x);
      FirstAgrees(zsets, cfg, lists, x);
    }
  }

  // Without omissions the merge is the whole union.
  lemma {:induction false} FoundAll(zsets: ZSets, cfg: SearchCfg, lists: seq<seq<Log>>)
    requires |lists| == |cfg.keys| && Fetched(zsets, cfg, lists) && !cfg.both
    requires forall k :: 0 <= k < |lists| ==> Members(lists[k]) == Asked(zsets, cfg, k).Keys
    ensures Found(cfg, lists) == Kept(cfg, Union(zsets, cfg, |cfg.keys|))
  {
    var f, union := Found(cfg, lists), Union(zsets, cfg, |cfg.keys|);
    forall x
      ensures x in f <==> x in union && IsWanted(cfg, x)
      ensures x in f ==> f[x] == union[x]
    {
      FoundIs(zsets, cfg, lists, x);
    }
    SameMap(f, Kept(cfg, union));
  }

  lemma {:induction false} SameMap(f: ZSet, u: ZSet)
    requires forall x :: x in f <==> x in u
    requires forall x :: x in f ==> f[x] == u[x]
    ensures f == u
  {
  }

  // The found members that x is not better than.
  function NoWorse(u: ZSet, f: ZSet, x: Member, rev: bool): set<Member>
    requires x in u
  {
    set y | y in f && !Before(u[x], f[y], rev)
  }

  predicate Part(f: ZSet, u: ZSet) {
    forall x :: x in f ==> x in u && f[x] == u[x]
  }

  // A page cut from a part f of u is a page of u exactly when every member that is not in f has
  // at least `limit` members of f that it is not better than.
  lemma {:induction false} PageOfPartIff(u: ZSet, f: ZSet, rev: bool, limit: nat, records: seq<Log>)
    requires Part(f, u) && limit > 0 && IsTop(f, rev, limit, records)
    ensures IsTop(u, rev, limit, records) <==> forall x :: x in u && x !in f ==> |NoWorse(u, f, x, rev)| >= limit
  {
    SubsetSize(f.Keys, u.Keys);
    if forall x :: x in u && x !in f ==> |NoWorse(u, f, x, rev)| >= limit {
      OutnumberedIsTop(u, f, rev, limit, records);
    }
    if IsTop(u, rev, limit, records) {
      forall x | x in u && x !in f
        ensures |NoWorse(u, f, x, rev)| >= limit
      {
        TopOutnumbers(u, f, rev, limit, records, x);
      }
    }
  }

  lemma {:induction false} TopOutnumbers(u: ZSet, f: ZSet, rev: bool, limit: nat, records: seq<Log>, x: Member)
    requires Part(f, u) && limit > 0 && IsTop(f, rev, limit, records) && IsTop(u, rev, limit, records)
    requires x in u && x !in f
    ensures |NoWorse(u, f, x, rev)| >= limit
  {
    SubsetSize(f.Keys, u.Keys - {x});
    forall y | y in Members(records)
      ensures y in NoWorse(u, f, x, rev)
    {
      var i :| 0 <= i < |records| && records[i].member == y;
      assert x !in Members(records);
    }
    MembersCount(records);
    SubsetSize(Members(records), NoWorse(u, f, x, rev));
  }

  lemma {:induction false} OutnumberedIsTop(u: ZSet, f: ZSet, rev: bool, limit: nat, records: seq<Log>)
    requires Part(f, u) && limit > 0 && IsTop(f, rev, limit, records)
    requires forall x :: x in u && x !in f ==> |NoWorse(u, f, x, rev)| >= limit
    ensures IsTop(u, rev, limit, records)
  {
    SubsetSize(f.Keys, u.Keys);
    if |f| < |u| {
      SubsetFullOr(f.Keys, u.Keys);
      var x :| x in u && x !in f;
      SubsetSize(NoWorse(u, f, x, rev), f.Keys);
    }
    forall x, i | x in u && x !in Members(records) && 0 <= i < |records|
      ensures !Before(u[x], records[i].score, rev)
    {
      if x !in f {
        PageBeatsOutnumbered(u, f, rev, limit, records, x, i);
      }
    }
  }

  lemma {:induction false} SubsetFullOr(a: set<Member>, b: set<Member>)
    requires a <= b && |a| < |b|
    ensures exists x :: x in b && x !in a
  {
    assert b == a + (b - a);
    var x :| x in b - a;
  }

  // Such a member cannot beat any record: all that it is not better than would have to be on
  // the page beside that record.
  lemma {:induction false} PageBeatsOutnumbered(u: ZSet, f: ZSet, rev: bool, limit: nat, records: seq<Log>,
                                                x: Member, i: nat)
    requires Part(f, u) && limit > 0 && IsTop(f, rev, limit, records) && i < |records|
    requires x in u && x !in f && |NoWorse(u, f, x, rev)| >= limit
    ensures !Before(u[x], records[i].score, rev)
  {
    if Before(u[x], records[i].score, rev) {
      forall y | y in NoWorse(u, f, x, rev)
        ensures y in Members(records) - {records[i].member}
      {
        assert Before(f[y], records[i].score, rev);
      }
      MembersCount(records);
      SubsetSize(NoWorse(u, f, x, rev), Members(records) - {records[i].member});
      assert false;
    }
  }

  // The wanted members that are among the first `limit` under some key.
  function EarlyInAny(zsets: ZSets, cfg: SearchCfg): set<Member> {
    set x | x in Kept(cfg, Union(zsets, cfg, |cfg.keys|)) &&
            exists k :: 0 <= k < |cfg.keys| && IsEarlyUnder(zsets, cfg, k, x)
  }

  lemma {:induction false} WantedIsEarly(zsets: ZSets, cfg: SearchCfg, lists: seq<seq<Log>>, k: nat, x: Member)
    requires Fetched(zsets, cfg, lists) && k < |lists|
    ensures x in Members(Wanted(cfg, lists[k])) <==> IsWanted(cfg, x) && IsEarlyUnder(zsets, cfg, k, x)
  {
    assert FetchedAt(zsets, cfg, k, lists[k]);
    WantedAre(cfg, Asked(zsets, cfg, k), lists[k]);
    FetchedAreEarly(zsets, cfg, k, lists[k]);
  }

  lemma {:induction false} FoundAreEarlyInAny(zsets: ZSets, cfg: SearchCfg, lists: seq<seq<Log>>, x: Member)
    requires Fetched(zsets, cfg, lists) && |lists| == |cfg.keys| && !cfg.both
    ensures x in Found(cfg, lists) <==> x in EarlyInAny(zsets, cfg)
  {
    FoundBelongs(zsets, cfg, lists, x);
    forall k: nat | k < |lists|
      ensures x in Members(Wanted(cfg, lists[k])) <==> IsWanted(cfg, x) && IsEarlyUnder(zsets, cfg, k, x)
    {
      WantedIsEarly(zsets, cfg, lists, k, x);
    }
    var i := FirstIn(cfg, lists, |lists|, x);
    assert i < |lists| ==> IsEarlyUnder(zsets, cfg, i, x);
  }

  // The early members that x is not better than.
  function EarlyNoWorse(zsets: ZSets, cfg: SearchCfg, x: Member): set<Member>
    requires x in Union(zsets, cfg, |cfg.keys|)
  {
    var u := Union(zsets, cfg, |cfg.keys|);
    set y | y in EarlyInAny(zsets, cfg) && !Before(u[x], u[y], cfg.reverse)
  }

  // Each wanted member that is early under no key is no better than `limit` members that are.
  predicate Outnumbered(zsets: ZSets, cfg: SearchCfg) {
    forall x :: x in Kept(cfg, Union(zsets, cfg, |cfg.keys|)) && x !in EarlyInAny(zsets, cfg) ==>
      |EarlyNoWorse(zsets, cfg, x)| >= cfg.limit
  }

  lemma {:induction false} FoundIsEarlyPart(zsets: ZSets, cfg: SearchCfg, lists: seq<seq<Log>>)
    requires Fetched(zsets, cfg, lists) && |lists| == |cfg.keys| && !cfg.both && Consistent(zsets, cfg)
    ensures Found(cfg, lists).Keys == EarlyInAny(zsets, cfg)
    ensures Part(Found(cfg, lists), Kept(cfg, Union(zsets, cfg, |cfg.keys|)))
  {
    forall x
      ensures x in Found(cfg, lists).Keys <==> x in EarlyInAny(zsets, cfg)
    {
      FoundAreEarlyInAny(zsets, cfg, lists, x);
    }
    forall x | x in Found(cfg, lists)
      ensures x in Kept(cfg, Union(zsets, cfg, |cfg.keys|))
      ensures Found(cfg, lists)[x] == Kept(cfg, Union(zsets, cfg, |cfg.keys|))[x]
    {
      FoundBelongs(zsets, cfg, lists, x);
    }
  }

  lemma {:induction false} SameNoWorse(zsets: ZSets, cfg: SearchCfg, u: ZSet, f: ZSet, x: Member)
    requires u == Kept(cfg, Union(zsets, cfg, |cfg.keys|)) && f.Keys == EarlyInAny(zsets, cfg) && Part(f, u) && x in u
    ensures NoWorse(u, f, x, cfg.reverse) == EarlyNoWorse(zsets, cfg, x)
  {
  }

  // With a limit, a search for any of several keys answers the first members of the union
  // exactly when every member left out by all fetches is outnumbered.
  lemma {:induction false} LimitedOrIsExactIff(zsets: ZSets, cfg: SearchCfg, records: seq<Log>)
    requires IsAnswer(zsets, cfg, records) && !cfg.both && |cfg.keys| > 1 && cfg.limit > 0
    requires Consistent(zsets, cfg)
    ensures IsTop(Kept(cfg, Union(zsets, cfg, |cfg.keys|)), cfg.reverse, cfg.limit, records) <==>
        Outnumbered(zsets, cfg)
  {
    var lists :| Fetched(zsets, cfg, lists) && Answers(cfg, lists, records);
    var f, u := Found(cfg, lists), Kept(cfg, Union(zsets, cfg, |cfg.keys|));
    FoundIsEarlyPart(zsets, cfg, lists);
    PageOfPartIff(u, f, cfg.reverse, cfg.limit, records);
    forall x | x in u
      ensures NoWorse(u, f, x, cfg.reverse) == EarlyNoWorse(zsets, cfg, x)
    {
      SameNoWorse(zsets, cfg, u, f, x);
    }
  }

  // No fetch brings a member only to have it skipped.
  predicate NothingSkipped(zsets: ZSets, cfg: SearchCfg) {
    forall k :: 0 <= k < |cfg.keys| ==>
      forall t :: t in Asked(zsets, cfg, k) && IsEarlyUnder(zsets, cfg, k, t) ==> IsWanted(cfg, t)
  }

  // A member its own key's fetch left out is outnumbered by what that fetch brought.
  lemma {:induction false} UnskippedOutnumber(zsets: ZSets, cfg: SearchCfg, lists: seq<seq<Log>>, x: Member)
    requires Fetched(zsets, cfg, lists) && |lists| == |cfg.keys| && cfg.limit > 0
    requires Consistent(zsets, cfg) && NothingSkipped(zsets, cfg)
    requires x in Kept(cfg, Union(zsets, cfg, |cfg.keys|)) && x !in EarlyInAny(zsets, cfg)
    ensures |EarlyNoWorse(zsets, cfg, x)| >= cfg.limit
  {
    UnionIs(zsets, cfg, x);
    var k := FirstKey(zsets, cfg, |cfg.keys|, x);
    var m, l := Asked(zsets, cfg, k), lists[k];
    assert FetchedAt(zsets, cfg, k, l);
    FetchedAreEarly(zsets, cfg, k, l);
    OmittedIsNoBetter(m, l, cfg.reverse, cfg.limit, x);
    forall y | y in Members(l)
      ensures y in EarlyNoWorse(zsets, cfg, x)
    {
      var j :| 0 <= j < |l| && l[j].member == y;
      UnionIs(zsets, cfg, y);
    }
    MembersCount(l);
    SubsetSize(Members(l), EarlyNoWorse(zsets, cfg, x));
  }

  // Fetching `limit` entries per key, merging, sorting and cutting answers the same as
  // sorting and cutting the whole union; without a limit, for any scores and filter.
  lemma {:induction false} OrSearchIsExact(zsets: ZSets, cfg: SearchCfg, records: seq<Log>)
    requires IsAnswer(zsets, cfg, records) && (!cfg.both || |cfg.keys| <= 1)
    requires cfg.limit == 0 || (Consistent(zsets, cfg) && NothingSkipped(zsets, cfg))
    ensures IsTop(Kept(cfg, Union(zsets, cfg, |cfg.keys|)), cfg.reverse, cfg.limit, records)
  {
    if |cfg.keys| == 0 {
      assert records == [];
    } else if |cfg.keys| == 1 {
      assert Union(zsets, cfg, 1) == Asked(zsets, cfg, 0) + Union(zsets, cfg, 0) == Asked(zsets, cfg, 0);
      OneKeySearchExact(zsets, cfg, records);
    } else if cfg.limit == 0 {
      UnlimitedOrIsExact(zsets, cfg, records);
    } else {
      var lists :| Fetched(zsets, cfg, lists) && Answers(cfg, lists, records);
      forall x | x in Kept(cfg, Union(zsets, cfg, |cfg.keys|)) && x !in EarlyInAny(zsets, cfg)
        ensures |EarlyNoWorse(zsets, cfg, x)| >= cfg.limit
      {
        UnskippedOutnumber(zsets, cfg, lists, x);
      }
      LimitedOrIsExactIff(zsets, cfg, records);
    }
  }

  lemma {:induction false} UnlimitedOrIsExact(zsets: ZSets, cfg: SearchCfg, records: seq<Log>)
    requires IsAnswer(zsets, cfg, records) && !cfg.both && |cfg.keys| > 1 && cfg.limit == 0
    ensures IsTop(Kept(cfg, Union(zsets, cfg, |cfg.keys|)), cfg.reverse, 0, records)
  {
    var lists :| Fetched(zsets, cfg, lists) && Answers(cfg, lists, records);
    forall k | 0 <= k < |lists|
      ensures Members(lists[k]) == Asked(zsets, cfg, k).Keys
    {
      assert FetchedAt(zsets, cfg, k, lists[k]);
      ListingCovers(Asked(zsets, cfg, k), lists[k]);
    }
    FoundAll(zsets, cfg, lists);
  }

  const FIRST := OutMember(Outpoint(1, 0))
  const SECOND := OutMember(Outpoint(1, 1))
  const THIRD := OutMember(Outpoint(2, 0))

  // A transaction id takes the place of FIRST in the fetch of key "a".
  function SkippedFirst(): ZSets {
    map["a" := map[TxMember(1) := 5, FIRST := 6], "b" := map[THIRD := 7]]
  }

  // A search for one output under any of the two keys answers THIRD, or nothing, but never FIRST.
  lemma {:induction false} LimitedOrGoesWrong(cfg: SearchCfg, records: seq<Log>)
    requires cfg == SearchCfg(["a", "b"], None, None, 1, false, false, true, false)
    requires IsAnswer(SkippedFirst(), cfg, records)
    ensures FIRST in Kept(cfg, Union(SkippedFirst(), cfg, 2)) && FIRST !in Members(records)
    ensures !IsTop(Kept(cfg, Union(SkippedFirst(), cfg, 2)), false, 1, records)
  {
    SkippedFirstAre(cfg);
    RecordsAreThird(SkippedFirst(), cfg, records);
    NotTop(Kept(cfg, Union(SkippedFirst(), cfg, 2)), records);
  }

  lemma {:induction false} SkippedFirstAre(cfg: SearchCfg)
    requires cfg == SearchCfg(["a", "b"], None, None, 1, false, false, true, false)
    ensures Asked(SkippedFirst(), cfg, 0) == map[TxMember(1) := 5, FIRST := 6]
    ensures Asked(SkippedFirst(), cfg, 1) == map[THIRD := 7]
    ensures FIRST in Union(SkippedFirst(), cfg, 2) && Union(SkippedFirst(), cfg, 2)[FIRST] == 6
  {
    assert Asked(SkippedFirst(), cfg, 0) == map[TxMember(1) := 5, FIRST := 6];
    UnionHas(SkippedFirst(), cfg, 2, 0, FIRST);
  }

  lemma {:induction false} RecordsAreThird(zsets: ZSets, cfg: SearchCfg, records: seq<Log>)
    requires cfg == SearchCfg(["a", "b"], None, None, 1, false, false, true, false) && IsAnswer(zsets, cfg, records)
    requires Asked(zsets, cfg, 0) == map[TxMember(1) := 5, FIRST := 6] && Asked(zsets, cfg, 1) == map[THIRD := 7]
    ensures forall i :: 0 <= i < |records| ==> records[i] == Log(THIRD, 7)
  {
    var lists :| Fetched(zsets, cfg, lists) && Answers(cfg, lists, records);
    assert FetchedAt(zsets, cfg, 0, lists[0]);
    FetchedFirst(Asked(zsets, cfg, 0), TxMember(1), lists[0]);
    forall i | 0 <= i < |records|
      ensures records[i] == Log(THIRD, 7)
    {
      FoundIsThird(zsets, cfg, lists, records[i].member);
    }
  }

  lemma {:induction false} NotTop(u: ZSet, records: seq<Log>)
    requires FIRST in u && u[FIRST] == 6 && forall i :: 0 <= i < |records| ==> records[i] == Log(THIRD, 7)
    ensures FIRST !in Members(records) && !IsTop(u, false, 1, records)
  {
    assert u != map[] && |u| > 0;
    assert records != [] ==> records[0] == Log(THIRD, 7) && Before(u[FIRST], records[0].score, false);
  }

  lemma {:induction false} FoundIsThird(zsets: ZSets, cfg: SearchCfg, lists: seq<seq<Log>>, x: Member)
    requires Fetched(zsets, cfg, lists) && |lists| == |cfg.keys| == 2 && !cfg.both && cfg.outpointsOnly
    requires Members(lists[0]) == {TxMember(1)} && Asked(zsets, cfg, 1) == map[THIRD := 7]
    ensures x in Found(cfg, lists) ==> x == THIRD && Found(cfg, lists)[x] == 7
  {
    FoundBelongs(zsets, cfg, lists, x);
    WantedOfAll(zsets, cfg, lists, x);
  }

  /** Several keys, all of them */

  lemma {:induction false} FoundByAll(zsets: ZSets, cfg: SearchCfg, lists: seq<seq<Log>>, x: Member)
    requires |lists| == |cfg.keys| > 0 && Fetched(zsets, cfg, lists) && cfg.both
    ensures x in Found(cfg, lists) <==> IsWanted(cfg, x) && forall k :: 0 <= k < |lists| ==> x in Members(lists[k])
    ensures x in Found(cfg, lists) ==>
              x in Intersection(zsets, cfg) && Found(cfg, lists)[x] == Intersection(zsets, cfg)[x]
  {
    TallyIs(zsets, cfg, lists, |lists|, x);
    CountFull(cfg, lists, |lists|, x);
    WantedOfAll(zsets, cfg, lists, x);
    assert x in Members(Wanted(cfg, lists[0])) ==> FirstIn(cfg, lists, |lists|, x) == 0;
  }

  lemma {:induction false} WantedOfAll(zsets: ZSets, cfg: SearchCfg, lists: seq<seq<Log>>, x: Member)
    requires Fetched(zsets, cfg, lists)
    ensures forall k :: 0 <= k < |lists| ==>
              && (x in Members(Wanted(cfg, lists[k])) <==> x in Members(lists[k]) && IsWanted(cfg, x))
              && (x in Members(lists[k]) ==> x in Asked(zsets, cfg, k))
  {
    forall k | 0 <= k < |lists|
      ensures x in Members(Wanted(cfg, lists[k])) <==> x in Members(lists[k]) && IsWanted(cfg, x)
      ensures x in Members(lists[k]) ==> x in Asked(zsets, cfg, k)
    {
      assert FetchedAt(zsets, cfg, k, lists[k]);
      WantedAre(cfg, Asked(zsets, cfg, k), lists[k]);
    }
  }

  // Every record of an intersecting search is in the intersection, under its right score.
  lemma {:induction false} AndSearchIsSound(zsets: ZSets, cfg: SearchCfg, records: seq<Log>)
    requires IsAnswer(zsets, cfg, records) && cfg.both && |cfg.keys| > 1
    ensures DistinctMembers(records) && Sorted(records, cfg.reverse)
    ensures Within(Kept(cfg, Intersection(zsets, cfg)), records)
    ensures cfg.limit > 0 ==> |records| <= cfg.limit
  {
    var lists :| Fetched(zsets, cfg, lists) && Answers(cfg, lists, records);
    forall i | 0 <= i < |records|
      ensures var x := records[i].member;
              x in Kept(cfg, Intersection(zsets, cfg)) && Kept(cfg, Intersection(zsets, cfg))[x] == records[i].score
    {
      FoundByAll(zsets, cfg, lists, records[i].member);
    }
  }

  lemma {:induction false} FoundWithin(zsets: ZSets, cfg: SearchCfg, lists: seq<seq<Log>>)
    requires |lists| == |cfg.keys| > 0 && Fetched(zsets, cfg, lists) && cfg.both
    ensures forall x :: x in Found(cfg, lists) ==>
              x in Kept(cfg, Intersection(zsets, cfg)) &&
              Found(cfg, lists)[x] == Kept(cfg, Intersection(zsets, cfg))[x]
    ensures |Found(cfg, lists)| <= |Kept(cfg, Intersection(zsets, cfg))|
  {
    forall x | x in Found(cfg, lists)
      ensures x in Kept(cfg, Intersection(zsets, cfg))
      ensures Found(cfg, lists)[x] == Kept(cfg, Intersection(zsets, cfg))[x]
    {
      FoundByAll(zsets, cfg, lists, x);
    }
    SubsetSize(Found(cfg, lists).Keys, Kept(cfg, Intersection(zsets, cfg)).Keys);
  }

  // Without a limit the answer is the whole intersection, scored by the first key.
  lemma {:induction false} AndSearchIsExact(zsets: ZSets, cfg: SearchCfg, records: seq<Log>)
    requires IsAnswer(zsets, cfg, records) && cfg.both && |cfg.keys| > 1 && cfg.limit == 0
    ensures IsTop(Kept(cfg, Intersection(zsets, cfg)), cfg.reverse, 0, records)
  {
    var lists :| Fetched(zsets, cfg, lists) && Answers(cfg, lists, records);
    var f, i := Found(cfg, lists), Kept(cfg, Intersection(zsets, cfg));
    FoundWithin(zsets, cfg, lists);
    forall x | x in i
      ensures x in f
    {
      forall k | 0 <= k < |lists|
        ensures x in Members(lists[k])
      {
        assert x in Asked(zsets, cfg, k);
        ListingCovers(Asked(zsets, cfg, k), lists[k]);
      }
      FoundByAll(zsets, cfg, lists, x);
    }
    SameMap(f, i);
  }

  // The wanted members of the intersection that are among the first `limit` under every key.
  function EarlyInAll(zsets: ZSets, cfg: SearchCfg): set<Member>
    requires |cfg.keys| > 0
  {
    set x | x in Kept(cfg, Intersection(zsets, cfg)) &&
            forall k :: 0 <= k < |cfg.keys| ==> IsEarlyUnder(zsets, cfg, k, x)
  }

  lemma {:induction false} FoundAreEarlyInAll(zsets: ZSets, cfg: SearchCfg, lists: seq<seq<Log>>, x: Member)
    requires |lists| == |cfg.keys| > 0 && Fetched(zsets, cfg, lists) && cfg.both
    ensures x in Found(cfg, lists) <==> x in EarlyInAll(zsets, cfg)
  {
    FoundByAll(zsets, cfg, lists, x);
    forall k | 0 <= k < |lists|
      ensures x in Members(lists[k]) <==> IsEarlyUnder(zsets, cfg, k, x)
    {
      assert FetchedAt(zsets, cfg, k, lists[k]);
      FetchedAreEarly(zsets, cfg, k, lists[k]);
    }
  }

  // With a limit, members of the intersection can hide behind others that only one key has: the
  // answer is right exactly when a page of them is early under every key.
  lemma {:induction false} LimitedAndIsExactIff(zsets: ZSets, cfg: SearchCfg, records: seq<Log>)
    requires IsAnswer(zsets, cfg, records) && cfg.both && |cfg.keys| > 1 && cfg.limit > 0
    requires Consistent(zsets, cfg)
    ensures IsTop(Kept(cfg, Intersection(zsets, cfg)), cfg.reverse, cfg.limit, records) <==>
              |EarlyInAll(zsets, cfg)| >= PageSize(cfg.limit, |Kept(cfg, Intersection(zsets, cfg))|)
  {
    var lists :| Fetched(zsets, cfg, lists) && Answers(cfg, lists, records);
    var f, all := Found(cfg, lists), Kept(cfg, Intersection(zsets, cfg));
    FoundIsEarlyInAll(zsets, cfg, lists);
    PageOfPartIff(all, f, cfg.reverse, cfg.limit, records);
    forall x | x in all && x !in f
      ensures NoWorse(all, f, x, cfg.reverse) == f.Keys
    {
      HiddenBehindAll(zsets, cfg, lists, x);
    }
    FullOrWhole(f.Keys, all.Keys, cfg.limit);
  }

  lemma {:induction false} FoundIsEarlyInAll(zsets: ZSets, cfg: SearchCfg, lists: seq<seq<Log>>)
    requires |lists| == |cfg.keys| > 0 && Fetched(zsets, cfg, lists) && cfg.both
    ensures Found(cfg, lists).Keys == EarlyInAll(zsets, cfg)
    ensures Part(Found(cfg, lists), Kept(cfg, Intersection(zsets, cfg)))
  {
    FoundWithin(zsets, cfg, lists);
    forall x
      ensures x in Found(cfg, lists).Keys <==> x in EarlyInAll(zsets, cfg)
    {
      FoundAreEarlyInAll(zsets, cfg, lists, x);
    }
  }

  lemma {:induction false} FullOrWhole(f: set<Member>, all: set<Member>, limit: nat)
    requires f <= all && limit > 0
    ensures |f| >= PageSize(limit, |all|) <==> |f| >= limit || f == all
  {
    SubsetSize(f, all);
    if |f| == |all| {
      SubsetFull(f, all);
    }
  }

  lemma {:induction false} HiddenBehindAll(zsets: ZSets, cfg: SearchCfg, lists: seq<seq<Log>>, x: Member)
    requires |lists| == |cfg.keys| > 0 && Fetched(zsets, cfg, lists) && cfg.both && Consistent(zsets, cfg)
    requires x in Kept(cfg, Intersection(zsets, cfg)) && x !in Found(cfg, lists)
    ensures NoWorse(Kept(cfg, Intersection(zsets, cfg)), Found(cfg, lists), x, cfg.reverse) == Found(cfg, lists).Keys
  {
    forall y | y in Found(cfg, lists)
      ensures !Before(Intersection(zsets, cfg)[x], Found(cfg, lists)[y], cfg.reverse)
    {
      HiddenIsNoBetter(zsets, cfg, lists, x, y);
    }
  }

  lemma {:induction false} HiddenIsNoBetter(zsets: ZSets, cfg: SearchCfg, lists: seq<seq<Log>>, x: Member, y: Member)
    requires |lists| == |cfg.keys| > 0 && Fetched(zsets, cfg, lists) && cfg.both && Consistent(zsets, cfg)
    requires x in Kept(cfg, Intersection(zsets, cfg)) && x !in Found(cfg, lists) && y in Found(cfg, lists)
    ensures !Before(Intersection(zsets, cfg)[x], Found(cfg, lists)[y], cfg.reverse)
  {
    FoundByAll(zsets, cfg, lists, x);
    FoundByAll(zsets, cfg, lists, y);
    var k :| 0 <= k < |lists| && x !in Members(lists[k]);
    assert FetchedAt(zsets, cfg, k, lists[k]);
    assert x in Asked(zsets, cfg, k) && x in Asked(zsets, cfg, 0) && y in Asked(zsets, cfg, 0);
    OmittedIsNoBetter(Asked(zsets, cfg, k), lists[k], cfg.reverse, cfg.limit, x);
    var j :| 0 <= j < |lists[k]| && lists[k][j].member == y;
  }

  // The first is under key "a" only, the second under both, the third under "b".
  function ThreeOutputs(): ZSets {
    map["a" := map[FIRST := 5, SECOND := 7], "b" := map[SECOND := 7, THIRD := 6]]
  }

  // A search for both keys limited to one record answers nothing, although SECOND is under both.
  lemma {:induction false} LimitedAndGoesWrong(cfg: SearchCfg, records: seq<Log>)
    requires cfg == SearchCfg(["a", "b"], None, None, 1, true, false, false, false)
    ensures Consistent(ThreeOutputs(), cfg) && SECOND in Intersection(ThreeOutputs(), cfg)
    ensures IsAnswer(ThreeOutputs(), cfg, records) ==> records == []
  {
    ThreeOutputsAre(cfg);
    if IsAnswer(ThreeOutputs(), cfg, records) {
      NothingInBoth(ThreeOutputs(), cfg, records);
    }
  }

  lemma {:induction false} ThreeOutputsAre(cfg: SearchCfg)
    requires cfg == SearchCfg(["a", "b"], None, None, 1, true, false, false, false)
    ensures Asked(ThreeOutputs(), cfg, 0) == map[FIRST := 5, SECOND := 7]
    ensures Asked(ThreeOutputs(), cfg, 1) == map[SECOND := 7, THIRD := 6]
    ensures Consistent(ThreeOutputs(), cfg) && SECOND in Intersection(ThreeOutputs(), cfg)
  {
    assert Asked(ThreeOutputs(), cfg, 0) == map[FIRST := 5, SECOND := 7];
    assert Asked(ThreeOutputs(), cfg, 1) == map[SECOND := 7, THIRD := 6];
  }

  lemma {:induction false} NothingInBoth(zsets: ZSets, cfg: SearchCfg, records: seq<Log>)
    requires cfg == SearchCfg(["a", "b"], None, None, 1, true, false, false, false) && IsAnswer(zsets, cfg, records)
    requires Asked(zsets, cfg, 0) == map[FIRST := 5, SECOND := 7]
    requires Asked(zsets, cfg, 1) == map[SECOND := 7, THIRD := 6]
    ensures records == []
  {
    var lists :| Fetched(zsets, cfg, lists) && Answers(cfg, lists, records);
    FirstsFetched(zsets, cfg, lists);
    if records != [] {
      RecordsAreFound(cfg, lists, records);
      NotInBoth(zsets, cfg, lists, records[0].member);
    }
  }

  lemma {:induction false} RecordsAreFound(cfg: SearchCfg, lists: seq<seq<Log>>, records: seq<Log>)
    requires Answers(cfg, lists, records) && |cfg.keys| > 1
    ensures forall i :: 0 <= i < |records| ==> records[i].member in Found(cfg, lists)
  {
  }

  lemma {:induction false} FirstsFetched(zsets: ZSets, cfg: SearchCfg, lists: seq<seq<Log>>)
    requires cfg == SearchCfg(["a", "b"], None, None, 1, true, false, false, false)
    requires Fetched(zsets, cfg, lists) && |lists| == 2
    requires Asked(zsets, cfg, 0) == map[FIRST := 5, SECOND := 7]
    requires Asked(zsets, cfg, 1) == map[SECOND := 7, THIRD := 6]
    ensures Members(lists[0]) == {FIRST} && Members(lists[1]) == {THIRD}
  {
    assert FetchedAt(zsets, cfg, 0, lists[0]) && FetchedAt(zsets, cfg, 1, lists[1]);
    FetchedFirst(Asked(zsets, cfg, 0), FIRST, lists[0]);
    FetchedFirst(Asked(zsets, cfg, 1), THIRD, lists[1]);
  }

  lemma {:induction false} NotInBoth(zsets: ZSets, cfg: SearchCfg, lists: seq<seq<Log>>, x: Member)
    requires |lists| == |cfg.keys| == 2 && Fetched(zsets, cfg, lists) && cfg.both
    requires Members(lists[0]) == {FIRST} && Members(lists[1]) == {THIRD}
    ensures x !in Found(cfg, lists)
  {
    FoundByAll(zsets, cfg, lists, x);
  }
}
