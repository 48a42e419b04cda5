// Sorted sets of scored members, as Redis keeps them, and limited queries on them.
// Scores are integers: every score the program writes is one.
module SortedSets {
  import opened Common
  import Text = Outpoints

  // A member is a transaction id (64 characters) or a printed outpoint (longer).
  datatype Member = TxMember(txid: nat) | OutMember(o: Outpoint)

  type ZSet = map<Member, int>

  datatype Log = Log(member: Member, score: int)

  // a comes strictly before b in the order asked for.
  predicate Before(a: int, b: int, rev: bool) {
    if rev then a > b else a < b
  }

  predicate Sorted(rs: seq<Log>, rev: bool) {
    forall i, j :: 0 <= i < j < |rs| ==> !Before(rs[j].score, rs[i].score, rev)
  }

  predicate DistinctMembers(rs: seq<Log>) {
    forall i, j :: 0 <= i < j < |rs| ==> rs[i].member != rs[j].member
  }

  function Members(rs: seq<Log>): set<Member> {
    set i | 0 <= i < |rs| :: rs[i].member
  }

  predicate Within(m: ZSet, rs: seq<Log>) {
    forall i :: 0 <= i < |rs| ==> rs[i].member in m && m[rs[i].member] == rs[i].score
  }

  // rs holds every entry of m once.
  predicate Lists(m: ZSet, rs: seq<Log>) {
    DistinctMembers(rs) && Within(m, rs) && |rs| == |m|
  }

  // rs holds the first `limit` entries of m in order (all of them when limit is 0).
  predicate IsTop(m: ZSet, rev: bool, limit: nat, rs: seq<Log>) {
    && DistinctMembers(rs) && Within(m, rs) && Sorted(rs, rev)
    && |rs| == (if limit == 0 || |m| <= limit then |m| else limit)
    && forall x, i :: x in m && x !in Members(rs) && 0 <= i < |rs| ==> !Before(m[x], rs[i].score, rev)
  }

  function Truncate(rs: seq<Log>, limit: nat): seq<Log> {
    if limit > 0 && |rs| > limit then rs[..limit] else rs
  }

  lemma {:induction false} MembersCount(rs: seq<Log>)
    requires DistinctMembers(rs)
    ensures |Members(rs)| == |rs|
  {
    if rs == [] {
      assert Members(rs) == {};
    } else {
      var n := |rs| - 1;
      MembersCount(rs[..n]);
      assert Members(rs) == Members(rs[..n]) + {rs[n].member};
    }
  }

  lemma {:induction false} SubsetSize<T>(a: set<T>, b: set<T>)
    requires a <= b
    ensures |a| <= |b|
  {
    assert b == a + (b - a);
  }

  lemma {:induction false} SubsetFull<T>(a: set<T>, b: set<T>)
    requires a <= b && |a| >= |b|
    ensures a == b
  {
    assert b == a + (b - a);
    assert |b - a| == 0;
  }

  // A listing misses nothing.
  lemma {:induction false} ListingCovers(m: ZSet, rs: seq<Log>)
    requires DistinctMembers(rs) && Within(m, rs) && |rs| >= |m|
    ensures Members(rs) == m.Keys
  {
    MembersCount(rs);
    SubsetFull(Members(rs), m.Keys);
  }

  // Cutting off a sorted listing leaves the top.
  lemma {:induction false} TruncatedListingIsTop(m: ZSet, rev: bool, limit: nat, rs: seq<Log>)
    requires Lists(m, rs) && Sorted(rs, rev)
    ensures IsTop(m, rev, limit, Truncate(rs, limit))
  {
    var r := Truncate(rs, limit);
    ListingCovers(m, rs);
    assert forall k :: 0 <= k < |r| ==> rs[k] == r[k] && rs[k].member in Members(r);
    forall x, i | x in m && x !in Members(r) && 0 <= i < |r|
      ensures !Before(m[x], r[i].score, rev)
    {
      var k :| 0 <= k < |rs| && rs[k].member == x;
    }
  }

  /** Sorting a listing */

  method Insert(rs: seq<Log>, e: Log, rev: bool, ghost m: ZSet) returns (s: seq<Log>)
    requires Lists(m, rs) && Sorted(rs, rev) && e.member !in m
    ensures Lists(m[e.member := e.score], s) && Sorted(s, rev)
  {
    var k := |rs|;
    while k > 0 && Before(e.score, rs[k - 1].score, rev)
      invariant 0 <= k <= |rs|
      invariant forall i :: k <= i < |rs| ==> Before(e.score, rs[i].score, rev)
    {
      k := k - 1;
    }
    s := rs[..k] + [e] + rs[k..];
    assert forall i :: 0 <= i < |s| ==> s[i] == if i < k then rs[i] else if i == k then e else rs[i - 1];
  }

  lemma {:induction false} MembersSnoc(rs: seq<Log>, e: Log)
    ensures Members(rs + [e]) == Members(rs) + {e.member}
  {
    var s := rs + [e];
    assert s[|rs|] == e;
    assert forall i :: 0 <= i < |rs| ==> s[i] == rs[i];
  }

  // The part of m that the first i entries of a listing cover.
  ghost function Seen(m: ZSet, rs: seq<Log>, i: nat): ZSet
    requires i <= |rs| && Within(m, rs)
  {
    map x | x in m && x in Members(rs[..i]) :: m[x]
  }

  lemma {:induction false} SeenNext(m: ZSet, rs: seq<Log>, i: nat)
    requires i < |rs| && Lists(m, rs)
    ensures rs[i].member !in Seen(m, rs, i)
    ensures Seen(m, rs, i)[rs[i].member := rs[i].score] == Seen(m, rs, i + 1)
  {
    MembersSnoc(rs[..i], rs[i]);
    assert rs[..i + 1] == rs[..i] + [rs[i]];
  }

  method SortListing(rs: seq<Log>, rev: bool, ghost m: ZSet) returns (s: seq<Log>)
    requires Lists(m, rs)
    ensures Lists(m, s) && Sorted(s, rev)
  {
    s := [];
    for i := 0 to |rs|
      invariant Lists(Seen(m, rs, i), s) && Sorted(s, rev)
    {
      SeenNext(m, rs, i);
      s := Insert(s, rs[i], rev, Seen(m, rs, i));
    }
    assert rs[..|rs|] == rs;
    ListingCovers(m, rs);
    assert Seen(m, rs, |rs|) == m;
  }

  predicate Covers(m: ZSet, rs: seq<Log>, members: set<Member>) {
    DistinctMembers(rs) && Within(m, rs) && Members(rs) == members
  }

  lemma {:induction false} CoversMore(m: ZSet, rs: seq<Log>, members: set<Member>, x: Member)
    requires Covers(m, rs, members) && x in m && x !in members
    ensures Covers(m, rs + [Log(x, m[x])], members + {x})
  {
    MembersSnoc(rs, Log(x, m[x]));
    assert forall i :: 0 <= i < |rs| ==> rs[i].member in Members(rs);
  }

  // The entries of m in some order.
  method Entries(m: ZSet) returns (rs: seq<Log>)
    ensures Lists(m, rs)
  {
    rs := [];
    var rest := m.Keys;
    while rest != {}
      invariant rest <= m.Keys && Covers(m, rs, m.Keys - rest)
    {
      var x :| x in rest;
      CoversMore(m, rs, m.Keys - rest, x);
      rs := rs + [Log(x, m[x])];
      assert m.Keys - rest + {x} == m.Keys - (rest - {x});
      rest := rest - {x};
    }
    MembersCount(rs);
  }

  /** The order of entries with equal scores */

  // Strings compare character by character; a prefix comes first.
  predicate TextLess(a: string, b: string) {
    if a == [] then b != []
    else b != [] && (a[0] < b[0] || (a[0] == b[0] && TextLess(a[1..], b[1..])))
  }

  lemma {:induction false} TextTotal(a: string, b: string)
    ensures TextLess(a, b) || TextLess(b, a) || a == b
    ensures !(TextLess(a, b) && TextLess(b, a)) && !TextLess(a, a)
  {
    if a != [] {
      TextTotal(a[1..], a[1..]);
      if b != [] {
        TextTotal(a[1..], b[1..]);
        assert a[0] == b[0] && a[1..] == b[1..] ==> [a[0]] + a[1..] == [b[0]] + b[1..];
        assert a == [a[0]] + a[1..] && b == [b[0]] + b[1..];
      }
    }
  }

  lemma {:induction false} TextTransitive(a: string, b: string, c: string)
    requires TextLess(a, b) && TextLess(b, c)
    ensures TextLess(a, c)
  {
    if a != [] && a[0] == b[0] == c[0] {
      TextTransitive(a[1..], b[1..], c[1..]);
    }
  }

  function TxidOf(m: Member): nat {
    match m
    case TxMember(t) => t
    case OutMember(o) => o.txid
  }

  // What a member prints as after the digits of its transaction, which are of fixed length.
  function Rest(m: Member): string {
    match m
    case TxMember(_) => ""
    case OutMember(o) => "_" + Text.Decimal(o.vout)
  }

  predicate MemberLess(x: Member, y: Member) {
    TxidOf(x) < TxidOf(y) || (TxidOf(x) == TxidOf(y) && TextLess(Rest(x), Rest(y)))
  }

  lemma {:induction false} RestDiffers(x: Member, y: Member)
    requires TxidOf(x) == TxidOf(y) && Rest(x) == Rest(y)
    ensures x == y
  {
    if x.OutMember? && y.OutMember? {
      assert Rest(x)[1..] == Text.Decimal(x.o.vout) && Rest(y)[1..] == Text.Decimal(y.o.vout);
      Text.DecimalReads(x.o.vout);
      Text.DecimalReads(y.o.vout);
    }
  }

  // a comes before b in a range: by score, then by member.
  predicate Comes(a: Log, b: Log, rev: bool) {
    || Before(a.score, b.score, rev)
    || (a.score == b.score && if rev then MemberLess(b.member, a.member) else MemberLess(a.member, b.member))
  }

  lemma {:induction false} ComesTotal(a: Log, b: Log, rev: bool)
    ensures a.member != b.member ==> Comes(a, b, rev) || Comes(b, a, rev)
    ensures !(Comes(a, b, rev) && Comes(b, a, rev))
  {
    TextTotal(Rest(a.member), Rest(b.member));
    if TxidOf(a.member) == TxidOf(b.member) && Rest(a.member) == Rest(b.member) {
      RestDiffers(a.member, b.member);
    }
  }

  lemma {:induction false} ComesTransitive(a: Log, b: Log, c: Log, rev: bool)
    requires Comes(a, b, rev) && Comes(b, c, rev)
    ensures Comes(a, c, rev)
  {
    var x, y, z := Rest(a.member), Rest(b.member), Rest(c.member);
    if TextLess(x, y) && TextLess(y, z) {
      TextTransitive(x, y, z);
    }
    if TextLess(z, y) && TextLess(y, x) {
      TextTransitive(z, y, x);
    }
  }

  function EntryOf(m: ZSet, x: Member): Log
    requires x in m
  {
    Log(x, m[x])
  }

  // rs is in strict order, and everything it leaves out comes after it.
  predicate InOrder(m: ZSet, rev: bool, rs: seq<Log>) {
    && (forall i, j :: 0 <= i < j < |rs| ==> Comes(rs[i], rs[j], rev))
    && (forall x, i :: x in m && x !in Members(rs) && 0 <= i < |rs| ==> Comes(rs[i], EntryOf(m, x), rev))
  }

  // The members ahead of x.
  function Ahead(m: ZSet, x: Member, rev: bool): set<Member>
    requires x in m
  {
    set y | y in m && Comes(EntryOf(m, y), EntryOf(m, x), rev)
  }

  // A limited range brings exactly the members with fewer than `limit` ahead of them.
  lemma {:induction false} FetchedIffEarly(m: ZSet, rev: bool, limit: nat, l: seq<Log>, x: Member)
    requires IsTop(m, rev, limit, l) && InOrder(m, rev, l) && x in m
    ensures x in Members(l) <==> limit == 0 || |Ahead(m, x, rev)| < limit
  {
    MembersCount(l);
    if |l| == |m| {
      ListingCovers(m, l);
    }
    if x in Members(l) {
      var i :| 0 <= i < |l| && l[i].member == x;
      FetchedAheadOf(m, rev, l, i);
      MembersCount(l[..i]);
    } else {
      forall y | y in Members(l)
        ensures y in Ahead(m, x, rev)
      {
        var i :| 0 <= i < |l| && l[i].member == y;
        assert l[i] == EntryOf(m, y);
      }
      SubsetSize(Members(l), Ahead(m, x, rev));
    }
  }

  lemma {:induction false} FetchedAheadOf(m: ZSet, rev: bool, l: seq<Log>, i: nat)
    requires DistinctMembers(l) && Within(m, l) && InOrder(m, rev, l) && i < |l|
    ensures Ahead(m, l[i].member, rev) == Members(l[..i])
  {
    var x := l[i].member;
    assert EntryOf(m, x) == l[i];
    forall y
      ensures y in Ahead(m, x, rev) <==> y in Members(l[..i])
    {
      if y in Ahead(m, x, rev) {
        ComesTotal(EntryOf(m, y), l[i], rev);
        assert y in Members(l);
        var j :| 0 <= j < |l| && l[j].member == y;
        assert l[j] == EntryOf(m, y);
        assert j < i;
        assert l[..i][j] == l[j];
      }
      if y in Members(l[..i]) {
        var j :| 0 <= j < i && l[..i][j].member == y;
        assert l[j] == EntryOf(m, y);
      }
    }
  }

  predicate IsLeast(m: ZSet, rev: bool, rest: set<Member>, x: Member)
    requires rest <= m.Keys && x in rest
  {
    forall y :: y in rest && y != x ==> Comes(EntryOf(m, x), EntryOf(m, y), rev)
  }

  lemma {:induction false} LeastExists(m: ZSet, rev: bool, rest: set<Member>)
    requires rest <= m.Keys && rest != {}
    ensures exists x :: x in rest && IsLeast(m, rev, rest, x)
    decreases |rest|
  {
    var z :| z in rest;
    if rest == {z} {
      assert IsLeast(m, rev, rest, z);
    } else {
      assert rest - {z} != {};
      LeastExists(m, rev, rest - {z});
      var x :| x in rest - {z} && IsLeast(m, rev, rest - {z}, x);
      ComesTotal(EntryOf(m, x), EntryOf(m, z), rev);
      if Comes(EntryOf(m, x), EntryOf(m, z), rev) {
        assert IsLeast(m, rev, rest, x);
      } else {
        forall y | y in rest && y != z
          ensures Comes(EntryOf(m, z), EntryOf(m, y), rev)
        {
          if y != x {
            ComesTransitive(EntryOf(m, z), EntryOf(m, x), EntryOf(m, y), rev);
          }
        }
        assert IsLeast(m, rev, rest, z);
      }
    }
  }

  // rs lists everything but `rest`, in order and ahead of it.
  predicate Taken(m: ZSet, rev: bool, rs: seq<Log>, rest: set<Member>)
    requires rest <= m.Keys
  {
    && Covers(m, rs, m.Keys - rest)
    && (forall i, j :: 0 <= i < j < |rs| ==> Comes(rs[i], rs[j], rev))
    && (forall x, i :: x in rest && 0 <= i < |rs| ==> Comes(rs[i], EntryOf(m, x), rev))
  }

  lemma {:induction false} TakenNext(m: ZSet, rev: bool, rs: seq<Log>, rest: set<Member>, x: Member)
    requires rest <= m.Keys && Taken(m, rev, rs, rest) && x in rest && IsLeast(m, rev, rest, x)
    ensures Taken(m, rev, rs + [Log(x, m[x])], rest - {x})
  {
    CoversMore(m, rs, m.Keys - rest, x);
    assert m.Keys - rest + {x} == m.Keys - (rest - {x});
  }

  lemma {:induction false} TakenSize(m: ZSet, rs: seq<Log>, rest: set<Member>, limit: nat)
    requires rest <= m.Keys && Covers(m, rs, m.Keys - rest)
    requires rest == {} || (limit > 0 && |rs| == limit)
    requires limit > 0 ==> |rs| <= limit
    ensures |rs| == if limit == 0 || |m| <= limit then |m| else limit
  {
    MembersCount(rs);
    SubsetSize(m.Keys - rest, m.Keys);
    if rest == {} {
      assert m.Keys - rest == m.Keys;
    }
  }

  lemma {:induction false} TakenIsSorted(m: ZSet, rev: bool, rs: seq<Log>, rest: set<Member>)
    requires rest <= m.Keys && Taken(m, rev, rs, rest)
    ensures Sorted(rs, rev) && InOrder(m, rev, rs)
  {
    forall i, j | 0 <= i < j < |rs|
      ensures !Before(rs[j].score, rs[i].score, rev)
    {
      assert Comes(rs[i], rs[j], rev);
    }
  }

  lemma {:induction false} TakenIsTop(m: ZSet, rev: bool, rs: seq<Log>, rest: set<Member>, limit: nat)
    requires rest <= m.Keys && Taken(m, rev, rs, rest) && (limit > 0 ==> |rs| <= limit)
    requires rest == {} || (limit > 0 && |rs| == limit)
    ensures IsTop(m, rev, limit, rs) && InOrder(m, rev, rs)
  {
    TakenSize(m, rs, rest, limit);
    TakenIsSorted(m, rev, rs, rest);
    forall x, i | x in m && x !in Members(rs) && 0 <= i < |rs|
      ensures !Before(m[x], rs[i].score, rev)
    {
      assert Comes(rs[i], EntryOf(m, x), rev);
    }
  }

  /** Range queries */

  datatype Bound = Open(score: int) | Infinite

  datatype Query = Query(min: Bound, max: Bound, count: nat)

  predicate Admits(q: Query, score: int) {
    (q.min.Open? ==> score > q.min.score) && (q.max.Open? ==> score < q.max.score)
  }

  function Window(z: ZSet, q: Query): ZSet {
    map x | x in z && Admits(q, z[x]) :: z[x]
  }

  // ZRANGEBYSCORE / ZREVRANGEBYSCORE ... WITHSCORES LIMIT 0 count: the next entry is always the
  // least of the rest.
  method ZRange(z: ZSet, q: Query, rev: bool) returns (rs: seq<Log>)
    ensures IsTop(Window(z, q), rev, q.count, rs) && InOrder(Window(z, q), rev, rs)
  {
    var m := Window(z, q);
    rs := [];
    var rest := m.Keys;
    while rest != {} && (q.count == 0 || |rs| < q.count)
      invariant rest <= m.Keys && Taken(m, rev, rs, rest) && (q.count > 0 ==> |rs| <= q.count)
    {
      LeastExists(m, rev, rest);
      var x :| x in rest && IsLeast(m, rev, rest, x);
      TakenNext(m, rev, rs, rest, x);
      rs, rest := rs + [Log(x, m[x])], rest - {x};
    }
    TakenIsTop(m, rev, rs, rest, q.count);
  }
}
