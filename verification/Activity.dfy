// Grouping of search results by transaction (idx/redis-store/search.go and
// idx/pg-store/search.go, SearchTxns): records are gathered by score.
module Activity {
  import opened Common
  import opened SortedSets
  import opened Scores

  datatype TxResult = TxResult(txid: nat, height: nat, idx: nat, outputs: set<nat>, score: nat)

  // Scores are not negative: they come from HeightScore.
  datatype Record = Record(member: Member, score: nat)

  function ScoresOf(rs: seq<Record>): set<nat> {
    set i | 0 <= i < |rs| :: rs[i].score
  }

  // The vouts among the records of one score.
  function VoutsAt(rs: seq<Record>, score: nat): set<nat> {
    set i | 0 <= i < |rs| && rs[i].score == score && rs[i].member.OutMember? :: rs[i].member.o.vout
  }

  // The transaction named by the first record of that score.
  function FirstTxid(rs: seq<Record>, score: nat): nat {
    if rs == [] then 0
    else if score in ScoresOf(rs[..|rs| - 1]) then FirstTxid(rs[..|rs| - 1], score)
    else TxidOf(rs[|rs| - 1].member)
  }

  function Group(rs: seq<Record>, score: nat): TxResult {
    TxResult(FirstTxid(rs, score), DecodedHeight(score), DecodedIdx(score), VoutsAt(rs, score), score)
  }

  predicate Ascending(scores: seq<nat>) {
    forall i, j :: 0 <= i < j < |scores| ==> scores[i] < scores[j]
  }

  // One group per score, in order.
  predicate Groups(rs: seq<Record>, results: seq<TxResult>) {
    && (forall i, j :: 0 <= i < j < |results| ==> results[i].score < results[j].score)
    && (forall i :: 0 <= i < |results| ==>
        results[i].score in ScoresOf(rs) && results[i] == Group(rs, results[i].score))
    && (forall s :: s in ScoresOf(rs) ==> exists i :: 0 <= i < |results| && results[i].score == s)
  }

  lemma {:induction false} GroupsNext(rs: seq<Record>, e: Record, score: nat)
    ensures ScoresOf(rs + [e]) == ScoresOf(rs) + {e.score}
    ensures score != e.score && score in ScoresOf(rs) ==> Group(rs + [e], score) == Group(rs, score)
    ensures VoutsAt(rs + [e], e.score) == VoutsAt(rs, e.score) + (if e.member.OutMember? then {e.member.o.vout} else {})
    ensures FirstTxid(rs + [e], e.score) == if e.score in ScoresOf(rs) then FirstTxid(rs, e.score) else TxidOf(e.member)
  {
    var all := rs + [e];
    assert all[..|all| - 1] == rs;
    assert all[|rs|] == e && forall i :: 0 <= i < |rs| ==> all[i] == rs[i];
    VoutsNext(rs, e, e.score);
    VoutsNext(rs, e, score);
  }

  lemma {:induction false} VoutsNext(rs: seq<Record>, e: Record, score: nat)
    ensures VoutsAt(rs + [e], score) ==
            VoutsAt(rs, score) + (if e.member.OutMember? && e.score == score then {e.member.o.vout} else {})
  {
    var all := rs + [e];
    assert all[|rs|] == e && forall i :: 0 <= i < |rs| ==> all[i] == rs[i];
  }

  lemma {:induction false} NoVouts(rs: seq<Record>, score: nat)
    requires score !in ScoresOf(rs)
    ensures VoutsAt(rs, score) == {}
  {
  }

  function GroupMap(rs: seq<Record>): map<nat, TxResult> {
    map s | s in ScoresOf(rs) :: Group(rs, s)
  }

  // The scores of the records, each once.
  predicate Lists(rs: seq<Record>, scores: seq<nat>) {
    Elems(scores) == ScoresOf(rs) && Distinct(scores)
  }

  lemma {:induction false} ListsNext(rs: seq<Record>, item: Record, scores: seq<nat>)
    requires Lists(rs, scores)
    ensures Lists(rs + [item], if item.score in ScoresOf(rs) then scores else scores + [item.score])
  {
    GroupsNext(rs, item, item.score);
    ElemsSnoc(scores, item.score);
    assert forall i :: 0 <= i < |scores| ==> scores[i] in scores;
  }

  // Gathers the records by score.
  method Gather(rs: seq<Record>) returns (groups: map<nat, TxResult>, scores: seq<nat>)
    ensures groups == GroupMap(rs) && Lists(rs, scores)
  {
    groups, scores := map[], [];
    for n: nat := 0 to |rs|
      invariant groups == GroupMap(rs[..n]) && Lists(rs[..n], scores)
    {
      groups, scores := GatherOne(rs[..n], rs[n], groups, scores);
      assert rs[..n + 1] == rs[..n] + [rs[n]];
    }
    assert rs[..|rs|] == rs;
  }

  method GatherOne(ghost rs: seq<Record>, item: Record, groups: map<nat, TxResult>, scores: seq<nat>)
      returns (groups': map<nat, TxResult>, scores': seq<nat>)
    requires groups == GroupMap(rs) && Lists(rs, scores)
    ensures groups' == GroupMap(rs + [item]) && Lists(rs + [item], scores')
  {
    scores' := scores;
    GroupsAfter(rs, item);
    ListsNext(rs, item, scores);
    var result: TxResult;
    if item.score in groups {
      result := groups[item.score];
    } else {
      result := TxResult(TxidOf(item.member), DecodedHeight(item.score), DecodedIdx(item.score), {}, item.score);
      scores' := scores' + [item.score];
    }
    if item.member.OutMember? {
      result := result.(outputs := result.outputs + {item.member.o.vout});
    }
    assert result == Group(rs + [item], item.score);
    groups' := groups[item.score := result];
  }

  // Only the group of the new record changes.
  lemma {:induction false} GroupsAfter(rs: seq<Record>, item: Record)
    ensures GroupMap(rs + [item]) == GroupMap(rs)[item.score := Group(rs + [item], item.score)]
    ensures var more := if item.member.OutMember? then {item.member.o.vout} else {};
            Group(rs + [item], item.score) ==
            if item.score in ScoresOf(rs) then Group(rs, item.score).(outputs := Group(rs, item.score).outputs + more)
            else TxResult(TxidOf(item.member), DecodedHeight(item.score), DecodedIdx(item.score), more, item.score)
    ensures ScoresOf(rs + [item]) == ScoresOf(rs) + {item.score}
  {
    GroupsNext(rs, item, item.score);
    if item.score !in ScoresOf(rs) {
      NoVouts(rs, item.score);
    }
    forall s | s in ScoresOf(rs)
      ensures s != item.score ==> Group(rs + [item], s) == Group(rs, s)
    {
      GroupsNext(rs, item, s);
    }
  }

  method Sort(scores: seq<nat>) returns (sorted: seq<nat>)
    requires Distinct(scores)
    ensures Ascending(sorted) && Elems(sorted) == Elems(scores)
  {
    sorted := [];
    for n: nat := 0 to |scores|
      invariant Ascending(sorted) && Elems(sorted) == Elems(scores[..n])
    {
      assert scores[n] !in Elems(scores[..n]);
      sorted := InsertScore(sorted, scores[n]);
      ElemsSnoc(scores[..n], scores[n]);
      assert scores[..n + 1] == scores[..n] + [scores[n]];
    }
    assert scores[..|scores|] == scores;
  }

  method InsertScore(sorted: seq<nat>, s: nat) returns (r: seq<nat>)
    requires Ascending(sorted) && s !in Elems(sorted)
    ensures Ascending(r) && Elems(r) == Elems(sorted) + {s}
  {
    var k: nat := |sorted|;
    while k > 0 && sorted[k - 1] > s
      invariant 0 <= k <= |sorted|
      invariant k < |sorted| ==> sorted[k] > s
    {
      k := k - 1;
    }
    assert k > 0 ==> sorted[k - 1] in Elems(sorted);
    InsertedInPlace(sorted, k, s);
    InsertedElems(sorted, k, s);
    r := sorted[..k] + [s] + sorted[k..];
  }

  lemma {:induction false} ElemsConcat(a: seq<nat>, b: seq<nat>)
    ensures Elems(a + b) == Elems(a) + Elems(b)
  {
  }

  lemma {:induction false} InsertedElems(sorted: seq<nat>, k: nat, s: nat)
    requires k <= |sorted|
    ensures Elems(sorted[..k] + [s] + sorted[k..]) == Elems(sorted) + {s}
  {
    ElemsSnoc(sorted[..k], s);
    ElemsConcat(sorted[..k] + [s], sorted[k..]);
    ElemsConcat(sorted[..k], sorted[k..]);
    assert sorted == sorted[..k] + sorted[k..];
  }

  // Inserting before the first greater score keeps the order.
  lemma {:induction false} InsertedInPlace(sorted: seq<nat>, k: nat, s: nat)
    requires Ascending(sorted) && k <= |sorted|
    requires k > 0 ==> sorted[k - 1] < s
    requires k < |sorted| ==> sorted[k] > s
    ensures Ascending(sorted[..k] + [s] + sorted[k..])
  {
    var r := sorted[..k] + [s] + sorted[k..];
    forall i, j | 0 <= i < j < |r|
      ensures r[i] < r[j]
    {
      assert i < k ==> r[i] == sorted[i] <= sorted[k - 1];
      assert j > k ==> r[j] == sorted[j - 1] >= sorted[k];
      assert j < k ==> r[j] == sorted[j];
      assert i > k ==> r[i] == sorted[i - 1];
    }
  }

  method SearchTxns(activity: seq<Record>) returns (results: seq<TxResult>)
    ensures Groups(activity, results)
  {
    var groups, scores := Gather(activity);
    scores := Sort(scores);
    assert forall i :: 0 <= i < |scores| ==> scores[i] in Elems(scores);
    results := seq(|scores|, i requires 0 <= i < |scores| && scores[i] in groups => groups[scores[i]]);
    forall s | s in ScoresOf(activity)
      ensures exists i :: 0 <= i < |results| && results[i].score == s
    {
      var i :| 0 <= i < |scores| && scores[i] == s;
      assert results[i].score == s;
    }
  }

  /** Mined transactions */

  // Where each transaction is mined: its height and its position in the block.
  type Positions = nat -> (nat, nat)

  predicate Mined(p: (nat, nat)) {
    0 < p.0 <= MAX_HEIGHT && p.1 < BILLION
  }

  // The records carry the scores of the mined transactions, which are in different places.
  ghost predicate FromBlocks(rs: seq<Record>, at: Positions) {
    && (forall i :: 0 <= i < |rs| ==>
          var p := at(TxidOf(rs[i].member)); Mined(p) && rs[i].score == HeightScore(p.0, p.1, 0))
    && (forall i, j :: 0 <= i < |rs| && 0 <= j < |rs| && at(TxidOf(rs[i].member)) == at(TxidOf(rs[j].member)) ==>
          TxidOf(rs[i].member) == TxidOf(rs[j].member))
  }

  predicate Earlier(p: (nat, nat), q: (nat, nat)) {
    p.0 < q.0 || (p.0 == q.0 && p.1 < q.1)
  }

  lemma {:induction false} FirstIsOne(rs: seq<Record>, score: nat) returns (i: nat)
    requires score in ScoresOf(rs)
    ensures i < |rs| && rs[i].score == score && TxidOf(rs[i].member) == FirstTxid(rs, score)
  {
    var init := rs[..|rs| - 1];
    if score in ScoresOf(init) {
      i := FirstIsOne(init, score);
    } else {
      i := |rs| - 1;
      assert forall k :: 0 <= k < |init| ==> rs[k] == init[k] && init[k].score in ScoresOf(init);
    }
  }

  // i is the first record of the score.
  predicate IsFirst(rs: seq<Record>, score: nat, i: nat) {
    i < |rs| && rs[i].score == score && forall j :: 0 <= j < i ==> rs[j].score != score
  }

  lemma {:induction false} FirstNames(rs: seq<Record>, score: nat, i: nat)
    requires IsFirst(rs, score, i)
    ensures FirstTxid(rs, score) == TxidOf(rs[i].member)
  {
    var init := rs[..|rs| - 1];
    if i < |init| {
      assert init[i].score == score;
      assert IsFirst(init, score, i);
      FirstNames(init, score, i);
    } else {
      assert score !in ScoresOf(init);
    }
  }

  // For any records: a result is named after the first record of its score, and holds exactly the
  // outputs among the records of that score.
  lemma {:induction false} ResultGathers(rs: seq<Record>, results: seq<TxResult>, r: nat, i: nat, v: nat)
    requires Groups(rs, results) && r < |results| && IsFirst(rs, results[r].score, i)
    ensures results[r].txid == TxidOf(rs[i].member)
    ensures v in results[r].outputs <==>
              exists k :: 0 <= k < |rs| && rs[k].score == results[r].score && rs[k].member.OutMember? &&
                          rs[k].member.o.vout == v
  {
    FirstNames(rs, results[r].score, i);
  }

  // Within blocks, records share a score exactly when they share the transaction.
  lemma {:induction false} ScoreNamesTx(rs: seq<Record>, at: Positions, i: nat, j: nat)
    requires FromBlocks(rs, at) && i < |rs| && j < |rs|
    ensures rs[i].score == rs[j].score <==> TxidOf(rs[i].member) == TxidOf(rs[j].member)
  {
    var p, q := at(TxidOf(rs[i].member)), at(TxidOf(rs[j].member));
    ScoresOrder(p.0, p.1, q.0, q.1, 0);
  }

  // A result tells the right place and exactly the outputs found.
  lemma {:induction false} ResultIsRight(rs: seq<Record>, results: seq<TxResult>, at: Positions, r: nat)
    requires Groups(rs, results) && FromBlocks(rs, at) && r < |results|
    ensures var result := results[r];
            && Mined(at(result.txid)) && result.score == HeightScore(at(result.txid).0, at(result.txid).1, 0)
            && (result.height, result.idx) == at(result.txid)
            && (exists i :: 0 <= i < |rs| && TxidOf(rs[i].member) == result.txid)
            && forall v: nat :: v in result.outputs <==>
                exists i :: 0 <= i < |rs| && rs[i].member == OutMember(Outpoint(result.txid, v))
  {
    var result := results[r];
    var i := FirstIsOne(rs, result.score);
    var p := at(result.txid);
    ScoreReadsBack(p.0, p.1, 0);
    forall v: nat
      ensures v in result.outputs <==> exists k :: 0 <= k < |rs| && rs[k].member == OutMember(Outpoint(result.txid, v))
    {
      forall k | 0 <= k < |rs|
        ensures rs[k].score == result.score <==> TxidOf(rs[k].member) == result.txid
      {
        ScoreNamesTx(rs, at, k, i);
      }
      if v in result.outputs {
        var k :| 0 <= k < |rs| && rs[k].score == result.score && rs[k].member.OutMember? && rs[k].member.o.vout == v;
        assert rs[k].member == OutMember(Outpoint(result.txid, v));
      }
    }
  }

  predicate HasTx(results: seq<TxResult>, t: nat) {
    exists r :: 0 <= r < |results| && results[r].txid == t
  }

  lemma {:induction false} TwoResults(rs: seq<Record>, results: seq<TxResult>, at: Positions, i: nat, j: nat)
    requires Groups(rs, results) && FromBlocks(rs, at) && i < j < |results|
    ensures results[i].txid != results[j].txid && Earlier(at(results[i].txid), at(results[j].txid))
  {
    ResultIsRight(rs, results, at, i);
    ResultIsRight(rs, results, at, j);
    var p, q := at(results[i].txid), at(results[j].txid);
    ScoresOrder(p.0, p.1, q.0, q.1, 0);
  }

  // Mined activity comes back as one result per transaction, strictly in block order, with the
  // places and outputs it was stored with.
  lemma {:induction false} TransactionsInOrder(rs: seq<Record>, results: seq<TxResult>, at: Positions)
    requires Groups(rs, results) && FromBlocks(rs, at)
    ensures forall i, j :: 0 <= i < j < |results| ==>
              results[i].txid != results[j].txid && Earlier(at(results[i].txid), at(results[j].txid))
    ensures forall i :: 0 <= i < |rs| ==> HasTx(results, TxidOf(rs[i].member))
  {
    forall i, j | 0 <= i < j < |results|
      ensures results[i].txid != results[j].txid && Earlier(at(results[i].txid), at(results[j].txid))
    {
      TwoResults(rs, results, at, i, j);
    }
    forall i | 0 <= i < |rs|
      ensures HasTx(results, TxidOf(rs[i].member))
    {
      HasResult(rs, results, at, i);
    }
  }

  lemma {:induction false} HasResult(rs: seq<Record>, results: seq<TxResult>, at: Positions, i: nat)
    requires Groups(rs, results) && FromBlocks(rs, at) && i < |rs|
    ensures HasTx(results, TxidOf(rs[i].member))
  {
    assert rs[i].score in ScoresOf(rs);
    var r :| 0 <= r < |results| && results[r].score == rs[i].score;
    var k := FirstIsOne(rs, rs[i].score);
    ScoreNamesTx(rs, at, k, i);
    assert results[r].txid == TxidOf(rs[i].member);
  }
}
