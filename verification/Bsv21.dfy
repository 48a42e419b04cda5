// Token accounting of one transaction (mod/onesat/bsv21.go, PreSave): per token id,
// valid inputs are summed and outputs are paid from the sum in order.
module Bsv21Tokens {
  import opened Common

  // An id is the printed outpoint of the deploying output; other strings name no token.
  datatype TokenId = OfOutpoint(o: Outpoint) | Other(s: string)

  datatype Status = Invalid | Pending | Valid

  datatype Op = DeployMint | Transfer | Burn

  datatype Meta = Meta(icon: string, symbol: Option<string>, decimals: nat, fund: string)

  datatype Bsv21 = Bsv21(id: TokenId, op: Op, amt: nat, status: Status, reason: Option<string>, meta: Meta)

  datatype Event = ValidEvent(id: TokenId) | InvalidEvent(id: TokenId) | PendingEvent(id: TokenId)

  datatype Record = Record(token: Bsv21, events: seq<Event>, deps: seq<Outpoint>)

  // `known` is false for an input the indexer has no value for.
  datatype Spend = Spend(outpoint: Outpoint, known: bool, token: Option<Bsv21>)

  datatype TokenState = TokenState(
    balance: nat,
    reason: Option<string>,
    token: Option<Bsv21>,
    outputs: seq<nat>,
    deps: seq<Outpoint>)

  const MISSING := "missing inputs"
  const INSUFFICIENT := "insufficient funds"

  type Outs = seq<Option<Record>>

  /** What the outputs and inputs of one token are */

  predicate Moves(r: Option<Record>, id: TokenId) {
    r.Some? && r.value.token.op != DeployMint && r.value.token.id == id
  }

  function OutputsOf(txos: Outs, id: TokenId, n: nat): (r: seq<nat>)
    requires n <= |txos|
    ensures forall j :: 0 <= j < |r| ==> r[j] < n && Moves(txos[r[j]], id)
    ensures forall v :: 0 <= v < n && Moves(txos[v], id) ==> v in r
    ensures forall i, j :: 0 <= i < j < |r| ==> r[i] < r[j]
  {
    if n == 0 then []
    else OutputsOf(txos, id, n - 1) + (if Moves(txos[n - 1], id) then [n - 1] else [])
  }

  function Amts(txos: Outs, vs: seq<nat>): (r: seq<nat>)
    requires forall j :: 0 <= j < |vs| ==> vs[j] < |txos| && txos[vs[j]].Some?
    ensures |r| == |vs|
  {
    seq(|vs|, j requires 0 <= j < |vs| => txos[vs[j]].value.token.amt)
  }

  function OutAmts(txos: Outs, id: TokenId): seq<nat> {
    Amts(txos, OutputsOf(txos, id, |txos|))
  }

  predicate Supplies(s: Spend, id: TokenId) {
    s.token.Some? && s.token.value.status == Valid && s.token.value.id == id
  }

  function InAmts(spends: seq<Spend>, id: TokenId, n: nat): seq<nat>
    requires n <= |spends|
  {
    if n == 0 then []
    else InAmts(spends, id, n - 1) + (if Supplies(spends[n - 1], id) then [spends[n - 1].token.value.amt] else [])
  }

  function InputTotal(spends: seq<Spend>, id: TokenId): nat {
    PrefixSum(InAmts(spends, id, |spends|), |InAmts(spends, id, |spends|)|)
  }

  // The last valid input, whose description the outputs copy.
  function Supplier(spends: seq<Spend>, id: TokenId, n: nat): Option<Bsv21>
    requires n <= |spends|
  {
    if n == 0 then None
    else if Supplies(spends[n - 1], id) then spends[n - 1].token
    else Supplier(spends, id, n - 1)
  }

  function DepsOf(spends: seq<Spend>, id: TokenId, n: nat): seq<Outpoint>
    requires n <= |spends|
  {
    if n == 0 then []
    else DepsOf(spends, id, n - 1) + (if Supplies(spends[n - 1], id) then [spends[n - 1].outpoint] else [])
  }

  // uint64 running sum of the valid inputs.
  function Balance64(spends: seq<Spend>, id: TokenId, n: nat): nat
    requires n <= |spends|
  {
    if n == 0 then 0
    else if Supplies(spends[n - 1], id) then Add64(Balance64(spends, id, n - 1), spends[n - 1].token.value.amt)
    else Balance64(spends, id, n - 1)
  }

  predicate Blocks(s: Spend) {
    !s.known || (s.token.Some? && s.token.value.status == Pending)
  }

  predicate IsPending(spends: seq<Spend>) {
    exists k :: 0 <= k < |spends| && Blocks(spends[k])
  }

  /** Paying outputs from a balance */

  // What is left of `start` after offering it to the first k outputs.
  function Remaining(amts: seq<nat>, start: nat, k: nat): nat
    requires k <= |amts|
  {
    if k == 0 then start
    else
      var left := Remaining(amts, start, k - 1);
      if amts[k - 1] <= left then left - amts[k - 1] else left
  }

  predicate Paid(amts: seq<nat>, start: nat, k: nat)
    requires k < |amts|
  {
    amts[k] <= Remaining(amts, start, k)
  }

  function PaidTotal(amts: seq<nat>, start: nat, k: nat): nat
    requires k <= |amts|
  {
    if k == 0 then 0
    else PaidTotal(amts, start, k - 1) + (if Paid(amts, start, k - 1) then amts[k - 1] else 0)
  }

  // The failure recorded for the token after k outputs.
  function Failure(supplied: bool, amts: seq<nat>, start: nat, k: nat): Option<string>
    requires k <= |amts|
  {
    if k == 0 then None
    else if !supplied then Some(MISSING)
    else if Paid(amts, start, k - 1) then Failure(supplied, amts, start, k - 1)
    else Some(INSUFFICIENT)
  }

  // Nothing is created: what was paid and what is left make up the inputs.
  lemma {:induction false} PayingConserves(amts: seq<nat>, start: nat, k: nat)
    requires k <= |amts|
    ensures PaidTotal(amts, start, k) + Remaining(amts, start, k) == start
  {
    if k > 0 {
      PayingConserves(amts, start, k - 1);
    }
  }

  // No failure is recorded exactly when there is a valid input and the outputs together
  // ask for no more than the inputs hold; then every output is paid.
  lemma {:induction false} NoFailureIffCovered(supplied: bool, amts: seq<nat>, start: nat, k: nat)
    requires 0 < k <= |amts|
    ensures Failure(supplied, amts, start, k) == None <==> supplied && PrefixSum(amts, k) <= start
    ensures PrefixSum(amts, k) <= start <==> forall j :: 0 <= j < k ==> Paid(amts, start, j)
  {
    if k > 1 {
      NoFailureIffCovered(supplied, amts, start, k - 1);
    }
    if forall j :: 0 <= j < k - 1 ==> Paid(amts, start, j) {
      AllPaidLeaves(amts, start, k - 1);
    }
    assert (forall j :: 0 <= j < k ==> Paid(amts, start, j)) <==>
           (forall j :: 0 <= j < k - 1 ==> Paid(amts, start, j)) && Paid(amts, start, k - 1);
  }

  lemma {:induction false} AllPaidLeaves(amts: seq<nat>, start: nat, k: nat)
    requires k <= |amts| && forall j :: 0 <= j < k ==> Paid(amts, start, j)
    ensures PrefixSum(amts, k) <= start && Remaining(amts, start, k) == start - PrefixSum(amts, k)
  {
    if k > 0 {
      AllPaidLeaves(amts, start, k - 1);
      assert Paid(amts, start, k - 1);
    }
  }

  lemma {:induction false} Balance64Exact(spends: seq<Spend>, id: TokenId, n: nat)
    requires n <= |spends| && InputTotal(spends, id) < TWO64
    ensures Balance64(spends, id, n) == PrefixSum(InAmts(spends, id, n), |InAmts(spends, id, n)|)
    ensures PrefixSum(InAmts(spends, id, n), |InAmts(spends, id, n)|) <= InputTotal(spends, id)
  {
    InAmtsMonotone(spends, id, n, |spends|);
    if n > 0 {
      Balance64Exact(spends, id, n - 1);
      if Supplies(spends[n - 1], id) {
        SumAppend(InAmts(spends, id, n - 1), spends[n - 1], id);
      } else {
        assert InAmts(spends, id, n) == InAmts(spends, id, n - 1);
      }
    }
  }

  lemma {:induction false} SumAppend(s: seq<nat>, spend: Spend, id: TokenId)
    requires Supplies(spend, id)
    ensures var a := spend.token.value.amt; PrefixSum(s + [a], |s| + 1) == PrefixSum(s, |s|) + a
  {
    var a := spend.token.value.amt;
    SumOfPrefix(s, [a], |s|);
    assert (s + [a])[|s|] == a;
  }

  lemma {:induction false} SumOfPrefix(s: seq<nat>, t: seq<nat>, k: nat)
    requires k <= |s|
    ensures PrefixSum(s + t, k) == PrefixSum(s, k)
  {
    if k > 0 {
      SumOfPrefix(s, t, k - 1);
    }
  }

  lemma {:induction false} InAmtsMonotone(spends: seq<Spend>, id: TokenId, n: nat, m: nat)
    requires n <= m <= |spends|
    ensures InAmts(spends, id, n) <= InAmts(spends, id, m)
    ensures PrefixSum(InAmts(spends, id, n), |InAmts(spends, id, n)|) <=
            PrefixSum(InAmts(spends, id, m), |InAmts(spends, id, m)|)
    decreases m - n
  {
    if n < m {
      InAmtsMonotone(spends, id, n, m - 1);
      if Supplies(spends[m - 1], id) {
        SumAppend(InAmts(spends, id, m - 1), spends[m - 1], id);
      } else {
        assert InAmts(spends, id, m) == InAmts(spends, id, m - 1);
      }
    }
  }

  /** What PreSave leaves behind */

  predicate Transfers(r: Option<Record>) {
    r.Some? && r.value.token.op != DeployMint
  }

  function Ids(txos: Outs, n: nat): set<TokenId>
    requires n <= |txos|
  {
    set v | 0 <= v < n && Transfers(txos[v]) :: txos[v].value.token.id
  }

  // How many outputs of the same token come before v.
  function Rank(txos: Outs, v: nat): nat
    requires v < |txos| && Transfers(txos[v])
  {
    |OutputsOf(txos, txos[v].value.token.id, v)|
  }

  lemma {:induction false} RankInRange(txos: Outs, v: nat, n: nat)
    requires v < n <= |txos| && Transfers(txos[v])
    ensures var outs := OutputsOf(txos, txos[v].value.token.id, n);
            Rank(txos, v) < |outs| && outs[Rank(txos, v)] == v
    decreases n
  {
    if v < n - 1 {
      RankInRange(txos, v, n - 1);
    }
  }

  lemma {:induction false} RankOfOutput(txos: Outs, id: TokenId, j: nat)
    requires j < |OutputsOf(txos, id, |txos|)|
    ensures Rank(txos, OutputsOf(txos, id, |txos|)[j]) == j
  {
    var outs := OutputsOf(txos, id, |txos|);
    var v := outs[j];
    RankInRange(txos, v, |txos|);
    assert outs[Rank(txos, v)] == outs[j];
  }

  // Output v is paid from its token's inputs.
  predicate IsPaid(txos: Outs, spends: seq<Spend>, v: nat)
    requires v < |txos| && Transfers(txos[v])
  {
    var id := txos[v].value.token.id;
    && Supplier(spends, id, |spends|).Some?
    && Rank(txos, v) < |OutAmts(txos, id)|
    && Paid(OutAmts(txos, id), Balance64(spends, id, |spends|), Rank(txos, v))
  }

  // A paid output takes over the description of its token.
  function Described(txos: Outs, spends: seq<Spend>, v: nat): Option<Record>
    requires v < |txos|
  {
    if Transfers(txos[v]) && IsPaid(txos, spends, v) then
      var meta := Supplier(spends, txos[v].value.token.id, |spends|).value.meta;
      Some(txos[v].value.(token := txos[v].value.token.(meta := meta)))
    else txos[v]
  }

  function DescribedAll(txos: Outs, spends: seq<Spend>): (r: Outs)
    ensures |r| == |txos|
  {
    seq(|txos|, v requires 0 <= v < |txos| => Described(txos, spends, v))
  }

  function Finished(txos: Outs, spends: seq<Spend>, v: nat): Option<Record>
    requires v < |txos|
  {
    if !Transfers(txos[v]) then txos[v]
    else
      var id := txos[v].value.token.id;
      if IsPending(spends) then Some(Marked(txos[v].value, id, true, []))
      else Some(Marked(Described(txos, spends, v).value, id, false, DepsOf(spends, id, |spends|)))
  }

  function Marked(r: Record, id: TokenId, isPending: bool, deps: seq<Outpoint>): Record {
    if isPending then r.(events := r.events + [PendingEvent(id)])
    else r.(token := r.token.(status := Valid), events := r.events + [ValidEvent(id)], deps := r.deps + deps)
  }

  // The state of a token before its outputs are looked at, and after k of them.
  function Opening(txos: Outs, spends: seq<Spend>, id: TokenId): TokenState {
    TokenState(Balance64(spends, id, |spends|), None, Supplier(spends, id, |spends|),
               OutputsOf(txos, id, |txos|), DepsOf(spends, id, |spends|))
  }

  function TokenAfter(start: TokenState, amts: seq<nat>, k: nat): TokenState
    requires k <= |amts|
  {
    start.(balance := if start.token.Some? then Remaining(amts, start.balance, k) else start.balance,
           reason := Failure(start.token.Some?, amts, start.balance, k))
  }

  // Offering a token's balance to one output.
  function PaidState(token: TokenState, amt: nat): TokenState {
    if token.token.None? then token.(reason := Some(MISSING))
    else if amt > token.balance then token.(reason := Some(INSUFFICIENT))
    else token.(balance := token.balance - amt)
  }

  function PaidRecord(token: TokenState, r: Record): Record {
    if token.token.None? || r.token.amt > token.balance then r
    else r.(token := r.token.(meta := token.token.value.meta))
  }

  lemma {:induction false} TokenAfterStep(start: TokenState, amts: seq<nat>, k: nat)
    requires k < |amts| && start.reason == None
    ensures TokenAfter(start, amts, k + 1) == PaidState(TokenAfter(start, amts, k), amts[k])
  {
    if start.token.None? && k > 0 {
      assert Failure(false, amts, start.balance, k) == Some(MISSING);
    }
  }

  function PaidOut(txos: Outs, id: TokenId, start: TokenState): TokenState {
    TokenAfter(start, OutAmts(txos, id), |OutAmts(txos, id)|)
  }

  function Outcome(txos: Outs, spends: seq<Spend>, id: TokenId): TokenState {
    PaidOut(txos, id, Opening(txos, spends, id))
  }

  type Tokens = map<TokenId, TokenState>

  // The token once its first j outputs have been looked at.
  function PaidUpTo(txos: Outs, id: TokenId, start: TokenState, j: nat): TokenState {
    if j <= |OutAmts(txos, id)| then TokenAfter(start, OutAmts(txos, id), j) else start
  }

  lemma {:induction false} PaidEnds(txos: Outs, id: TokenId, start: TokenState)
    requires start.reason == None
    ensures PaidUpTo(txos, id, start, 0) == start
    ensures PaidUpTo(txos, id, start, |OutputsOf(txos, id, |txos|)|) == PaidOut(txos, id, start)
  {
  }

  // `described` gives each output of the token the form it takes when `start` is paid out.
  predicate Describes(before: Outs, described: Outs, id: TokenId, start: TokenState)
    requires |before| == |described|
  {
    && start.reason == None
    && start.outputs == OutputsOf(before, id, |before|)
    && forall j :: 0 <= j < |start.outputs| ==>
         described[start.outputs[j]] ==
         Some(PaidRecord(TokenAfter(start, OutAmts(before, id), j), before[start.outputs[j]].value))
  }

  // All tokens but those in `rest` have been paid.
  predicate PaidExcept(before: Outs, described: Outs, txos: Outs, rest: set<TokenId>)
    requires |before| == |described| == |txos|
  {
    forall v :: 0 <= v < |txos| ==>
      txos[v] == if Transfers(before[v]) && before[v].value.token.id !in rest then described[v] else before[v]
  }

  predicate TokensExcept(before: Outs, start: Tokens, tokens: Tokens, rest: set<TokenId>) {
    && tokens.Keys == start.Keys
    && (forall id :: id in start && id in rest ==> tokens[id] == start[id])
    && (forall id :: id in start && id !in rest ==> tokens[id] == PaidOut(before, id, start[id]))
  }

  lemma {:induction false} OneMoreToken(before: Outs, start: Tokens, tokens: Tokens, id: TokenId, rest: set<TokenId>)
    requires id in start && TokensExcept(before, start, tokens, rest)
    ensures TokensExcept(before, start, tokens[id := PaidOut(before, id, start[id])], rest - {id})
  {
  }

  lemma {:induction false} OneMorePaid(before: Outs, described: Outs, mid: Outs, txos: Outs, id: TokenId,
                                       rest: set<TokenId>)
    requires |before| == |described| == |mid| == |txos| && PaidExcept(before, described, mid, rest)
    requires forall v :: 0 <= v < |txos| ==> txos[v] == if Moves(before[v], id) then described[v] else mid[v]
    ensures PaidExcept(before, described, txos, rest - {id})
  {
  }

  lemma {:induction false} AllPaidFor(before: Outs, described: Outs, txos: Outs)
    requires |before| == |described| == |txos| && PaidExcept(before, described, txos, {})
    requires forall v :: 0 <= v < |txos| && !Transfers(before[v]) ==> described[v] == before[v]
    ensures txos == described
  {
  }

  // The outputs of one token are still as they were.
  predicate Untouched(before: Outs, txos: Outs, id: TokenId) {
    |txos| == |before| && forall v :: 0 <= v < |txos| && Moves(before[v], id) ==> txos[v] == before[v]
  }

  // The first j of the positions `vs` have gone from `was` to `goal`.
  predicate RewrittenUpTo(was: Outs, goal: Outs, vs: seq<nat>, j: nat, txos: Outs)
    requires j <= |vs|
  {
    && |txos| == |was| == |goal|
    && forall v :: 0 <= v < |txos| ==> txos[v] == if v in vs[..j] then goal[v] else was[v]
  }

  lemma {:induction false} RewrittenNext(was: Outs, goal: Outs, vs: seq<nat>, j: nat, txos: Outs)
    requires j < |vs| && vs[j] < |txos| && RewrittenUpTo(was, goal, vs, j, txos)
    requires forall i, k :: 0 <= i < k < |vs| ==> vs[i] < vs[k]
    ensures txos[vs[j]] == was[vs[j]]
    ensures RewrittenUpTo(was, goal, vs, j + 1, txos[vs[j] := goal[vs[j]]])
  {
    assert vs[..j + 1] == vs[..j] + [vs[j]];
    assert vs[j] !in vs[..j];
  }

  lemma {:induction false} RewrittenAll(before: Outs, was: Outs, goal: Outs, id: TokenId, txos: Outs)
    requires |before| == |was|
    requires var vs := OutputsOf(before, id, |before|); RewrittenUpTo(was, goal, vs, |vs|, txos)
    ensures forall v :: 0 <= v < |txos| ==> txos[v] == if Moves(before[v], id) then goal[v] else was[v]
  {
    var vs := OutputsOf(before, id, |before|);
    assert vs[..|vs|] == vs;
  }

  // All tokens but those in `rest` have had their outputs marked.
  predicate MarkedExcept(before: Outs, tokens: Tokens, isPending: bool, txos: Outs, rest: set<TokenId>) {
    && |txos| == |before|
    && forall v :: 0 <= v < |txos| ==> txos[v] == MarkedOut(before[v], tokens, isPending, rest)
  }

  function MarkedOut(r: Option<Record>, tokens: Tokens, isPending: bool, rest: set<TokenId>): Option<Record> {
    if Transfers(r) && r.value.token.id in tokens && r.value.token.id !in rest
    then Some(Marked(r.value, r.value.token.id, isPending, tokens[r.value.token.id].deps))
    else r
  }

  lemma {:induction false} NoneMarked(txos: Outs, tokens: Tokens, isPending: bool)
    ensures MarkedExcept(txos, tokens, isPending, txos, tokens.Keys)
  {
  }

  lemma {:induction false} OneMoreMarked(before: Outs, tokens: Tokens, isPending: bool, mid: Outs, txos: Outs,
                                         id: TokenId, rest: set<TokenId>)
    requires MarkedExcept(before, tokens, isPending, mid, rest) && |txos| == |mid| && id in tokens && id in rest
    requires forall v :: 0 <= v < |txos| ==>
               txos[v] == if Moves(mid[v], id) then Some(Marked(mid[v].value, id, isPending, tokens[id].deps))
                          else mid[v]
    ensures MarkedExcept(before, tokens, isPending, txos, rest - {id})
  {
    forall v | 0 <= v < |txos|
      ensures txos[v] == MarkedOut(before[v], tokens, isPending, rest - {id})
    {
      if Moves(before[v], id) {
        assert mid[v] == before[v];
      } else {
        assert mid[v] == MarkedOut(before[v], tokens, isPending, rest - {id});
      }
    }
  }

  // The tokens moved by the first n outputs, nothing paid in yet.
  function Collected(txos: Outs, n: nat): Tokens
    requires n <= |txos|
  {
    map id | id in Ids(txos, n) :: Unfunded(txos, id, n)
  }

  function Unfunded(txos: Outs, id: TokenId, n: nat): TokenState
    requires n <= |txos|
  {
    TokenState(0, None, None, OutputsOf(txos, id, n), [])
  }

  lemma {:induction false} IdsNext(txos: Outs, v: nat)
    requires v < |txos|
    ensures Ids(txos, v + 1) == Ids(txos, v) + (if Transfers(txos[v]) then {txos[v].value.token.id} else {})
  {
  }

  lemma {:induction false} OutputsNext(txos: Outs, id: TokenId, v: nat)
    requires v < |txos|
    ensures OutputsOf(txos, id, v + 1) == OutputsOf(txos, id, v) + (if Moves(txos[v], id) then [v] else [])
  {
  }

  function Counted(tokens: Tokens, id: TokenId, v: nat): Tokens {
    if id !in tokens then tokens[id := TokenState(0, None, None, [v], [])]
    else tokens[id := tokens[id].(outputs := tokens[id].outputs + [v])]
  }

  lemma {:induction false} CollectedSame(txos: Outs, v: nat)
    requires v < |txos| && !Transfers(txos[v])
    ensures Collected(txos, v + 1) == Collected(txos, v)
  {
    IdsNext(txos, v);
    forall id | id in Ids(txos, v)
      ensures Collected(txos, v + 1)[id] == Collected(txos, v)[id]
    {
      OutputsNext(txos, id, v);
    }
  }

  lemma {:induction false} CollectedMore(txos: Outs, v: nat)
    requires v < |txos| && Transfers(txos[v])
    ensures Collected(txos, v + 1) == Counted(Collected(txos, v), txos[v].value.token.id, v)
  {
    var id := txos[v].value.token.id;
    IdsNext(txos, v);
    var more := Counted(Collected(txos, v), id, v);
    forall other | other in Ids(txos, v + 1)
      ensures Collected(txos, v + 1)[other] == more[other]
    {
      OutputsNext(txos, other, v);
      if other == id && id !in Ids(txos, v) {
        NoneBefore(txos, id, v);
      }
    }
  }

  /** The whole pass, said from the outputs and inputs alone */

  // Some input is unknown, or holds a token that is not settled.
  predicate HasOpenInput(spends: seq<Spend>) {
    exists k :: 0 <= k < |spends| &&
                (!spends[k].known || (spends[k].token.Some? && spends[k].token.value.status == Pending))
  }

  predicate IsTransferOrBurn(r: Option<Record>) {
    r.Some? && r.value.token.op in {Transfer, Burn}
  }

  predicate HoldsToken(s: Spend, id: TokenId) {
    s.token.Some? && s.token.value.status == Valid && s.token.value.id == id
  }

  // The valid inputs of a token among the first n, in order.
  function ValidInputs(spends: seq<Spend>, id: TokenId, n: nat): (ks: seq<nat>)
    requires n <= |spends|
    ensures forall j :: 0 <= j < |ks| ==> ks[j] < n && HoldsToken(spends[ks[j]], id)
  {
    if n == 0 then []
    else ValidInputs(spends, id, n - 1) + (if HoldsToken(spends[n - 1], id) then [n - 1] else [])
  }

  lemma {:induction false} ValidInputsAscend(spends: seq<Spend>, id: TokenId, n: nat, i: nat, j: nat)
    requires n <= |spends| && i < j < |ValidInputs(spends, id, n)|
    ensures ValidInputs(spends, id, n)[i] < ValidInputs(spends, id, n)[j]
  {
    if j < |ValidInputs(spends, id, n - 1)| {
      ValidInputsAscend(spends, id, n - 1, i, j);
    }
  }

  lemma {:induction false} ValidInputsAre(spends: seq<Spend>, id: TokenId, n: nat, k: nat)
    requires n <= |spends|
    ensures k in ValidInputs(spends, id, n) <==> k < n && HoldsToken(spends[k], id)
  {
    if n > 0 {
      ValidInputsAre(spends, id, n - 1, k);
    }
  }

  // What the valid inputs hold together.
  function Held(spends: seq<Spend>, id: TokenId, n: nat): nat
    requires n <= |spends|
  {
    if n == 0 then 0
    else Held(spends, id, n - 1) + (if HoldsToken(spends[n - 1], id) then spends[n - 1].token.value.amt else 0)
  }

  // What the first n outputs get of an amount, each its own or nothing.
  function Accepted(txos: Outs, id: TokenId, amount: nat, n: nat): nat
    requires n <= |txos|
  {
    if n == 0 then 0
    else
      var before := Accepted(txos, id, amount, n - 1);
      if IsTransferOrBurn(txos[n - 1]) && txos[n - 1].value.token.id == id &&
         before + txos[n - 1].value.token.amt <= amount
      then before + txos[n - 1].value.token.amt else before
  }

  // Output v gets its amount: there is a valid input, and what earlier outputs left is enough.
  predicate IsAccepted(txos: Outs, spends: seq<Spend>, v: nat)
    requires v < |txos| && IsTransferOrBurn(txos[v])
  {
    var id, amt := txos[v].value.token.id, txos[v].value.token.amt;
    var amount := Held(spends, id, |spends|) % TWO64;
    ValidInputs(spends, id, |spends|) != [] && Accepted(txos, id, amount, v) + amt <= amount
  }

  // The description of the last valid input, for an output that gets its amount.
  function MetaOf(txos: Outs, spends: seq<Spend>, v: nat): Meta
    requires v < |txos| && IsTransferOrBurn(txos[v])
  {
    var ks := ValidInputs(spends, txos[v].value.token.id, |spends|);
    if IsAccepted(txos, spends, v) then spends[ks[|ks| - 1]].token.value.meta else txos[v].value.token.meta
  }

  function OutpointsAt(spends: seq<Spend>, ks: seq<nat>): (os: seq<Outpoint>)
    requires forall j :: 0 <= j < |ks| ==> ks[j] < |spends|
    ensures |os| == |ks|
  {
    seq(|ks|, j requires 0 <= j < |ks| => spends[ks[j]].outpoint)
  }

  // A transfer or burn after the pass: marked as pending, and otherwise valid, depending on all
  // valid inputs of its token, with its description if it gets its amount.
  function Passed(txos: Outs, spends: seq<Spend>, v: nat): Record
    requires v < |txos| && IsTransferOrBurn(txos[v])
  {
    var r := txos[v].value;
    var id := r.token.id;
    if HasOpenInput(spends) then r.(events := r.events + [PendingEvent(id)])
    else
      Record(r.token.(status := Valid, meta := MetaOf(txos, spends, v)),
             r.events + [ValidEvent(id)],
             r.deps + OutpointsAt(spends, ValidInputs(spends, id, |spends|)))
  }

  lemma {:induction false} SupplierIsLast(spends: seq<Spend>, id: TokenId, n: nat)
    requires n <= |spends|
    ensures var ks := ValidInputs(spends, id, n);
            Supplier(spends, id, n) == if ks == [] then None else spends[ks[|ks| - 1]].token
  {
    if n > 0 {
      SupplierIsLast(spends, id, n - 1);
    }
  }

  lemma {:induction false} DepsAreInputs(spends: seq<Spend>, id: TokenId, n: nat)
    requires n <= |spends|
    ensures DepsOf(spends, id, n) == OutpointsAt(spends, ValidInputs(spends, id, n))
  {
    if n > 0 {
      DepsAreInputs(spends, id, n - 1);
      if HoldsToken(spends[n - 1], id) {
        OutpointsSnoc(spends, ValidInputs(spends, id, n - 1), n - 1);
      }
    }
  }

  lemma {:induction false} OutpointsSnoc(spends: seq<Spend>, ks: seq<nat>, k: nat)
    requires k < |spends| && forall j :: 0 <= j < |ks| ==> ks[j] < |spends|
    ensures OutpointsAt(spends, ks + [k]) == OutpointsAt(spends, ks) + [spends[k].outpoint]
  {
  }

  lemma {:induction false} ModAdd(a: nat, b: nat)
    ensures Add64(a % TWO64, b) == (a + b) % TWO64
  {
    assert a == a / TWO64 * TWO64 + a % TWO64;
  }

  lemma {:induction false} BalanceIsHeld(spends: seq<Spend>, id: TokenId, n: nat)
    requires n <= |spends|
    ensures Balance64(spends, id, n) == Held(spends, id, n) % TWO64
  {
    if n > 0 {
      BalanceIsHeld(spends, id, n - 1);
      ModAdd(Held(spends, id, n - 1), if HoldsToken(spends[n - 1], id) then spends[n - 1].token.value.amt else 0);
    }
  }

  // An output is paid exactly when the payments before it leave enough.
  lemma {:induction false} PaidIffAffordable(amts: seq<nat>, start: nat, k: nat)
    requires k < |amts|
    ensures Paid(amts, start, k) <==> PaidTotal(amts, start, k) + amts[k] <= start
  {
    PayingConserves(amts, start, k);
  }

  // The amounts the first n outputs ask for of a token.
  function Asks(txos: Outs, id: TokenId, n: nat): seq<nat>
    requires n <= |txos|
  {
    if n == 0 then []
    else Asks(txos, id, n - 1) + (if Moves(txos[n - 1], id) then [txos[n - 1].value.token.amt] else [])
  }

  lemma {:induction false} AmtsAppend(txos: Outs, vs: seq<nat>, v: nat)
    requires forall j :: 0 <= j < |vs| ==> vs[j] < |txos| && txos[vs[j]].Some?
    requires v < |txos| && txos[v].Some?
    ensures Amts(txos, vs + [v]) == Amts(txos, vs) + [txos[v].value.token.amt]
  {
  }

  lemma {:induction false} AsksAre(txos: Outs, id: TokenId, n: nat)
    requires n <= |txos|
    ensures Amts(txos, OutputsOf(txos, id, n)) == Asks(txos, id, n)
  {
    if n > 0 {
      AsksAre(txos, id, n - 1);
      if Moves(txos[n - 1], id) {
        AmtsAppend(txos, OutputsOf(txos, id, n - 1), n - 1);
      }
    }
  }

  lemma {:induction false} AsksGrow(txos: Outs, id: TokenId, n: nat, m: nat)
    requires n <= m <= |txos|
    ensures Asks(txos, id, n) <= Asks(txos, id, m)
    decreases m - n
  {
    if n < m {
      AsksGrow(txos, id, n, m - 1);
    }
  }

  // What is paid for the first k depends on them only.
  lemma {:induction false} PaidTotalOfPrefix(s: seq<nat>, t: seq<nat>, start: nat, k: nat)
    requires s <= t && k <= |s|
    ensures PaidTotal(s, start, k) == PaidTotal(t, start, k)
    ensures k < |s| ==> (Paid(s, start, k) <==> Paid(t, start, k))
  {
    if k > 0 {
      PaidTotalOfPrefix(s, t, start, k - 1);
      PaidIffAffordable(s, start, k - 1);
      PaidIffAffordable(t, start, k - 1);
    }
    if k < |s| {
      PaidIffAffordable(s, start, k);
      PaidIffAffordable(t, start, k);
    }
  }

  lemma {:induction false} AcceptedIsPaid(txos: Outs, id: TokenId, start: nat, n: nat)
    requires n <= |txos|
    ensures PaidTotal(Asks(txos, id, n), start, |Asks(txos, id, n)|) == Accepted(txos, id, start, n)
  {
    if n > 0 {
      AcceptedIsPaid(txos, id, start, n - 1);
      var before, asks := Asks(txos, id, n - 1), Asks(txos, id, n);
      PaidTotalOfPrefix(before, asks, start, |before|);
      if Moves(txos[n - 1], id) {
        PaidIffAffordable(asks, start, |before|);
      }
    }
  }

  // The place of output v among the amounts asked for.
  lemma {:induction false} RankIsPlace(txos: Outs, v: nat)
    requires v < |txos| && Transfers(txos[v])
    ensures var id := txos[v].value.token.id;
            var before, all := Asks(txos, id, v), Asks(txos, id, |txos|);
            && OutAmts(txos, id) == all && Rank(txos, v) == |before| < |all| && before <= all
            && all[|before|] == txos[v].value.token.amt
  {
    var id := txos[v].value.token.id;
    AsksAre(txos, id, |txos|);
    AsksAre(txos, id, v);
    AsksGrow(txos, id, v, v + 1);
    AsksGrow(txos, id, v + 1, |txos|);
    assert Asks(txos, id, v + 1) == Asks(txos, id, v) + [txos[v].value.token.amt];
    assert Asks(txos, id, v + 1)[|Asks(txos, id, v)|] == txos[v].value.token.amt;
  }

  lemma {:induction false} IsPaidMeans(txos: Outs, spends: seq<Spend>, v: nat)
    requires v < |txos| && Transfers(txos[v])
    ensures var id := txos[v].value.token.id;
            var before, all := Asks(txos, id, v), Asks(txos, id, |txos|);
            && before <= all && |before| < |all| && all[|before|] == txos[v].value.token.amt
            && (IsPaid(txos, spends, v) <==>
                  Supplier(spends, id, |spends|).Some? && Paid(all, Balance64(spends, id, |spends|), |before|))
  {
    RankIsPlace(txos, v);
  }

  lemma {:induction false} PaidIsAccepted(txos: Outs, spends: seq<Spend>, v: nat)
    requires v < |txos| && IsTransferOrBurn(txos[v])
    ensures Transfers(txos[v]) && (IsPaid(txos, spends, v) <==> IsAccepted(txos, spends, v))
  {
    var id := txos[v].value.token.id;
    var start := Balance64(spends, id, |spends|);
    var before, all := Asks(txos, id, v), Asks(txos, id, |txos|);
    IsPaidMeans(txos, spends, v);
    AcceptedIsPaid(txos, id, start, v);
    PaidTotalOfPrefix(before, all, start, |before|);
    PaidIffAffordable(all, start, |before|);
    SupplierIsLast(spends, id, |spends|);
    BalanceIsHeld(spends, id, |spends|);
  }

  // Main result on the records: what the pass leaves of each output.
  lemma {:induction false} FinishedIsPassed(txos: Outs, spends: seq<Spend>, v: nat)
    requires v < |txos|
    ensures IsTransferOrBurn(txos[v]) ==> Finished(txos, spends, v) == Some(Passed(txos, spends, v))
    ensures !IsTransferOrBurn(txos[v]) ==> Finished(txos, spends, v) == txos[v]
  {
    assert IsPending(spends) <==> HasOpenInput(spends) by {
      OpenIsPending(spends);
    }
    if IsTransferOrBurn(txos[v]) {
      var id := txos[v].value.token.id;
      PaidIsAccepted(txos, spends, v);
      SupplierIsLast(spends, id, |spends|);
      DepsAreInputs(spends, id, |spends|);
    }
  }

  predicate AllFinished(before: Outs, spends: seq<Spend>, txos: Outs) {
    |txos| == |before| && forall v :: 0 <= v < |txos| ==> txos[v] == Finished(before, spends, v)
  }

  predicate AllPassed(before: Outs, spends: seq<Spend>, txos: Outs) {
    && |txos| == |before|
    && forall v :: 0 <= v < |txos| ==>
         txos[v] == if IsTransferOrBurn(before[v]) then Some(Passed(before, spends, v)) else before[v]
  }

  lemma {:induction false} FinishedArePassed(before: Outs, spends: seq<Spend>, txos: Outs)
    requires AllFinished(before, spends, txos)
    ensures AllPassed(before, spends, txos)
  {
    forall v: nat | v < |txos|
      ensures txos[v] == if IsTransferOrBurn(before[v]) then Some(Passed(before, spends, v)) else before[v]
    {
      FinishedIsPassed(before, spends, v);
    }
  }

  lemma {:induction false} OpenIsPending(spends: seq<Spend>)
    ensures IsPending(spends) <==> HasOpenInput(spends)
  {
    if HasOpenInput(spends) {
      var k :| 0 <= k < |spends| &&
               (!spends[k].known || (spends[k].token.Some? && spends[k].token.value.status == Pending));
      assert Blocks(spends[k]);
    }
  }

  // The reason the pass keeps for a token, in words.
  lemma {:induction false} ReasonTells(txos: Outs, spends: seq<Spend>, id: TokenId)
    requires id in Ids(txos, |txos|)
    ensures var asked := PrefixSum(OutAmts(txos, id), |OutAmts(txos, id)|);
            Outcome(txos, spends, id).reason ==
            if ValidInputs(spends, id, |spends|) == [] then Some("missing inputs")
            else if asked > Held(spends, id, |spends|) % TWO64 then Some("insufficient funds")
            else None
  {
    var amts := OutAmts(txos, id);
    var v :| 0 <= v < |txos| && Transfers(txos[v]) && txos[v].value.token.id == id;
    assert v in OutputsOf(txos, id, |txos|);
    SupplierIsLast(spends, id, |spends|);
    BalanceIsHeld(spends, id, |spends|);
    var supplied := Supplier(spends, id, |spends|).Some?;
    NoFailureIffCovered(supplied, amts, Balance64(spends, id, |spends|), |amts|);
    FailureWords(supplied, amts, Balance64(spends, id, |spends|), |amts|);
  }

  lemma {:induction false} FailureWords(supplied: bool, amts: seq<nat>, start: nat, k: nat)
    requires k <= |amts|
    ensures k > 0 && !supplied ==> Failure(supplied, amts, start, k) == Some("missing inputs")
    ensures supplied ==> Failure(supplied, amts, start, k) in {None, Some("insufficient funds")}
  {
    if k > 0 {
      FailureWords(supplied, amts, start, k - 1);
    }
  }

  class IndexContext {
    const spends: seq<Spend>
    var txos: Outs

    constructor (txos: Outs, spends: seq<Spend>)
      ensures this.txos == txos && this.spends == spends
    {
      this.txos, this.spends := txos, spends;
    }

    method CollectOutputs() returns (tokens: Tokens)
      ensures tokens == Collected(txos, |txos|)
    {
      tokens := map[];
      var outs := txos;
      for v: nat := 0 to |outs|
        invariant tokens == Collected(outs, v)
      {
        if outs[v].Some? && outs[v].value.token.op != DeployMint {
          CollectedMore(outs, v);
          var id := outs[v].value.token.id;
          if id !in tokens {
            tokens := tokens[id := TokenState(0, None, None, [v], [])];
          } else {
            tokens := tokens[id := tokens[id].(outputs := tokens[id].outputs + [v])];
          }
        } else {
          CollectedSame(outs, v);
        }
      }
    }

    method SumInputs(start: Tokens) returns (tokens: Tokens, isPending: bool)
      requires forall id :: id in start ==> start[id] == Unfunded(txos, id, |txos|)
      ensures isPending == IsPending(spends)
      ensures tokens.Keys == start.Keys && forall id :: id in start ==> tokens[id].outputs == start[id].outputs
      ensures !isPending ==> forall id :: id in start ==> tokens[id] == Opening(txos, spends, id)
    {
      tokens := start;
      for k: nat := 0 to |spends|
        invariant tokens.Keys == start.Keys
        invariant forall id :: id in start ==>
                    tokens[id] == TokenState(Balance64(spends, id, k), None, Supplier(spends, id, k),
                                             start[id].outputs, DepsOf(spends, id, k))
        invariant forall i :: 0 <= i < k ==> !Blocks(spends[i])
      {
        var spend := spends[k];
        if !spend.known {
          assert Blocks(spend);
          return tokens, true;
        }
        if spend.token.Some? {
          var bsv21 := spend.token.value;
          if bsv21.status == Pending {
            assert Blocks(spend);
            return tokens, true;
          } else if bsv21.status == Valid && bsv21.id in tokens {
            var token := tokens[bsv21.id];
            tokens := tokens[bsv21.id := token.(balance := Add64(token.balance, bsv21.amt), token := Some(bsv21),
                                                deps := token.deps + [spend.outpoint])];
          }
        }
      }
      isPending := false;
    }

    method PayOne(v: nat, token: TokenState) returns (left: TokenState)
      requires v < |txos| && txos[v].Some?
      modifies this`txos
      ensures left == PaidState(token, old(txos)[v].value.token.amt)
      ensures txos == old(txos)[v := Some(PaidRecord(token, old(txos)[v].value))]
    {
      left := token;
      var bsv21 := txos[v].value.token;
      if token.token.None? {
        left := left.(reason := Some(MISSING));
      } else if bsv21.amt > token.balance {
        left := left.(reason := Some(INSUFFICIENT));
      } else {
        txos := txos[v := Some(txos[v].value.(token := bsv21.(meta := token.token.value.meta)))];
        left := left.(balance := left.balance - bsv21.amt);
      }
    }

    method PayNextOutput(id: TokenId, start: TokenState, j: nat, token: TokenState,
                         ghost before: Outs, ghost described: Outs, ghost was: Outs) returns (left: TokenState)
      requires |txos| == |before| == |described| && Describes(before, described, id, start)
      requires Untouched(before, was, id) && j < |start.outputs|
      requires RewrittenUpTo(was, described, start.outputs, j, txos)
      requires token == PaidUpTo(before, id, start, j)
      modifies this`txos
      ensures left == PaidUpTo(before, id, start, j + 1)
      ensures RewrittenUpTo(was, described, start.outputs, j + 1, txos)
    {
      TokenAfterStep(start, OutAmts(before, id), j);
      RewrittenNext(was, described, start.outputs, j, txos);
      left := PayOne(start.outputs[j], token);
    }

    // Offers the balance of one token to its outputs in turn.
    method PayToken(id: TokenId, start: TokenState, ghost before: Outs,
                    ghost described: Outs)
        returns (token: TokenState)
      requires |txos| == |before| == |described| && Describes(before, described, id, start)
      requires Untouched(before, txos, id)
      modifies this`txos
      ensures token == PaidUpTo(before, id, start, |start.outputs|)
      ensures RewrittenUpTo(old(txos), described, start.outputs, |start.outputs|, txos)
    {
      token := start;
      ghost var was := txos;
      for j: nat := 0 to |start.outputs|
        invariant token == PaidUpTo(before, id, start, j)
        invariant RewrittenUpTo(was, described, start.outputs, j, txos)
      {
        token := PayNextOutput(id, start, j, token, before, described, was);
      }
    }

    method FinishToken(id: TokenId, token: TokenState, isPending: bool)
      requires token.outputs == OutputsOf(txos, id, |txos|)
      modifies this`txos
      ensures |txos| == |old(txos)|
      ensures forall v :: 0 <= v < |txos| ==>
                txos[v] == if Moves(old(txos)[v], id) then Some(Marked(old(txos)[v].value, id, isPending, token.deps))
                           else old(txos)[v]
    {
      ghost var was := txos;
      ghost var marked := seq(|was|, v requires 0 <= v < |was| =>
        if was[v].Some? then Some(Marked(was[v].value, id, isPending, token.deps)) else None);
      var outs := token.outputs;
      for j: nat := 0 to |outs|
        invariant RewrittenUpTo(was, marked, outs, j, txos)
      {
        RewrittenNext(was, marked, outs, j, txos);
        var v := outs[j];
        var r := txos[v].value;
        if isPending {
          txos := txos[v := Some(r.(events := r.events + [PendingEvent(id)]))];
        } else {
          // The code looks for a failure in a table that nothing ever fills.
          txos := txos[v := Some(r.(token := r.token.(status := Valid), events := r.events + [ValidEvent(id)],
                                    deps := r.deps + token.deps))];
        }
      }
      assert outs[..|outs|] == outs;
    }

    method PayNext(tokens: Tokens, id: TokenId, ghost before: Outs, ghost described: Outs, ghost start: Tokens,
                   ghost rest: set<TokenId>) returns (paid: Tokens)
      requires |txos| == |before| == |described| && id in start && id in rest
      requires Describes(before, described, id, start[id])
      requires TokensExcept(before, start, tokens, rest) && PaidExcept(before, described, txos, rest)
      modifies this`txos
      ensures |txos| == |before|
      ensures TokensExcept(before, start, paid, rest - {id}) && PaidExcept(before, described, txos, rest - {id})
    {
      ghost var mid := txos;
      var token := PayToken(id, tokens[id], before, described);
      RewrittenAll(before, mid, described, id, txos);
      PaidEnds(before, id, start[id]);
      OneMorePaid(before, described, mid, txos, id, rest);
      OneMoreToken(before, start, tokens, id, rest);
      paid := tokens[id := token];
    }

    // The balance pass, over the tokens in any order.
    method PayTokens(start: Tokens, ghost described: Outs) returns (tokens: Tokens)
      requires start.Keys == Ids(txos, |txos|) && |described| == |txos|
      requires forall id :: id in start ==> Describes(txos, described, id, start[id])
      requires forall v :: 0 <= v < |txos| && !Transfers(txos[v]) ==> described[v] == txos[v]
      modifies this`txos
      ensures tokens.Keys == start.Keys
      ensures forall id :: id in start ==> tokens[id] == PaidOut(old(txos), id, start[id])
      ensures txos == described
    {
      tokens := start;
      ghost var before := txos;
      var rest := start.Keys;
      while rest != {}
        invariant rest <= start.Keys && |txos| == |before|
        invariant TokensExcept(before, start, tokens, rest)
        invariant PaidExcept(before, described, txos, rest)
      {
        var id :| id in rest;
        tokens := PayNext(tokens, id, before, described, start, rest);
        rest := rest - {id};
      }
      AllPaidFor(before, described, txos);
    }

    method FinishNext(tokens: Tokens, id: TokenId, isPending: bool, ghost before: Outs, ghost rest: set<TokenId>)
      requires id in tokens && id in rest && tokens[id].outputs == OutputsOf(before, id, |before|)
      requires MarkedExcept(before, tokens, isPending, txos, rest)
      modifies this`txos
      ensures MarkedExcept(before, tokens, isPending, txos, rest - {id})
    {
      SameOutputs(before, txos, id, |txos|);
      ghost var mid := txos;
      FinishToken(id, tokens[id], isPending);
      OneMoreMarked(before, tokens, isPending, mid, txos, id, rest);
    }

    method FinishTokens(tokens: Tokens, isPending: bool)
      requires tokens.Keys == Ids(txos, |txos|)
      requires forall id :: id in tokens ==> tokens[id].outputs == OutputsOf(txos, id, |txos|)
      modifies this`txos
      ensures MarkedExcept(old(txos), tokens, isPending, txos, {})
    {
      NoneMarked(txos, tokens, isPending);
      ghost var before := txos;
      var rest := tokens.Keys;
      while rest != {}
        invariant rest <= tokens.Keys && MarkedExcept(before, tokens, isPending, txos, rest)
      {
        var id :| id in rest;
        FinishNext(tokens, id, isPending, before, rest);
        rest := rest - {id};
      }
    }

    method PreSave() returns (tokens: Tokens)
      modifies this`txos
      ensures AllFinished(old(txos), spends, txos) && AllPassed(old(txos), spends, txos)
      ensures tokens.Keys == Ids(old(txos), |old(txos)|)
      ensures !IsPending(spends) ==> forall id :: id in tokens ==> tokens[id] == Outcome(old(txos), spends, id)
    {
      ghost var before := txos;
      tokens := CollectOutputs();
      if tokens == map[] {
        assert tokens.Keys == {};
        NoTokensFinished(txos, spends);
        FinishedArePassed(before, spends, txos);
        return;
      }
      var isPending: bool;
      tokens, isPending := SumInputs(tokens);
      if !isPending {
        DescribedAllDescribes(before, spends);
        tokens := PayTokens(tokens, DescribedAll(before, spends));
        DescribedMoves(before, spends);
      }
      SameTokensSameOutputs(before, txos);
      ghost var mid := txos;
      FinishTokens(tokens, isPending);
      MarkedIsFinished(before, spends, mid, txos, tokens);
      FinishedArePassed(before, spends, txos);
    }
  }

  lemma {:induction false} NoTokensFinished(txos: Outs, spends: seq<Spend>)
    requires Ids(txos, |txos|) == {}
    ensures AllFinished(txos, spends, txos)
  {
    assert forall v :: 0 <= v < |txos| && Transfers(txos[v]) ==> txos[v].value.token.id in Ids(txos, |txos|);
  }

  lemma {:induction false} MarkedIsFinished(before: Outs, spends: seq<Spend>, mid: Outs, txos: Outs, tokens: Tokens)
    requires |before| == |txos| && tokens.Keys == Ids(before, |before|)
    requires mid == if IsPending(spends) then before else DescribedAll(before, spends)
    requires SameTokens(before, mid)
    requires !IsPending(spends) ==> forall id :: id in tokens ==> tokens[id].deps == DepsOf(spends, id, |spends|)
    requires Ids(mid, |mid|) == tokens.Keys
    requires MarkedExcept(mid, tokens, IsPending(spends), txos, {})
    ensures AllFinished(before, spends, txos)
  {
    forall v | 0 <= v < |txos|
      ensures txos[v] == Finished(before, spends, v)
    {
      assert Transfers(mid[v]) <==> Transfers(before[v]);
      if Transfers(before[v]) {
        assert before[v].value.token.id in Ids(before, |before|);
      }
    }
  }

  predicate SameTokens(txos: Outs, txos': Outs) {
    && |txos| == |txos'|
    && forall v :: 0 <= v < |txos| ==>
      && (Transfers(txos'[v]) <==> Transfers(txos[v]))
      && (Transfers(txos[v]) ==> txos'[v].value.token.id == txos[v].value.token.id)
  }

  lemma {:induction false} SameTokensSameOutputs(txos: Outs, txos': Outs)
    requires SameTokens(txos, txos')
    ensures Ids(txos', |txos'|) == Ids(txos, |txos|)
    ensures forall id :: OutputsOf(txos', id, |txos'|) == OutputsOf(txos, id, |txos|)
  {
    forall id
      ensures OutputsOf(txos', id, |txos'|) == OutputsOf(txos, id, |txos|)
    {
      SameOutputs(txos, txos', id, |txos|);
    }
  }

  lemma {:induction false} SameOutputs(txos: Outs, txos': Outs, id: TokenId, n: nat)
    requires n <= |txos| == |txos'|
    requires forall v :: 0 <= v < n ==> (Moves(txos[v], id) <==> Moves(txos'[v], id))
    ensures OutputsOf(txos', id, n) == OutputsOf(txos, id, n)
  {
    if n > 0 {
      SameOutputs(txos, txos', id, n - 1);
    }
  }

  // Describing an output changes neither its kind nor its token.
  lemma {:induction false} DescribedMoves(txos: Outs, spends: seq<Spend>)
    ensures SameTokens(txos, DescribedAll(txos, spends))
  {
  }

  lemma {:induction false} NoneBefore(txos: Outs, id: TokenId, n: nat)
    requires n <= |txos| && id !in Ids(txos, n)
    ensures OutputsOf(txos, id, n) == []
  {
    if n > 0 {
      assert Transfers(txos[n - 1]) ==> txos[n - 1].value.token.id in Ids(txos, n);
      NoneBefore(txos, id, n - 1);
    }
  }

  lemma {:induction false} DescribedAllDescribes(txos: Outs, spends: seq<Spend>)
    ensures forall id :: Describes(txos, DescribedAll(txos, spends), id, Opening(txos, spends, id))
    ensures forall v :: 0 <= v < |txos| && !Transfers(txos[v]) ==> DescribedAll(txos, spends)[v] == txos[v]
  {
    forall id
      ensures Describes(txos, DescribedAll(txos, spends), id, Opening(txos, spends, id))
    {
      var start := Opening(txos, spends, id);
      forall j | 0 <= j < |start.outputs|
        ensures Described(txos, spends, start.outputs[j]) ==
                Some(PaidRecord(TokenAfter(start, OutAmts(txos, id), j), txos[start.outputs[j]].value))
      {
        RankOfOutput(txos, id, j);
      }
    }
  }

  /** What the accounts say, and what the records say */

  lemma {:induction false} NoSupplierNoInput(spends: seq<Spend>, id: TokenId, n: nat)
    requires n <= |spends| && Supplier(spends, id, n).None?
    ensures InAmts(spends, id, n) == []
  {
    if n > 0 {
      NoSupplierNoInput(spends, id, n - 1);
    }
  }

  // Main result on the balance pass: paid outputs and remaining balance make up the valid
  // inputs, and the pass records no failure exactly when there is a valid input and the
  // outputs ask for no more than the inputs hold.
  lemma {:induction false} TokenAccounts(txos: Outs, spends: seq<Spend>, id: TokenId)
    requires id in Ids(txos, |txos|) && InputTotal(spends, id) < TWO64
    ensures var t, amts := Outcome(txos, spends, id), OutAmts(txos, id);
            && (t.token.Some? ==> PaidTotal(amts, InputTotal(spends, id), |amts|) + t.balance == InputTotal(spends, id))
            && (t.token.None? ==> t.balance == InputTotal(spends, id) == 0)
            && (t.reason == None <==> t.token.Some? && PrefixSum(amts, |amts|) <= InputTotal(spends, id))
  {
    var amts := OutAmts(txos, id);
    var v :| 0 <= v < |txos| && Transfers(txos[v]) && txos[v].value.token.id == id;
    assert v in OutputsOf(txos, id, |txos|);
    Balance64Exact(spends, id, |spends|);
    PayingConserves(amts, InputTotal(spends, id), |amts|);
    NoFailureIffCovered(Supplier(spends, id, |spends|).Some?, amts, InputTotal(spends, id), |amts|);
    if Supplier(spends, id, |spends|).None? {
      NoSupplierNoInput(spends, id, |spends|);
    }
  }

  // The transfer or burn is covered by valid inputs of its token.
  predicate Deserved(txos: Outs, spends: seq<Spend>, id: TokenId) {
    && Supplier(spends, id, |spends|).Some?
    && PrefixSum(OutAmts(txos, id), |OutAmts(txos, id)|) <= InputTotal(spends, id)
  }

  // The recorded verdict is right exactly when the balance pass met no failure: as written,
  // every output of a transaction that is not pending ends Valid.
  lemma {:induction false} VerdictRightIffNoFailure(txos: Outs, spends: seq<Spend>, v: nat)
    requires v < |txos| && Transfers(txos[v]) && !IsPending(spends)
    requires InputTotal(spends, txos[v].value.token.id) < TWO64
    ensures var id, r := txos[v].value.token.id, Finished(txos, spends, v);
            && r.Some? && r.value.token.status == Valid && r.value.token.reason == txos[v].value.token.reason
            && ((r.value.token.status == Valid <==> Deserved(txos, spends, id)) <==>
                Outcome(txos, spends, id).reason == None)
            && (Outcome(txos, spends, id).reason == None <==>
                  Supplier(spends, id, |spends|).Some? &&
                  PrefixSum(OutAmts(txos, id), |OutAmts(txos, id)|) <= InputTotal(spends, id))
  {
    assert txos[v].value.token.id in Ids(txos, |txos|);
    TokenAccounts(txos, spends, txos[v].value.token.id);
  }

  // For instance a transfer out of nothing.
  lemma {:induction false} TransferOutOfNothing(id: TokenId, meta: Meta)
    ensures var txos := [Some(Record(Bsv21(id, Transfer, 5, Pending, None, meta), [], []))];
            && Outcome(txos, [], id).reason == Some(MISSING)
            && Finished(txos, [], 0).Some?
            && Finished(txos, [], 0).value.token.status == Valid
  {
    var txos := [Some(Record(Bsv21(id, Transfer, 5, Pending, None, meta), [], []))];
    assert OutputsOf(txos, id, 0) == [];
    assert OutputsOf(txos, id, 1) == [0];
    assert Failure(false, OutAmts(txos, id), 0, 1) == Some(MISSING);
  }
}
