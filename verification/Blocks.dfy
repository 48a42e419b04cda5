// Filling a run of block headers backwards along hash links (blk/block.go, Blocks).
module ChainFill {
  import opened Common

  type Hash = nat

  datatype Header = Header(hash: Hash, prev: Hash)

  datatype Block = Block(header: Header, height: nat)

  // The answer to a question for the state of one header.
  datatype Reply = Error | State(longest: bool, height: nat, header: Header)

  datatype Outcome = Ok(blocks: seq<Option<Block>>) | Failed | Panic

  // uint32 subtraction
  function Sub32(a: nat, b: nat): nat {
    (a - b) % TWO32
  }

  function ReplyFor(replies: map<Hash, Reply>, hash: Hash): Reply {
    if hash in replies then replies[hash] else Error
  }

  // The header chosen to start from: the last one on the longest chain, if the questions asked
  // on the way are answered.
  datatype Choice = NoneLongest | Broken | From(height: nat, header: Header)

  function Choose(headers: seq<Header>, replies: map<Hash, Reply>, n: nat): Choice
    requires n <= |headers|
  {
    if n == 0 then NoneLongest
    else
      match ReplyFor(replies, headers[n - 1].hash)
      case Error => Broken
      case State(longest, height, header) => if longest then From(height, header) else Choose(headers, replies, n - 1)
  }

  function ByHash(headers: seq<Header>, n: nat): map<Hash, Header>
    requires n <= |headers|
  {
    if n == 0 then map[] else ByHash(headers, n - 1)[headers[n - 1].hash := headers[n - 1]]
  }

  // The n-th ancestor of a header, as far as the links lead.
  function Ancestor(byHash: map<Hash, Header>, header: Header, n: nat): Option<Header> {
    if n == 0 then Some(header)
    else
      var child := Ancestor(byHash, header, n - 1);
      if child.Some? && child.value.prev in byHash then Some(byHash[child.value.prev]) else None
  }

  lemma {:induction false} AncestorsEnd(byHash: map<Hash, Header>, header: Header, n: nat, m: nat)
    requires n <= m && Ancestor(byHash, header, n).None?
    ensures Ancestor(byHash, header, m).None?
    decreases m
  {
    if n < m {
      AncestorsEnd(byHash, header, n, m - 1);
    }
  }

  // Entry k of a run that ends with `header` at height `last`.
  function Entry(byHash: map<Hash, Header>, header: Header, last: nat, size: nat, k: nat): Option<Block>
    requires k < size
  {
    match Ancestor(byHash, header, size - 1 - k)
    case None => None
    case Some(h) => Some(Block(h, Sub32(last, size - 1 - k)))
  }

  // The outcome of filling the run that ends with `header`: it panics exactly when the links
  // lead below the first entry, and leaves gaps where they stop short of it.
  ghost predicate Filled(byHash: map<Hash, Header>, header: Header, last: nat, fromBlock: nat, r: Outcome) {
    var size := Sub32(last + 1, fromBlock);
    && (r.Panic? <==> size == 0 || Ancestor(byHash, header, size).Some?)
    && (!r.Panic? ==>
          r.Ok? && |r.blocks| == size && forall k :: 0 <= k < size ==>
              r.blocks[k] == Entry(byHash, header, last, size, k))
  }

  ghost predicate Answers(headers: seq<Header>, fromBlock: nat, replies: map<Hash, Reply>, r: Outcome) {
    match Choose(headers, replies, |headers|)
    case Broken => r == Failed
    case NoneLongest => r == Ok([])
    case From(last, header) => Filled(ByHash(headers, |headers|), header, last, fromBlock, r)
  }

  method Blocks(headers: seq<Header>, fromBlock: nat, replies: map<Hash, Reply>) returns (r: Outcome)
    requires fromBlock < TWO32
    ensures Answers(headers, fromBlock, replies, r)
  {
    var byHash: map<Hash, Header> := map[];
    for n: nat := 0 to |headers|
      invariant byHash == ByHash(headers, n)
    {
      byHash := byHash[headers[n].hash := headers[n]];
    }
    var i: nat := |headers|;
    while i > 0
      invariant i <= |headers|
      invariant Choose(headers, replies, |headers|) == Choose(headers, replies, i)
    {
      i := i - 1;
      match ReplyFor(replies, headers[i].hash) {
        case Error => return Failed;
        case State(longest, height, header) =>
          if longest {
            r := Fill(byHash, header, height, fromBlock);
            return;
          }
      }
    }
    r := Ok([]);
  }

  method Fill(byHash: map<Hash, Header>, header: Header, last: nat, fromBlock: nat) returns (r: Outcome)
    requires fromBlock < TWO32
    ensures Filled(byHash, header, last, fromBlock, r)
  {
    var size: nat := Sub32(last + 1, fromBlock);
    var results := new Option<Block>[size](_ => None);
    var block, height: nat := header, last % TWO32;
    ghost var n: nat := 0;
    FirstIndex(last, fromBlock);
    if Sub32(height, fromBlock) >= size {
      return Panic;
    }
    results[Sub32(height, fromBlock)] := Some(Block(block, height));
    while true
      invariant n < size && height == Sub32(last, n) && Sub32(height, fromBlock) == size - 1 - n
      invariant Ancestor(byHash, header, n) == Some(block)
      invariant results.Length == size
      invariant FilledFrom(byHash, header, last, results[..], size - 1 - n)
      decreases size - n
    {
      var parent := block;
      if parent.prev !in byHash {
        NothingBefore(byHash, header, last, results[..], n);
        return Ok(results[..]);
      }
      NextIndex(last, n, fromBlock, size);
      block := byHash[parent.prev];
      height := Sub32(height, 1);
      n := n + 1;
      if Sub32(height, fromBlock) >= size {
        return Panic;
      }
      results[Sub32(height, fromBlock)] := Some(Block(block, height));
    }
  }

  // The entries from k on are in place, and those before are still empty.
  predicate FilledFrom(byHash: map<Hash, Header>, header: Header, last: nat, results: seq<Option<Block>>, k: int) {
    forall j :: 0 <= j < |results| ==> results[j] == if j < k then None else Entry(byHash, header, last, |results|, j)
  }

  lemma {:induction false} FirstIndex(last: nat, fromBlock: nat)
    requires fromBlock < TWO32
    ensures last % TWO32 == Sub32(last, 0)
    ensures var size := Sub32(last + 1, fromBlock);
            Sub32(last % TWO32, fromBlock) == if size == 0 then TWO32 - 1 else size - 1
  {
  }

  lemma {:induction false} NextIndex(last: nat, n: nat, fromBlock: nat, size: nat)
    requires n < size < TWO32 && Sub32(Sub32(last, n), fromBlock) == size - 1 - n
    ensures Sub32(Sub32(last, n), 1) == Sub32(last, n + 1)
    ensures var next := Sub32(Sub32(last, n + 1), fromBlock);
            if n + 1 == size then next == TWO32 - 1 >= size else next == size - 2 - n
  {
  }

  lemma {:induction false} NothingBefore(byHash: map<Hash, Header>, header: Header, last: nat,
                                         results: seq<Option<Block>>, n: nat)
    requires n < |results| && Ancestor(byHash, header, n + 1).None?
    requires FilledFrom(byHash, header, last, results, |results| - 1 - n)
    ensures FilledFrom(byHash, header, last, results, 0)
    ensures Ancestor(byHash, header, |results|).None?
  {
    var size := |results|;
    AncestorsEnd(byHash, header, n + 1, size);
    forall k | 0 <= k < size - 1 - n
      ensures Entry(byHash, header, last, size, k).None?
    {
      AncestorsEnd(byHash, header, n + 1, size - 1 - k);
    }
  }

  /** Which header is chosen */

  // The service answers for header i that it is not on the longest chain.
  predicate IsOff(headers: seq<Header>, replies: map<Hash, Reply>, i: nat)
    requires i < |headers|
  {
    headers[i].hash in replies && replies[headers[i].hash].State? && !replies[headers[i].hash].longest
  }

  // The last header that is on the longest chain, all later ones being answered and off it.
  predicate IsLast(headers: seq<Header>, replies: map<Hash, Reply>, i: nat) {
    && i < |headers| && headers[i].hash in replies
    && replies[headers[i].hash].State? && replies[headers[i].hash].longest
    && forall j :: i < j < |headers| ==> IsOff(headers, replies, j)
  }

  // A header whose question fails before one on the longest chain is met.
  predicate IsBreak(headers: seq<Header>, replies: map<Hash, Reply>, i: nat) {
    && i < |headers| && (headers[i].hash !in replies || replies[headers[i].hash].Error?)
    && forall j :: i < j < |headers| ==> IsOff(headers, replies, j)
  }

  lemma {:induction false} ChoiceIs(headers: seq<Header>, replies: map<Hash, Reply>, n: nat) returns (i: nat)
    requires n <= |headers| && forall j :: n <= j < |headers| ==> IsOff(headers, replies, j)
    ensures match Choose(headers, replies, n)
            case From(height, header) =>
              IsLast(headers, replies, i) && replies[headers[i].hash].height == height &&
              replies[headers[i].hash].header == header
            case Broken => IsBreak(headers, replies, i)
            case NoneLongest => forall j :: 0 <= j < |headers| ==> IsOff(headers, replies, j)
  {
    i := 0;
    if n > 0 {
      if IsOff(headers, replies, n - 1) {
        i := ChoiceIs(headers, replies, n - 1);
      } else {
        i := n - 1;
      }
    }
  }

  lemma {:induction false} NoLater(headers: seq<Header>, replies: map<Hash, Reply>, i: nat, j: nat)
    requires IsLast(headers, replies, i) || IsBreak(headers, replies, i)
    requires j < |headers| && !IsOff(headers, replies, j)
    ensures j <= i
  {
  }

  // At most one header is the last on the chain or the one whose question fails.
  lemma {:induction false} OnlyOne(headers: seq<Header>, replies: map<Hash, Reply>, i: nat, j: nat)
    requires IsLast(headers, replies, i) || IsBreak(headers, replies, i)
    requires IsLast(headers, replies, j) || IsBreak(headers, replies, j)
    ensures i == j
  {
    NoLater(headers, replies, i, j);
    NoLater(headers, replies, j, i);
  }

  // The run ends with the last header on the longest chain; it fails if a question about a later one
  // does, and is empty if all are off the chain.
  lemma {:induction false} OutcomeIs(headers: seq<Header>, fromBlock: nat, replies: map<Hash, Reply>, r: Outcome,
                                     i: nat)
    requires Answers(headers, fromBlock, replies, r)
    ensures IsLast(headers, replies, i) ==>
              var reply := replies[headers[i].hash];
              Filled(ByHash(headers, |headers|), reply.header, reply.height, fromBlock, r)
    ensures IsBreak(headers, replies, i) ==> r == Failed
    ensures (forall j :: 0 <= j < |headers| ==> IsOff(headers, replies, j)) ==> r == Ok([])
  {
    var k := ChoiceIs(headers, replies, |headers|);
    var c := Choose(headers, replies, |headers|);
    assert !c.NoneLongest? ==> k < |headers| && !IsOff(headers, replies, k);
    assert IsLast(headers, replies, i) || IsBreak(headers, replies, i) ==> !IsOff(headers, replies, i);
    if (IsLast(headers, replies, i) || IsBreak(headers, replies, i)) && !c.NoneLongest? {
      OnlyOne(headers, replies, i, k);
    }
  }

  /** On a chain */

  // chain[h] is the longest chain's header at height h; its links hold, and hashes are distinct.
  predicate IsChain(chain: seq<Header>) {
    && |chain| < TWO32
    && (forall h :: 0 < h < |chain| ==> chain[h].prev == chain[h - 1].hash)
    && (forall g, h :: 0 <= g < h < |chain| ==> chain[g].hash != chain[h].hash)
  }

  // A reply about a header that is said to be on the longest chain tells its place.
  predicate Truthful(chain: seq<Header>, replies: map<Hash, Reply>) {
    forall hash :: hash in replies && replies[hash].State? && replies[hash].longest ==>
      replies[hash].height < |chain| && chain[replies[hash].height] == replies[hash].header
  }

  // The headers returned hold the chain from `low` through `last`, and of the chain below nothing.
  predicate Holds(headers: seq<Header>, chain: seq<Header>, low: nat, last: nat) {
    && (forall h :: low <= h <= last < |chain| ==> chain[h] in headers)
    && (forall i :: 0 <= i < |headers| ==> forall h :: 0 <= h < low && h < |chain| ==> headers[i].hash != chain[h].hash)
    && (forall i :: 0 <= i < |headers| ==>
        forall h :: low <= h <= last < |chain| && headers[i].hash == chain[h].hash ==> headers[i] == chain[h])
  }

  lemma {:induction false} ByHashHolds(headers: seq<Header>, n: nat, hash: Hash)
    requires n <= |headers|
    ensures hash in ByHash(headers, n) <==> exists i :: 0 <= i < n && headers[i].hash == hash
    ensures hash in ByHash(headers, n) ==>
        exists i :: 0 <= i < n && headers[i] == ByHash(headers, n)[hash] && headers[i].hash == hash &&
            forall j :: i < j < n ==> headers[j].hash != hash
  {
    if n > 0 {
      ByHashHolds(headers, n - 1, hash);
    }
  }

  // Going back n steps leads to the chain's header n blocks below, as long as that is held.
  lemma {:induction false} AncestorsOnChain(headers: seq<Header>, chain: seq<Header>, low: nat, last: nat, n: nat)
    requires IsChain(chain) && Holds(headers, chain, low, last) && low + n <= last < |chain|
    ensures Ancestor(ByHash(headers, |headers|), chain[last], n) == Some(chain[last - n])
  {
    if n > 0 {
      AncestorsOnChain(headers, chain, low, last, n - 1);
      ByHashHolds(headers, |headers|, chain[last - n].hash);
      var i :| 0 <= i < |headers| && headers[i] == chain[last - n];
      assert headers[i].hash == chain[last - n].hash;
    }
  }

  lemma {:induction false} WalkStops(headers: seq<Header>, chain: seq<Header>, low: nat, last: nat)
    requires IsChain(chain) && Holds(headers, chain, low, last) && low <= last < |chain|
    requires low == 0 ==> forall i :: 0 <= i < |headers| ==> headers[i].hash != chain[0].prev
    ensures Ancestor(ByHash(headers, |headers|), chain[last], last - low + 1).None?
  {
    AncestorsOnChain(headers, chain, low, last, last - low);
    assert low > 0 ==> chain[low].prev == chain[low - 1].hash;
    ByHashHolds(headers, |headers|, chain[low].prev);
  }

  // If the headers hold the chain from the block asked for through the one chosen, and none of
  // it below, the run comes back whole: no gaps, the heights in order, each block the parent of
  // the next.
  lemma {:induction false} RunIsWhole(headers: seq<Header>, chain: seq<Header>, fromBlock: nat,
                                      replies: map<Hash, Reply>, r: Outcome, i: nat)
    requires fromBlock < TWO32 && IsChain(chain) && Truthful(chain, replies) && Answers(headers, fromBlock, replies, r)
    requires fromBlock == 0 && |chain| > 0 ==> forall k :: 0 <= k < |headers| ==> headers[k].hash != chain[0].prev
    requires IsLast(headers, replies, i)
    requires var last := replies[headers[i].hash].height; fromBlock <= last && Holds(headers, chain, fromBlock, last)
    ensures r.Ok? && fromBlock + |r.blocks| == replies[headers[i].hash].height + 1 <= |chain|
    ensures forall k :: 0 <= k < |r.blocks| ==> r.blocks[k] == Some(Block(chain[fromBlock + k], fromBlock + k))
    ensures forall k :: 0 < k < |r.blocks| ==> r.blocks[k].value.header.prev == r.blocks[k - 1].value.header.hash
  {
    OutcomeIs(headers, fromBlock, replies, r, i);
    WholeFrom(headers, chain, fromBlock, replies[headers[i].hash].height, r);
  }

  lemma {:induction false} WholeFrom(headers: seq<Header>, chain: seq<Header>, fromBlock: nat, last: nat, r: Outcome)
    requires fromBlock < TWO32 && IsChain(chain) && fromBlock <= last < |chain|
    requires Filled(ByHash(headers, |headers|), chain[last], last, fromBlock, r)
    requires fromBlock == 0 ==> forall k :: 0 <= k < |headers| ==> headers[k].hash != chain[0].prev
    requires Holds(headers, chain, fromBlock, last)
    ensures r.Ok? && fromBlock + |r.blocks| == last + 1
    ensures forall k :: 0 <= k < |r.blocks| ==> r.blocks[k] == Some(Block(chain[fromBlock + k], fromBlock + k))
  {
    WalkStops(headers, chain, fromBlock, last);
    forall k | 0 <= k < |r.blocks|
      ensures r.blocks[k] == Some(Block(chain[fromBlock + k], fromBlock + k))
    {
      AncestorsOnChain(headers, chain, fromBlock, last, |r.blocks| - 1 - k);
    }
  }

  // One header too many, the parent of the first block, and the program panics.
  lemma {:induction false} ParentHeaderPanics(headers: seq<Header>, chain: seq<Header>, fromBlock: nat,
                                              replies: map<Hash, Reply>, r: Outcome, i: nat)
    requires 0 < fromBlock < TWO32 && IsChain(chain) && Truthful(chain, replies)
    requires Answers(headers, fromBlock, replies, r) && IsLast(headers, replies, i)
    requires var last := replies[headers[i].hash].height;
             fromBlock <= last && Holds(headers, chain, fromBlock - 1, last)
    ensures r.Panic?
  {
    OutcomeIs(headers, fromBlock, replies, r, i);
    var last := replies[headers[i].hash].height;
    AncestorsOnChain(headers, chain, fromBlock - 1, last, last - fromBlock + 1);
  }

  // Block 2 at height 1 was asked for, and its parent, block 1, is returned as well.
  lemma {:induction false} ParentHeaderExample(r: Outcome)
    ensures var headers := [Header(1, 0), Header(2, 1)];
            var replies := map[2 := State(true, 1, Header(2, 1))];
            Answers(headers, 1, replies, r) ==> r.Panic?
  {
    var headers := [Header(1, 0), Header(2, 1)];
    var replies := map[2 := State(true, 1, Header(2, 1))];
    assert Choose(headers, replies, 2) == From(1, Header(2, 1));
    assert ByHash(headers, 1) == map[1 := Header(1, 0)];
    assert ByHash(headers, 2) == map[1 := Header(1, 0), 2 := Header(2, 1)];
    assert Ancestor(ByHash(headers, 2), Header(2, 1), 0) == Some(Header(2, 1));
    assert Ancestor(ByHash(headers, 2), Header(2, 1), 1) == Some(Header(1, 0));
  }
}
