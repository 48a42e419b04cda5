// Small shared vocabulary: optional values, outpoints, unsigned 64-bit addition and sums.
module Common {

  datatype Option<+T> = None | Some(value: T)

  // An output of a transaction, by transaction and position.
  datatype Outpoint = Outpoint(txid: nat, vout: nat)

  const TWO64: nat := 0x1_0000_0000_0000_0000

  const TWO32: nat := 0x1_0000_0000

  function Elems<T>(s: seq<T>): set<T> {
    set x | x in s
  }

  lemma {:induction false} ElemsSnoc<T>(s: seq<T>, x: T)
    ensures Elems(s + [x]) == Elems(s) + {x}
  {
  }

  predicate Distinct<T(==)>(s: seq<T>) {
    forall i, j :: 0 <= i < j < |s| ==> s[i] != s[j]
  }

  // Go's `+` on uint64 values.
  function Add64(a: nat, b: nat): nat {
    (a + b) % TWO64
  }

  // Sum of the first k numbers of s.
  function PrefixSum(s: seq<nat>, k: nat): nat
    requires k <= |s|
  {
    if k == 0 then 0 else PrefixSum(s, k - 1) + s[k - 1]
  }

  lemma {:induction false} PrefixSumMonotone(s: seq<nat>, j: nat, k: nat)
    requires j <= k <= |s|
    ensures PrefixSum(s, j) <= PrefixSum(s, k)
    decreases k - j
  {
    if j < k {
      PrefixSumMonotone(s, j, k - 1);
    }
  }

  // Two half-open intervals of a running sum overlap only when they are the same interval.
  lemma {:induction false} IntervalUnique(s: seq<nat>, j: nat, k: nat, g: nat)
    requires j < |s| && k < |s|
    requires PrefixSum(s, j) <= g < PrefixSum(s, j + 1)
    requires PrefixSum(s, k) <= g < PrefixSum(s, k + 1)
    ensures j == k
  {
    if j < k {
      PrefixSumMonotone(s, j + 1, k);
    } else if k < j {
      PrefixSumMonotone(s, k + 1, j);
    }
  }

  // Some interval of the running sum holds every position below the total.
  lemma {:induction false} IntervalExists(s: seq<nat>, n: nat, g: nat) returns (k: nat)
    requires n <= |s| && g < PrefixSum(s, n)
    ensures k < n && PrefixSum(s, k) <= g < PrefixSum(s, k + 1)
  {
    if PrefixSum(s, n - 1) <= g {
      k := n - 1;
    } else {
      k := IntervalExists(s, n - 1, g);
    }
  }
}
