// Scores (idx/index-context.go, HeightScore): a block height and a position packed into one
// 64-bit floating-point number, and how they are read back.
module Scores {

  const BILLION: nat := 1_000_000_000
  const TWO53: nat := 0x20_0000_0000_0000

  // The spacing of floating-point numbers at m.
  function Ulp(m: nat): (u: nat)
    ensures u > 0
    decreases m
  {
    if m < TWO53 then 1 else 2 * Ulp(m / 2)
  }

  // x / u rounded to the nearest integer, ties to even.
  function Nearest(x: nat, u: nat): (n: nat)
    requires u > 0
    ensures n == x / u || n == x / u + 1
  {
    if 2 * (x % u) < u || (2 * (x % u) == u && x / u % 2 == 0) then x / u else x / u + 1
  }

  // float64(m)
  function Float(m: nat): nat {
    Nearest(m, Ulp(m)) * Ulp(m)
  }

  // Go's unsigned 64-bit arithmetic does not overflow here: heights have 32 bits.
  // Height 0 stands for the current time.
  function HeightScore(height: nat, idx: nat, now: nat): nat {
    if height == 0 then Float(now) else Float(height * BILLION + idx)
  }

  lemma {:induction false} SmallIsExact(m: nat)
    requires m < TWO53
    ensures Float(m) == m
  {
  }

  // Nearest is within half a unit.
  lemma {:induction false} NearestIsNear(x: nat, u: nat)
    requires u > 0
    ensures -(u as int) <= 2 * (Nearest(x, u) * u - x) <= u
  {
    var q, r := x / u, x % u;
    assert x == q * u + r;
    assert (q + 1) * u == q * u + u;
  }

  lemma {:induction false} UlpIsRelative(m: nat)
    ensures m >= TWO53 ==> Ulp(m) * 0x10_0000_0000_0000 <= m
    ensures m < TWO53 ==> Ulp(m) == 1
    decreases m
  {
    if m >= TWO53 {
      UlpIsRelative(m / 2);
      assert m / 2 * 2 <= m;
    }
  }

  // The score of an unmined transaction is the time, to one part in 2^53, and the position does not
  // matter.
  lemma {:induction false} TimeIsNear(idx: nat, now: nat)
    requires now >= TWO53
    ensures var d := HeightScore(0, idx, now) - now;
            -(now as int) <= TWO53 * d <= now
  {
    UlpIsRelative(now);
    NearestIsNear(now, Ulp(now));
    MulNear(HeightScore(0, idx, now) - now, Ulp(now), now);
  }

  lemma {:induction false} MulNear(d: int, u: nat, m: nat)
    requires -(u as int) <= 2 * d <= u && u * 0x10_0000_0000_0000 <= m
    ensures -(m as int) <= TWO53 * d <= m
  {
  }

  /** Order */

  const MAX_HEIGHT := 9007198

  // Up to that height, scores order transactions by height and position, and distinguish them.
  lemma {:induction false} ScoresOrder(h: nat, i: nat, h': nat, i': nat, now: nat)
    requires 0 < h <= MAX_HEIGHT && 0 < h' <= MAX_HEIGHT && i < BILLION && i' < BILLION
    ensures HeightScore(h, i, now) < HeightScore(h', i', now) <==> h < h' || (h == h' && i < i')
    ensures HeightScore(h, i, now) == HeightScore(h', i', now) <==> h == h' && i == i'
    ensures HeightScore(h, i, now) == h * BILLION + i < TWO53
  {
    SmallIsExact(h * BILLION + i);
    SmallIsExact(h' * BILLION + i');
  }

  lemma {:induction false} UlpOfPairs(m: nat)
    requires m < 2 * TWO53
    ensures Ulp(m) == if m < TWO53 then 1 else 2
  {
    assert m >= TWO53 ==> Ulp(m / 2) == 1;
  }

  // From there on two positions share a score exactly when both are next to the same multiple of
  // four, or are it.
  lemma {:induction false} ScoresCollideIff(h: nat, i: nat, h': nat, i': nat, now: nat)
    requires MAX_HEIGHT < h < 0xFF_FFFF && MAX_HEIGHT < h' < 0xFF_FFFF && i < BILLION && i' < BILLION
    requires h * BILLION + i >= TWO53 && h' * BILLION + i' >= TWO53
    ensures var m, m' := h * BILLION + i, h' * BILLION + i';
            HeightScore(h, i, now) == HeightScore(h', i', now) <==>
              m == m' || ((m + 1) / 4 == (m' + 1) / 4 && m % 4 != 2 && m' % 4 != 2)
  {
    PairsCollideIff(h * BILLION + i, h' * BILLION + i');
  }

  lemma {:induction false} PairScore(m: nat)
    requires TWO53 <= m < 2 * TWO53
    ensures Float(m) == 4 * ((m + 1) / 4) + (if m % 4 == 2 then 2 else 0)
    ensures m % 4 == 2 ==> m == 4 * ((m + 1) / 4) + 2
  {
    UlpOfPairs(m);
    assert m == m / 2 * 2 + m % 2;
  }

  lemma {:induction false} PairsCollideIff(m: nat, m': nat)
    requires TWO53 <= m < 2 * TWO53 && TWO53 <= m' < 2 * TWO53
    ensures Float(m) == Float(m') <==> m == m' || ((m + 1) / 4 == (m' + 1) / 4 && m % 4 != 2 && m' % 4 != 2)
  {
    PairScore(m);
    PairScore(m');
  }

  // One block later two positions share a score.
  lemma {:induction false} ScoresCollide(now: nat)
    ensures HeightScore(MAX_HEIGHT + 1, 254740992, now) == HeightScore(MAX_HEIGHT + 1, 254740993, now)
  {
    var m := (MAX_HEIGHT + 1) * BILLION + 254740992;
    assert m == TWO53;
    UlpOfPairs(m);
    UlpOfPairs(m + 1);
  }

  /** Reading a height back */

  function Pow2(p: nat): (r: nat)
    ensures r > 0
  {
    if p == 0 then 1 else 2 * Pow2(p - 1)
  }

  lemma {:induction false} Pow2Grows(p: nat, q: nat)
    requires p <= q
    ensures Pow2(p) <= Pow2(q)
    decreases q
  {
    if p < q {
      Pow2Grows(p, q - 1);
    }
  }

  // How far m / BILLION must be shifted to have 53 binary digits before the point.
  function Shift(m: nat): nat
    requires 0 < m < TWO53 * BILLION
    decreases TWO53 * BILLION - m
  {
    if 2 * m >= TWO53 * BILLION then 0 else 1 + Shift(2 * m)
  }

  lemma {:induction false} ShiftFits(m: nat)
    requires 0 < m < TWO53 * BILLION
    ensures TWO53 * BILLION <= 2 * m * Pow2(Shift(m))
    ensures m * Pow2(Shift(m)) < TWO53 * BILLION
    decreases TWO53 * BILLION - m
  {
    if 2 * m < TWO53 * BILLION {
      ShiftFits(2 * m);
      assert m * Pow2(Shift(m)) == 2 * m * Pow2(Shift(2 * m));
    }
  }

  // uint32(score / 1000000000): the quotient is rounded to 53 digits, then cut off.
  function DecodedHeight(score: nat): nat {
    if score == 0 || score >= TWO53 * BILLION then 0
    else Nearest(score * Pow2(Shift(score)), BILLION) / Pow2(Shift(score)) % 0x1_0000_0000
  }

  // uint64(score) % 1000000000
  function DecodedIdx(score: nat): nat {
    score % BILLION
  }

  lemma {:induction false} MulMonotone(a: nat, b: nat, d: nat)
    requires a <= b
    ensures a * d <= b * d
  {
    assert b * d == a * d + (b - a) * d;
  }

  lemma {:induction false} DivisionIsUnique(n: nat, d: nat, q: nat, r: nat)
    requires r < d && n == q * d + r
    ensures n / d == q && n % d == r
  {
    var a := n / d;
    assert n == a * d + n % d;
    if a < q {
      MulMonotone(a + 1, q, d);
    } else if q < a {
      MulMonotone(q + 1, a, d);
    }
  }

  // Rounding the quotient at 29 or more binary places cannot reach the next height.
  lemma {:induction false} RoundedQuotient(h: nat, i: nat, pow: nat)
    requires i < BILLION && pow > BILLION / 2
    ensures Nearest((h * BILLION + i) * pow, BILLION) / pow == h
  {
    var whole, part := h * pow, i * pow;
    assert (h * BILLION + i) * pow == whole * BILLION + part;
    MulMonotone(i, BILLION - 1, pow);
    NearestIsNear(whole * BILLION + part, BILLION);
    RoundsWithin(whole, part, pow);
    var n := Nearest(whole * BILLION + part, BILLION);
    DivisionIsUnique(n, pow, h, n - whole);
  }

  lemma {:induction false} RoundsWithin(whole: nat, part: nat, pow: nat)
    requires pow > BILLION / 2 && part <= BILLION * pow - pow
    ensures whole <= Nearest(whole * BILLION + part, BILLION) < whole + pow
  {
    NearestIsNear(whole * BILLION + part, BILLION);
  }

  lemma {:induction false} Pow2At28()
    ensures Pow2(28) == 0x1000_0000 && Pow2(29) == 0x2000_0000
  {
    assert Pow2(4) == 16;
    assert Pow2(8) == 256;
    assert Pow2(12) == 4096;
    assert Pow2(16) == 65536;
    assert Pow2(20) == 1048576;
    assert Pow2(24) == 16777216;
  }

  lemma {:induction false} ShiftAbove(m: nat, p: nat)
    requires 0 < m < TWO53 * BILLION && 2 * m * Pow2(p) < TWO53 * BILLION
    ensures Shift(m) > p
  {
    ShiftFits(m);
    if Shift(m) <= p {
      Pow2Grows(Shift(m), p);
      MulMonotone(Pow2(Shift(m)), Pow2(p), 2 * m);
    }
  }

  // Heights below 2^24 read back as they went in, whatever the position.
  lemma {:induction false} HeightReadsBack(h: nat, i: nat)
    requires 0 < h < 0x100_0000 && i < BILLION
    ensures DecodedHeight(h * BILLION + i) == h
  {
    var m := h * BILLION + i;
    Pow2At28();
    ShiftAbove(m, 28);
    Pow2Grows(29, Shift(m));
    RoundedQuotient(h, i, Pow2(Shift(m)));
  }

  // So do heights and positions as long as scores are exact.
  lemma {:induction false} ScoreReadsBack(h: nat, i: nat, now: nat)
    requires 0 < h <= MAX_HEIGHT && i < BILLION
    ensures DecodedHeight(HeightScore(h, i, now)) == h
    ensures DecodedIdx(HeightScore(h, i, now)) == i
  {
    SmallIsExact(h * BILLION + i);
    HeightReadsBack(h, i);
    DivisionIsUnique(h * BILLION + i, BILLION, h, i);
  }

  // Further up, they read back exactly when the score is exact.
  lemma {:induction false} ReadsBackIffExact(h: nat, i: nat, now: nat)
    requires 0 < h < 0xFF_FFFF && i < BILLION
    ensures DecodedHeight(HeightScore(h, i, now)) == h && DecodedIdx(HeightScore(h, i, now)) == i <==>
              h * BILLION + i < TWO53 || (h * BILLION + i) % 2 == 0
  {
    var m := h * BILLION + i;
    var f := Float(m);
    UlpOfPairs(m);
    NearestIsNear(m, Ulp(m));
    assert f == m <==> m < TWO53 || m % 2 == 0;
    assert m - 1 <= f <= m + 1;
    var h', i' := f / BILLION, f % BILLION;
    HeightReadsBack(h', i');
    DivisionIsUnique(m, BILLION, h, i);
  }

  // The first block past that bound: its last position reads back as the next block.
  lemma {:induction false} HeightReadsWrong(now: nat)
    ensures DecodedHeight(HeightScore(MAX_HEIGHT + 1, 999_999_999, now)) == MAX_HEIGHT + 2
  {
    var m := (MAX_HEIGHT + 1) * BILLION + 999_999_999;
    UlpOfPairs(m);
    assert Float(m) == (MAX_HEIGHT + 2) * BILLION;
    HeightReadsBack(MAX_HEIGHT + 2, 0);
  }
}
