// The audits of pending transactions (ingest/ingest.go): which scores each of the three looks
// at, and when a mined transaction is archived.
module Audits {
  import opened Scores

  const TWO_MINUTES: nat := 120_000_000_000
  const MEMPOOL_HEIGHT: nat := 50_000_000

  // Scores of blocks up to MEMPOOL_HEIGHT, where times begin.
  const MEMPOOL_SCORE: nat := MEMPOOL_HEIGHT * BILLION

  // A chain tip the program can meet: deep enough to subtract ten, and short of MEMPOOL_HEIGHT.
  predicate IsTip(tip: nat) {
    10 < tip < MEMPOOL_HEIGHT
  }

  function ImmutableScore(tip: nat): nat
    requires IsTip(tip)
  {
    HeightScore(tip - 10, 0, 0)
  }

  // The bounds of a window are exclusive.  Times are in nanoseconds and taken as exact.
  predicate InAttempts(score: int, now: nat) {
    -(now - TWO_MINUTES) < score < 0
  }

  predicate InMined(score: int, tip: nat)
    requires IsTip(tip)
  {
    0 < score < ImmutableScore(tip)
  }

  predicate InMempool(score: int, now: nat) {
    MEMPOOL_SCORE < score < now - TWO_MINUTES
  }

  lemma {:induction false} UlpIsSmall(m: nat)
    requires m <= MEMPOOL_SCORE
    ensures Ulp(m) in {1, 2, 4, 8}
  {
    if m >= TWO53 && m / 2 >= TWO53 && m / 2 / 2 >= TWO53 {
      assert Ulp(m / 2 / 2 / 2) == 1;
      assert Ulp(m / 2 / 2) == 2;
      assert Ulp(m / 2) == 4;
    } else if m >= TWO53 && m / 2 >= TWO53 {
      assert Ulp(m / 2 / 2) == 1;
      assert Ulp(m / 2) == 2;
    }
  }

  // Rounding cannot step over an even multiple of the unit, and meets it from half a unit away.
  lemma {:induction false} RoundedBy1(m: nat, j: nat)
    ensures Nearest(m, 1) * 1 < 16 * j <==> m < 16 * j && 2 * (16 * j - m) > 1
    ensures m <= 16 * j ==> Nearest(m, 1) * 1 <= 16 * j
  {
  }

  lemma {:induction false} RoundedBy2(m: nat, j: nat)
    ensures Nearest(m, 2) * 2 < 16 * j <==> m < 16 * j && 2 * (16 * j - m) > 2
    ensures m <= 16 * j ==> Nearest(m, 2) * 2 <= 16 * j
  {
    var q, r := m / 2, m % 2;
    assert m == 2 * q + r;
    assert Nearest(m, 2) == if 2 * r < 2 || (2 * r == 2 && q % 2 == 0) then q else q + 1;
  }

  lemma {:induction false} RoundedBy4(m: nat, j: nat)
    ensures Nearest(m, 4) * 4 < 16 * j <==> m < 16 * j && 2 * (16 * j - m) > 4
    ensures m <= 16 * j ==> Nearest(m, 4) * 4 <= 16 * j
  {
    var q, r := m / 4, m % 4;
    assert m == 4 * q + r;
    assert Nearest(m, 4) == if 2 * r < 4 || (2 * r == 4 && q % 2 == 0) then q else q + 1;
  }

  lemma {:induction false} RoundedBy8(m: nat, j: nat)
    ensures Nearest(m, 8) * 8 < 16 * j <==> m < 16 * j && 2 * (16 * j - m) > 8
    ensures m <= 16 * j ==> Nearest(m, 8) * 8 <= 16 * j
  {
    var q, r := m / 8, m % 8;
    assert m == 8 * q + r;
    assert Nearest(m, 8) == if 2 * r < 8 || (2 * r == 8 && q % 2 == 0) then q else q + 1;
  }

  lemma {:induction false} FloatAgainst(m: nat, bound: nat)
    requires m <= MEMPOOL_SCORE && bound % 16 == 0
    ensures Float(m) < bound <==> m < bound && 2 * (bound - m) > Ulp(m)
    ensures m <= bound ==> Float(m) <= bound
  {
    UlpIsSmall(m);
    RoundedBy1(m, bound / 16);
    RoundedBy2(m, bound / 16);
    RoundedBy4(m, bound / 16);
    RoundedBy8(m, bound / 16);
  }

  lemma {:induction false} BlocksAreExact(h: nat)
    requires h <= MEMPOOL_HEIGHT
    ensures Float(h * BILLION) == h * BILLION
  {
    FloatAgainst(h * BILLION, h * BILLION);
  }

  // Rounding moves the score of a transaction past the start of a later block only when it is
  // at the very end of the block before.
  lemma {:induction false} ScoreAgainstBlock(h: nat, i: nat, block: nat)
    requires i < BILLION && 0 < h < MEMPOOL_HEIGHT && 0 < block < MEMPOOL_HEIGHT
    ensures HeightScore(h, i, 0) < HeightScore(block, 0, 0) <==>
              h < block && !(h == block - 1 && 2 * (BILLION - i) <= Ulp(h * BILLION + i))
  {
    UlpIsSmall(h * BILLION + i);
    BlocksAreExact(block);
    FloatAgainst(h * BILLION + i, block * BILLION);
  }

  // The window of mined transactions holds exactly those more than ten blocks deep, unless the
  // position is among the last few of a thousand million.
  lemma {:induction false} MinedWindowIff(h: nat, i: nat, tip: nat)
    requires IsTip(tip) && 0 < h < MEMPOOL_HEIGHT && i < BILLION
    ensures InMined(HeightScore(h, i, 0), tip) <==>
              h < tip - 10 && !(h == tip - 11 && 2 * (BILLION - i) <= Ulp(h * BILLION + i))
  {
    ScoreAgainstBlock(h, i, tip - 10);
    UlpIsSmall(h * BILLION + i);
    FloatAgainst(h * BILLION + i, 16);
  }

  lemma {:induction false} MinedWindowIsExact(h: nat, i: nat, tip: nat)
    requires IsTip(tip) && 0 < h < MEMPOOL_HEIGHT && i <= 999_999_995
    ensures InMined(HeightScore(h, i, 0), tip) <==> h < tip - 10
  {
    MinedWindowIff(h, i, tip);
    UlpIsSmall(h * BILLION + i);
  }

  // The archive tests compare with the score at position 0 (the audits) or at the true
  // position (on a callback): the first is exact, and the second agrees with the window.
  lemma {:induction false} ArchiveTestsAgree(h: nat, i: nat, tip: nat)
    requires IsTip(tip) && 0 < h < MEMPOOL_HEIGHT && i < BILLION
    ensures HeightScore(h, 0, 0) < ImmutableScore(tip) <==> h < tip - 10
    ensures HeightScore(h, i, 0) < ImmutableScore(tip) <==> InMined(HeightScore(h, i, 0), tip)
    ensures i <= 999_999_995 ==>
              (HeightScore(h, i, 0) < ImmutableScore(tip) <==> HeightScore(h, 0, 0) < ImmutableScore(tip))
  {
    ScoreAgainstBlock(h, 0, tip - 10);
    MinedWindowIff(h, i, tip);
    ScoreAgainstBlock(h, i, tip - 10);
    UlpIsSmall(h * BILLION + i);
    UlpIsSmall(h * BILLION);
  }

  // A last position past the exact range: eleven blocks deep, but outside the window.
  lemma {:induction false} LastPositionIsMissed()
    ensures IsTip(20_000_011) && !InMined(HeightScore(20_000_000, 999_999_999, 0), 20_000_011)
  {
    var m := 20_000_000 * BILLION + 999_999_999;
    assert Ulp(m / 4) == 1 && Ulp(m / 2) == 2 && Ulp(m) == 4;
    MinedWindowIff(20_000_000, 999_999_999, 20_000_011);
  }

  // No entry is looked at by two audits, and a mined transaction that is not deep enough by none.
  lemma {:induction false} WindowsAreDisjoint(score: int, now: nat, tip: nat)
    requires IsTip(tip)
    ensures !(InAttempts(score, now) && InMined(score, tip))
    ensures !(InAttempts(score, now) && InMempool(score, now))
    ensures !(InMined(score, tip) && InMempool(score, now))
  {
    BlocksAreExact(tip - 10);
  }

  // Times in the log, negative for an attempt and positive for an announced transaction, are looked
  // at from two minutes on; no time is mistaken for a block.
  lemma {:induction false} TwoMinutesOld(at: nat, now: nat, tip: nat)
    requires IsTip(tip) && MEMPOOL_SCORE < at <= now
    ensures InAttempts(-(at as int), now) <==> now - at > 120_000_000_000
    ensures InMempool(at, now) <==> now - at > 120_000_000_000
    ensures !InMined(at, tip) && !InAttempts(at, now) && !InMempool(-(at as int), now)
  {
    BlocksAreExact(tip - 10);
  }

  // A time of this century, rounded, still counts as one.
  lemma {:induction false} TimesAreNoBlocks(idx: nat, now: nat)
    requires now >= 2 * MEMPOOL_SCORE
    ensures HeightScore(0, idx, now) > MEMPOOL_SCORE
  {
    TimeIsNear(idx, now);
  }

  lemma {:induction false} YoungBlocksAreLeftAlone(h: nat, i: nat, now: nat, tip: nat)
    requires IsTip(tip) && tip - 10 <= h < MEMPOOL_HEIGHT && i < BILLION
    ensures var s := HeightScore(h, i, 0); !InAttempts(s, now) && !InMined(s, tip) && !InMempool(s, now)
  {
    MinedWindowIff(h, i, tip);
    FloatAgainst(h * BILLION + i, 16);
    FloatAgainst(h * BILLION + i, MEMPOOL_SCORE);
  }
}
