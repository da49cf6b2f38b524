/**
 * The level curve of utils/xp.js: `calcLevel(xp) = max(1, floor(sqrt(xp / 5)))`.
 * For a whole number of XP this is the largest `n` with `5 * n * n <= xp`
 * (or 1 when that `n` is 0), so the model computes it with an integer square root.
 */
module Level {

  lemma SquareMonotone(x: nat, y: nat)
    requires x <= y
    ensures x * x <= y * y
    ensures x < y ==> x * x < y * y
  {
    assert x * x <= x * y;
    assert x * y <= y * y;
  }

  lemma SquareStep(n: nat)
    ensures (n + 1) * (n + 1) == n * n + 2 * n + 1
  {
  }

  /**
   * The integer square root of `m`: twice the root of `m / 4`, plus one when that still
   * fits, so the recursion is only as deep as the number of base-4 digits of `m`.
   */
  function ISqrt(m: nat): nat
    decreases m
  {
    if m == 0 then 0
    else
      var r := 2 * ISqrt(m / 4);
      if (r + 1) * (r + 1) <= m then r + 1 else r
  }

  /** Doubling a root of `m / 4` brackets the root of `m` between `2h` and `2h + 2`. */
  lemma DoubledRoot(m: nat, q: nat, h: nat)
    requires 4 * q <= m < 4 * q + 4
    requires h * h <= q < (h + 1) * (h + 1)
    ensures (2 * h) * (2 * h) <= m < (2 * h + 2) * (2 * h + 2)
  {
    assert (2 * h) * (2 * h) == 4 * (h * h);
    assert (2 * h + 2) * (2 * h + 2) == 4 * ((h + 1) * (h + 1));
  }

  /** Choosing `2h + 1` when its square fits, else `2h`, gives the root of `m`. */
  lemma RootStep(m: nat, h: nat, n: nat)
    requires (2 * h) * (2 * h) <= m < (2 * h + 2) * (2 * h + 2)
    requires n == if (2 * h + 1) * (2 * h + 1) <= m then 2 * h + 1 else 2 * h
    ensures n * n <= m < (n + 1) * (n + 1)
  {
  }

  /** ISqrt(m) is the one `n` with `n*n <= m < (n+1)*(n+1)`, that is `floor(sqrt(m))`. */
  lemma {:induction false} ISqrtBounds(m: nat)
    ensures ISqrt(m) * ISqrt(m) <= m < (ISqrt(m) + 1) * (ISqrt(m) + 1)
  {
    if m > 0 {
      var q := m / 4;
      ISqrtBounds(q);
      var h := ISqrt(q);
      DoubledRoot(m, q, h);
      var n := ISqrt(m);
      assert n == if (2 * h + 1) * (2 * h + 1) <= m then 2 * h + 1 else 2 * h;
      RootStep(m, h, n);
    }
  }

  /** The level reached with `xp` experience points. */
  function CalcLevel(xp: nat): (lv: nat)
    ensures lv >= 1
  {
    var n := ISqrt(xp / 5);
    if n < 1 then 1 else n
  }

  /**
   * `n` is the level for `xp`: it is at least 1, its threshold `5*n*n` is reached (or it
   * is the floor level 1 below 20 XP), and the next threshold is not.
   */
  predicate IsLevel(xp: nat, n: nat) {
    n >= 1
    && (5 * (n * n) <= xp || (n == 1 && xp < 20))
    && xp < 5 * ((n + 1) * (n + 1))
  }

  /** Levels of two XP amounts are ordered as the amounts are. */
  lemma LevelsOrdered(a: nat, b: nat, la: nat, lb: nat)
    requires a <= b && IsLevel(a, la) && IsLevel(b, lb)
    ensures la <= lb
  {
    if la > lb {
      SquareMonotone(lb + 1, la);
    }
  }

  /** Every `n` whose threshold is reached is at most the level. */
  lemma RootsBelowLevel(xp: nat, n: nat, lv: nat)
    requires 5 * (n * n) <= xp && IsLevel(xp, lv)
    ensures n <= lv
  {
    if n > lv {
      SquareMonotone(lv + 1, n);
    }
  }

  /** Two thresholds are at least 15 XP apart, so 5 XP more is at most one level more. */
  lemma LevelsClose(a: nat, b: nat, lv: nat, next: nat)
    requires a <= b <= a + 5 && IsLevel(a, lv) && IsLevel(b, next)
    ensures next <= lv + 1
  {
    if next > lv + 1 {
      SquareMonotone(lv + 2, next);
      SquareStep(lv + 1);
    }
  }

  /** The level is 1 below 20 XP and otherwise the largest `n` with `5*n*n <= xp`. */
  lemma LevelBounds(xp: nat)
    ensures IsLevel(xp, CalcLevel(xp))
  {
    var q := xp / 5;
    var n := ISqrt(q);
    ISqrtBounds(q);
    assert 5 * q <= xp < 5 * q + 5;
    if n < 1 {
      assert (n + 1) * (n + 1) == 1;
      assert xp < 5;
    }
  }

  /**
   * CalcLevel is at least every `n` with `5*n*n <= xp`; from 5 XP on its own threshold is
   * reached, so it is the largest such `n` (below 5 XP that `n` is 0 and the level is 1).
   */
  lemma LevelIsLargestRoot(xp: nat, n: nat)
    requires 5 * (n * n) <= xp
    ensures n <= CalcLevel(xp)
    ensures xp >= 5 ==> 5 * (CalcLevel(xp) * CalcLevel(xp)) <= xp
  {
    LevelBounds(xp);
    RootsBelowLevel(xp, n, CalcLevel(xp));
  }

  /** Any `n` with the two bounds is the level: the characterisation determines it. */
  lemma LevelUnique(xp: nat, n: nat)
    requires IsLevel(xp, n)
    ensures CalcLevel(xp) == n
  {
    LevelBounds(xp);
    LevelsOrdered(xp, xp, n, CalcLevel(xp));
    LevelsOrdered(xp, xp, CalcLevel(xp), n);
  }

  /** More XP never means a lower level. */
  lemma LevelMonotone(a: nat, b: nat)
    requires a <= b
    ensures CalcLevel(a) <= CalcLevel(b)
  {
    LevelBounds(a);
    LevelBounds(b);
    LevelsOrdered(a, b, CalcLevel(a), CalcLevel(b));
  }

  /**
   * A gain of at most 5 XP raises the level by at most one: the gap between
   * two consecutive level thresholds is 5*(2n+1) >= 15 XP.
   */
  lemma LevelStepAtMostOne(a: nat, b: nat)
    requires a <= b <= a + 5
    ensures CalcLevel(b) <= CalcLevel(a) + 1
  {
    LevelBounds(a);
    LevelBounds(b);
    LevelsClose(a, b, CalcLevel(a), CalcLevel(b));
  }

  /** The worked values of the level curve: 19 XP is level 1, 20 is level 2, 125 is level 5. */
  lemma LevelExamples()
    ensures CalcLevel(0) == 1 && CalcLevel(19) == 1
    ensures CalcLevel(20) == 2 && CalcLevel(123) == 4 && CalcLevel(124) == 4 && CalcLevel(125) == 5
  {
    LevelUnique(0, 1);
    LevelUnique(19, 1);
    LevelUnique(20, 2);
    LevelUnique(123, 4);
    LevelUnique(124, 4);
    LevelUnique(125, 5);
  }
}
