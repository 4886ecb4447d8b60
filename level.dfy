/**
  The level model of the profile page: how much experience each level costs,
  the cumulative experience needed to reach a level, and the inverse search
  from an experience total back to a level.
*/
module LevelModel {

  /** `Math.round` on the values met here: the nearest integer, halves upwards. */
  function Round(x: real): int {
    (x + 0.5).Floor
  }

  /**
    Experience needed for one level. The factor 0.66 is exact in this model,
    so the product is already an integer and the rounding changes nothing.
  */
  function TotalXpForLevel(level: nat): (r: int)
    ensures r == 99 * level * level + 381 * level + 350
    ensures r >= 350
  {
    var x := level as real;
    var product := (x * 0.66 + 1.0) * (((level + 2) * 150 + 50) as real);
    assert ((level + 2) * 150 + 50) as real == 150.0 * x + 350.0;
    assert product == 99.0 * x * x + 381.0 * x + 350.0;
    assert (99 * level * level + 381 * level + 350) as real == 99.0 * x * x + 381.0 * x + 350.0;
    Round(product)
  }

  /** Experience needed to reach `level` from level 0: the per-level amounts of levels 1..level. */
  function CumulXpForLevel(level: nat): (r: nat)
    ensures r >= 350 * level
  {
    if level > 0 then TotalXpForLevel(level) + CumulXpForLevel(level - 1) else 0
  }

  /** The cumulative table starts at 0 and each step adds the positive amount of the next level. */
  lemma CumulXpStep(level: nat)
    ensures CumulXpForLevel(0) == 0
    ensures CumulXpForLevel(level + 1) == CumulXpForLevel(level) + TotalXpForLevel(level + 1)
    ensures CumulXpForLevel(level + 1) > CumulXpForLevel(level)
  {
  }

  /** The cumulative table is strictly increasing. */
  lemma {:induction false} CumulXpStrictlyIncreasing(lo: nat, hi: nat)
    requires lo < hi
    ensures CumulXpForLevel(lo) < CumulXpForLevel(hi)
  {
    if lo + 1 < hi {
      CumulXpStrictlyIncreasing(lo, hi - 1);
    }
  }

  /** Closed form of the cumulative table (sums of k^2, k and 1 over k = 1..level). */
  lemma {:induction false} CumulXpClosedForm(level: nat)
    ensures 6 * CumulXpForLevel(level)
         == 99 * (level * (level + 1) * (2 * level + 1)) + 1143 * (level * (level + 1)) + 2100 * level
  {
    if level > 0 {
      CumulXpClosedForm(level - 1);
      ClosedFormStep(level - 1);
    }
  }

  /** The closed form grows by six times the amount of the next level. */
  lemma ClosedFormStep(l: nat)
    ensures var L := l + 1;
      99 * (L * (L + 1) * (2 * L + 1)) + 1143 * (L * (L + 1)) + 2100 * L
      == 99 * (l * (l + 1) * (2 * l + 1)) + 1143 * (l * (l + 1)) + 2100 * l + 6 * TotalXpForLevel(L)
  {
    var L := l + 1;
    SquareSumStep(l);
    assert L * (L + 1) == l * (l + 1) + 2 * L;
    assert TotalXpForLevel(L) == 99 * (L * L) + 381 * L + 350;
  }

  /** (l+1)(l+2)(2l+3) = l(l+1)(2l+1) + 6(l+1)^2, the step of the sum of squares. */
  lemma SquareSumStep(l: nat)
    ensures (l + 1) * (l + 2) * (2 * l + 3) == l * (l + 1) * (2 * l + 1) + 6 * ((l + 1) * (l + 1))
  {
    var m := l * (l + 1);
    assert (l + 1) * (l + 2) == m + 2 * l + 2;
    assert (m + 2 * l + 2) * (2 * l + 3) == m * (2 * l + 1) + 2 * m + (2 * l + 2) * (2 * l + 3);
  }

  /**
    `getLevelFromXp(xp, level)`: starting at `level`, the first level whose
    cumulative experience reaches `xp`. The search terminates because the
    cumulative experience of a level is at least the level itself.
  */
  function GetLevelFromXp(xp: int, level: nat): (r: nat)
    ensures r >= level && CumulXpForLevel(r) >= xp
    ensures forall k :: level <= k < r ==> CumulXpForLevel(k) < xp
    decreases xp - level
  {
    if CumulXpForLevel(level) >= xp then level else GetLevelFromXp(xp, level + 1)
  }

  /** `getLevelFromXp(xp)` with its default start level 0: the least level reaching `xp`. */
  function LevelForXp(xp: int): (r: nat)
    ensures CumulXpForLevel(r) >= xp
    ensures forall k :: 0 <= k < r ==> CumulXpForLevel(k) < xp
  {
    GetLevelFromXp(xp, 0)
  }

  /** Both directions: `level` is the answer exactly when it reaches `xp` and its predecessor does not. */
  lemma LevelForXpCharacterization(xp: int, level: nat)
    ensures LevelForXp(xp) == level
        <==> CumulXpForLevel(level) >= xp && (level == 0 || CumulXpForLevel(level - 1) < xp)
  {
    var r := LevelForXp(xp);
    if CumulXpForLevel(level) >= xp && (level == 0 || CumulXpForLevel(level - 1) < xp) {
      if r < level {
        CumulXpStrictlyIncreasing(r, level - 1);
      }
    }
  }

  /** No experience (or a negative total) is level 0. */
  lemma LevelForXpNonPositive(xp: int)
    requires xp <= 0
    ensures LevelForXp(xp) == 0
  {
  }

  /** The search inverts the cumulative table. */
  lemma LevelForXpOfCumul(level: nat)
    ensures LevelForXp(CumulXpForLevel(level)) == level
  {
    if level > 0 {
      CumulXpStrictlyIncreasing(level - 1, level);
    }
    LevelForXpCharacterization(CumulXpForLevel(level), level);
  }

  /** More experience never means a lower level. */
  lemma LevelForXpMonotone(lo: int, hi: int)
    requires lo <= hi
    ensures LevelForXp(lo) <= LevelForXp(hi)
  {
  }

  /**
    The cumulative experience of levels 1, 2 and 3 is 830, 2338 and 4722, so
    level 2 runs from 831 to 2338 and level 3 from 2339 to 4722; 3000
    experience, the two-record example, is level 3.
  */
  lemma LevelForXpExample()
    ensures CumulXpForLevel(1) == 830 && CumulXpForLevel(2) == 2338 && CumulXpForLevel(3) == 4722
    ensures LevelForXp(830) == 1 && LevelForXp(831) == 2
    ensures LevelForXp(2338) == 2 && LevelForXp(2339) == 3
    ensures LevelForXp(3000) == 3
  {
    assert CumulXpForLevel(1) == 830;
    LevelForXpCharacterization(830, 1);
    LevelForXpCharacterization(831, 2);
    LevelForXpCharacterization(2338, 2);
    LevelForXpCharacterization(2339, 3);
    LevelForXpCharacterization(3000, 3);
  }
}
