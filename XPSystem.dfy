/**
 * In-run experience: XP accumulates towards a requirement that grows
 * geometrically with the level; reaching it levels up (repeatedly, if the XP
 * covers several levels) until the level cap.
 */
module XPSystem {
  import opened Numeric

  /** The XP needed to leave a level: round(base * scaling^(level - 1)). */
  function RequiredXP(baseXPRequired: int, xpScaling: real, level: int): (r: int)
    requires xpScaling != 0.0 || level >= 1
    ensures -0.5 <= r as real - baseXPRequired as real * IntPow(xpScaling, level - 1) <= 0.5
  {
    RoundedGeometric(baseXPRequired as real, xpScaling, level - 1)
  }

  /** Level 1 asks for exactly the base requirement. */
  lemma RequiredXPAtLevelOne(baseXPRequired: int, xpScaling: real)
    ensures RequiredXP(baseXPRequired, xpScaling, 1) == baseXPRequired
  {
    RoundedGeometricAtZero(baseXPRequired, xpScaling);
  }

  /** With a non-negative base and a scaling of at least 1, higher levels never ask for less. */
  lemma RequiredXPNonDecreasing(baseXPRequired: int, xpScaling: real, l1: int, l2: int)
    requires baseXPRequired >= 0 && xpScaling >= 1.0 && 1 <= l1 <= l2
    ensures RequiredXP(baseXPRequired, xpScaling, l1) <= RequiredXP(baseXPRequired, xpScaling, l2)
  {
    RoundedGeometricNonDecreasing(baseXPRequired as real, xpScaling, l1 - 1, l2 - 1);
  }

  /** With the shipped configuration (80 XP, scaling 1.15) levels 1, 2 and 3 need 80, 92 and 106 XP. */
  lemma DefaultRequirements()
    ensures RequiredXP(80, 1.15, 1) == 80
    ensures RequiredXP(80, 1.15, 2) == 92
    ensures RequiredXP(80, 1.15, 3) == 106
  {
    RequiredXPAtLevelOne(80, 1.15);
    assert IntPow(1.15, 1) == 1.15 by { assert Pow(1.15, 1) == 1.15 * Pow(1.15, 0); }
    assert IntPow(1.15, 2) == 1.3225 by {
      assert Pow(1.15, 2) == 1.15 * Pow(1.15, 1);
      assert Pow(1.15, 1) == 1.15 * Pow(1.15, 0);
    }
    assert (80.0 * 1.15).Floor == 92;
    assert (80.0 * 1.3225).Floor == 105;
  }

  /** The XP spent levelling from level lo up to level hi: the requirements of levels lo..hi-1. */
  function SpentXP(baseXPRequired: int, xpScaling: real, lo: int, hi: int): (r: int)
    requires xpScaling != 0.0 || lo >= 1
    ensures hi <= lo ==> r == 0
    ensures hi == lo + 1 ==> r == RequiredXP(baseXPRequired, xpScaling, lo)
    decreases hi - lo
  {
    if hi <= lo then 0
    else SpentXP(baseXPRequired, xpScaling, lo, hi - 1) + RequiredXP(baseXPRequired, xpScaling, hi - 1)
  }

  /** Levelling from lo to hi costs what levelling from lo to mid and then from mid to hi costs. */
  lemma {:induction false} SpentXPSplit(baseXPRequired: int, xpScaling: real, lo: int, mid: int, hi: int)
    requires xpScaling != 0.0 || lo >= 1
    requires lo <= mid <= hi
    ensures SpentXP(baseXPRequired, xpScaling, lo, hi)
            == SpentXP(baseXPRequired, xpScaling, lo, mid) + SpentXP(baseXPRequired, xpScaling, mid, hi)
    decreases hi - mid
  {
    if mid < hi {
      SpentXPSplit(baseXPRequired, xpScaling, lo, mid, hi - 1);
    }
  }

  /** The levels lo, lo + 1, ..., hi in order (empty when hi < lo). */
  function LevelRange(lo: int, hi: int): (r: seq<int>)
    ensures |r| == if hi < lo then 0 else hi - lo + 1
    decreases hi - lo
  {
    if hi < lo then [] else LevelRange(lo, hi - 1) + [hi]
  }

  /** Announced levels are consecutive: the i-th entry of lo..hi is lo + i. */
  lemma {:induction false} LevelRangeConsecutive(lo: int, hi: int, i: int)
    requires 0 <= i < |LevelRange(lo, hi)|
    ensures LevelRange(lo, hi)[i] == lo + i
    decreases hi - lo
  {
    if i < hi - lo {
      LevelRangeConsecutive(lo, hi - 1, i);
    }
  }

  datatype XPSaveData = XPSaveData(level: int, xp: int)

  class XPSystem {
    const baseXPRequired: int
    const xpScaling: real
    const maxLevel: int
    var currentLevel: int
    var currentXP: int
    var xpRequiredForNextLevel: int
    /** Every level announced by OnLevelUp, oldest first. */
    var levelUps: seq<int>
    /** Every OnXPChanged raised: xp, requirement and level. */
    var xpReports: seq<(int, int, int)>

    /** The cached requirement always belongs to the current level. */
    ghost predicate Valid()
      reads this
    {
      (xpScaling != 0.0 || currentLevel >= 1) && xpRequiredForNextLevel == RequiredXP(baseXPRequired, xpScaling, currentLevel)
    }

    /** Field initialisers and Awake: level 1, no XP, the requirement of level 1. */
    constructor (baseXPRequired: int, xpScaling: real, maxLevel: int)
      ensures Valid()
      ensures this.baseXPRequired == baseXPRequired && this.xpScaling == xpScaling && this.maxLevel == maxLevel
      ensures currentLevel == 1 && currentXP == 0 && xpRequiredForNextLevel == baseXPRequired
      ensures levelUps == [] && xpReports == []
    {
      this.baseXPRequired := baseXPRequired;
      this.xpScaling := xpScaling;
      this.maxLevel := maxLevel;
      currentLevel := 1;
      currentXP := 0;
      levelUps := [];
      xpReports := [];
      xpRequiredForNextLevel := RequiredXP(baseXPRequired, xpScaling, 1);
      RequiredXPAtLevelOne(baseXPRequired, xpScaling);
    }

    /** No further level can be gained: AddXP ignores XP exactly in this case. */
    function IsMaxLevel(): (b: bool)
      reads this
      ensures b <==> !(currentLevel < maxLevel)
    {
      currentLevel >= maxLevel
    }

    /** Pays the current requirement out of the XP, goes up exactly one level and announces it. */
    method LevelUp()
      requires Valid()
      modifies this`currentXP, this`currentLevel, this`xpRequiredForNextLevel, this`levelUps
      ensures Valid()
      ensures currentXP == old(currentXP) - old(xpRequiredForNextLevel)
      ensures currentLevel == old(currentLevel) + 1
      ensures levelUps == old(levelUps) + [currentLevel]
    {
      currentXP := currentXP - xpRequiredForNextLevel;
      currentLevel := currentLevel + 1;
      xpRequiredForNextLevel := RequiredXP(baseXPRequired, xpScaling, currentLevel);
      levelUps := levelUps + [currentLevel];
    }

    /**
     * Adds XP and levels up while it covers the requirement, never past the
     * cap. Afterwards either the cap is reached or the XP is below the new
     * requirement; the XP spent is exactly the requirements of the levels
     * left; every level passed is announced once, in order. At the cap the
     * call does nothing at all.
     */
    method AddXP(amount: int)
      requires Valid()
      modifies this`currentXP, this`currentLevel, this`xpRequiredForNextLevel, this`levelUps, this`xpReports
      ensures Valid()
      ensures old(currentLevel) >= maxLevel ==>
                currentLevel == old(currentLevel) && currentXP == old(currentXP) &&
                levelUps == old(levelUps) && xpReports == old(xpReports)
      ensures old(currentLevel) < maxLevel ==>
                old(currentLevel) <= currentLevel <= maxLevel &&
                (currentLevel == maxLevel || currentXP < xpRequiredForNextLevel) &&
                currentXP == old(currentXP) + amount - SpentXP(baseXPRequired, xpScaling, old(currentLevel), currentLevel) &&
                levelUps == old(levelUps) + LevelRange(old(currentLevel) + 1, currentLevel) &&
                xpReports == old(xpReports) + [(currentXP, xpRequiredForNextLevel, currentLevel)]
    {
      if currentLevel < maxLevel {
        currentXP := currentXP + amount;
        ghost var startLevel, startXP := currentLevel, currentXP;
        while currentXP >= xpRequiredForNextLevel && currentLevel < maxLevel
          invariant Valid()
          invariant startLevel <= currentLevel <= maxLevel
          invariant xpScaling != 0.0 || startLevel >= 1
          invariant currentXP == startXP - SpentXP(baseXPRequired, xpScaling, startLevel, currentLevel)
          invariant levelUps == old(levelUps) + LevelRange(startLevel + 1, currentLevel)
          invariant xpReports == old(xpReports)
          decreases maxLevel - currentLevel
        {
          LevelUp();
        }
        xpReports := xpReports + [(currentXP, xpRequiredForNextLevel, currentLevel)];
      }
    }

    function GetSaveData(): (d: XPSaveData)
      reads this
      ensures d.level == currentLevel && d.xp == currentXP
    {
      XPSaveData(currentLevel, currentXP)
    }

    /** Restores level and XP and recomputes the requirement, so loading saved data gives that data back. */
    method LoadSaveData(data: XPSaveData)
      requires Valid()
      requires xpScaling != 0.0 || data.level >= 1
      modifies this`currentLevel, this`currentXP, this`xpRequiredForNextLevel, this`xpReports
      ensures Valid()
      ensures GetSaveData() == data
      ensures xpReports == old(xpReports) + [(currentXP, xpRequiredForNextLevel, currentLevel)]
    {
      currentLevel := data.level;
      currentXP := data.xp;
      xpRequiredForNextLevel := RequiredXP(baseXPRequired, xpScaling, currentLevel);
      xpReports := xpReports + [(currentXP, xpRequiredForNextLevel, currentLevel)];
    }

    /** Back to level 1 with no XP and the base requirement. */
    method ResetForNewSession()
      requires Valid()
      modifies this`currentLevel, this`currentXP, this`xpRequiredForNextLevel, this`xpReports
      ensures Valid()
      ensures currentLevel == 1 && currentXP == 0 && xpRequiredForNextLevel == baseXPRequired
      ensures xpReports == old(xpReports) + [(0, baseXPRequired, 1)]
    {
      currentLevel := 1;
      currentXP := 0;
      xpRequiredForNextLevel := RequiredXP(baseXPRequired, xpScaling, currentLevel);
      RequiredXPAtLevelOne(baseXPRequired, xpScaling);
      xpReports := xpReports + [(currentXP, xpRequiredForNextLevel, currentLevel)];
    }
  }
}
