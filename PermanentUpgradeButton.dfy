/**
 * A shop button for one permanent (meta-progression) upgrade: its level is
 * bought with persistent currency at a cost that grows geometrically with the
 * level, up to a maximum level, and is kept in the prefs store under
 * "PermanentUpgrade_" followed by the upgrade's name.
 */
module PermanentUpgradeButton {
  import opened Numeric
  import opened PlayerPrefs
  import opened CurrencyManager

  datatype PermanentUpgradeType =
    | BaseHealth | BaseArmor | BaseDamage | BaseFireRate | BaseSpeed
    | XPMultiplier | CurrencyMultiplier | StartingLevel
    | BulletPenetration | CriticalChance | HealthRegeneration

  /** Every permanent upgrade type, in declaration order. */
  const AllPermanentUpgradeTypes: seq<PermanentUpgradeType> :=
    [BaseHealth, BaseArmor, BaseDamage, BaseFireRate, BaseSpeed,
     XPMultiplier, CurrencyMultiplier, StartingLevel,
     BulletPenetration, CriticalChance, HealthRegeneration]

  /** The type's printed name (the enum member's identifier). */
  function Name(t: PermanentUpgradeType): (s: string)
    ensures |s| > 0 && s[0] in {'B', 'X', 'C', 'S', 'H'}
  {
    match t
    case BaseHealth => "BaseHealth"
    case BaseArmor => "BaseArmor"
    case BaseDamage => "BaseDamage"
    case BaseFireRate => "BaseFireRate"
    case BaseSpeed => "BaseSpeed"
    case XPMultiplier => "XPMultiplier"
    case CurrencyMultiplier => "CurrencyMultiplier"
    case StartingLevel => "StartingLevel"
    case BulletPenetration => "BulletPenetration"
    case CriticalChance => "CriticalChance"
    case HealthRegeneration => "HealthRegeneration"
  }

  const KeyPrefix: string := "PermanentUpgrade_"

  /** The prefs key a type's level is stored under. */
  function PrefsKey(t: PermanentUpgradeType): (k: string)
    ensures |k| > |KeyPrefix| && k[..|KeyPrefix|] == KeyPrefix && k[|KeyPrefix|..] == Name(t)
  {
    KeyPrefix + Name(t)
  }

  /** Every type is listed exactly once. */
  lemma AllTypesListedOnce(t: PermanentUpgradeType)
    ensures |AllPermanentUpgradeTypes| == 11
    ensures t in AllPermanentUpgradeTypes
    ensures forall i, j :: 0 <= i < j < |AllPermanentUpgradeTypes| ==> AllPermanentUpgradeTypes[i] != AllPermanentUpgradeTypes[j]
  {
  }

  /** Distinct types are stored under distinct keys, so no two upgrades share a saved level. */
  lemma PrefsKeyInjective(a: PermanentUpgradeType, b: PermanentUpgradeType)
    ensures PrefsKey(a) == PrefsKey(b) ==> a == b
  {
    if PrefsKey(a) == PrefsKey(b) {
      assert Name(a) == PrefsKey(a)[|KeyPrefix|..] == PrefsKey(b)[|KeyPrefix|..] == Name(b);
      NameInjective(a, b);
    }
  }

  lemma NameInjective(a: PermanentUpgradeType, b: PermanentUpgradeType)
    requires Name(a) == Name(b)
    ensures a == b
  {
    var na, nb := Name(a), Name(b);
    assert |na| == |nb| && na[0] == nb[0] && na[|na| - 1] == nb[|nb| - 1];
  }

  /** No upgrade key collides with the currency total's key. */
  lemma PrefsKeyNotTotalCurrency(t: PermanentUpgradeType)
    ensures PrefsKey(t) != TotalCurrencyKey
  {
    assert PrefsKey(t)[0] == 'P' != TotalCurrencyKey[0];
  }

  /** The price of the next level: round(baseCost * costMultiplier^level). */
  function UpgradeCost(baseCost: int, costMultiplier: real, level: int): (c: int)
    requires costMultiplier != 0.0 || level >= 0
    ensures -0.5 <= c as real - baseCost as real * IntPow(costMultiplier, level) <= 0.5
  {
    RoundedGeometric(baseCost as real, costMultiplier, level)
  }

  /** The first level costs exactly the base cost. */
  lemma FirstLevelCostsBase(baseCost: int, costMultiplier: real)
    ensures UpgradeCost(baseCost, costMultiplier, 0) == baseCost
  {
    RoundedGeometricAtZero(baseCost, costMultiplier);
  }

  /** With a non-negative base and a multiplier of at least 1, later levels never cost less. */
  lemma UpgradeCostNonDecreasing(baseCost: int, costMultiplier: real, l1: int, l2: int)
    requires baseCost >= 0 && costMultiplier >= 1.0 && 0 <= l1 <= l2
    ensures UpgradeCost(baseCost, costMultiplier, l1) <= UpgradeCost(baseCost, costMultiplier, l2)
  {
    RoundedGeometricNonDecreasing(baseCost as real, costMultiplier, l1, l2);
  }

  /** With the shipped configuration (100 credits, multiplier 1.5) the first levels cost 100, 150 and 225. */
  lemma DefaultCosts()
    ensures UpgradeCost(100, 1.5, 0) == 100
    ensures UpgradeCost(100, 1.5, 1) == 150
    ensures UpgradeCost(100, 1.5, 2) == 225
  {
    FirstLevelCostsBase(100, 1.5);
    assert IntPow(1.5, 1) == 1.5 by { assert Pow(1.5, 1) == 1.5 * Pow(1.5, 0); }
    assert IntPow(1.5, 2) == 2.25 by {
      assert Pow(1.5, 2) == 1.5 * Pow(1.5, 1);
      assert Pow(1.5, 1) == 1.5 * Pow(1.5, 0);
    }
  }

  /** The effect granted at a level: effectPerLevel per level bought. */
  function EffectAtLevel(effectPerLevel: real, level: int): (e: real)
    ensures level == 0 ==> e == 0.0
    ensures level == 1 ==> e == effectPerLevel
    ensures effectPerLevel >= 0.0 && level >= 0 ==> e >= 0.0
  {
    effectPerLevel * level as real
  }

  /** The effect is linear in the level: nothing at level 0, and levels add up. */
  lemma EffectLinear(effectPerLevel: real, l1: int, l2: int)
    ensures EffectAtLevel(effectPerLevel, 0) == 0.0
    ensures EffectAtLevel(effectPerLevel, l1 + l2) == EffectAtLevel(effectPerLevel, l1) + EffectAtLevel(effectPerLevel, l2)
  {
    assert (l1 + l2) as real == l1 as real + l2 as real;
  }

  class PermanentUpgradeButton {
    const upgradeType: PermanentUpgradeType
    const baseCost: int
    const costMultiplier: real
    const maxLevel: int
    const effectPerLevel: real
    /** The currency manager found in the scene, if any. */
    const currencyManager: CurrencyManager?
    /** Whether a save system was found in the scene; without one nothing is loaded or saved. */
    const hasSaveSystem: bool
    const prefs: Prefs
    var currentLevel: int
    var isMaxLevel: bool
    /** Every OnUpgradePurchased raised: type and new level. */
    var purchases: seq<(PermanentUpgradeType, int)>

    ghost predicate Valid()
      reads this
    {
      costMultiplier != 0.0 || currentLevel >= 0
    }

    /** The max-level flag agrees with the level. */
    predicate LatchConsistent()
      reads this
    {
      isMaxLevel == (currentLevel >= maxLevel)
    }

    /** Field initialisers and Awake: level 0, not maxed, nothing purchased. */
    constructor (upgradeType: PermanentUpgradeType, baseCost: int, costMultiplier: real, maxLevel: int,
                 effectPerLevel: real, currencyManager: CurrencyManager?, hasSaveSystem: bool, prefs: Prefs)
      ensures Valid()
      ensures this.upgradeType == upgradeType && this.baseCost == baseCost && this.costMultiplier == costMultiplier
      ensures this.maxLevel == maxLevel && this.effectPerLevel == effectPerLevel
      ensures this.currencyManager == currencyManager && this.hasSaveSystem == hasSaveSystem && this.prefs == prefs
      ensures currentLevel == 0 && !isMaxLevel && purchases == []
      ensures maxLevel > 0 ==> LatchConsistent()
    {
      this.upgradeType := upgradeType;
      this.baseCost := baseCost;
      this.costMultiplier := costMultiplier;
      this.maxLevel := maxLevel;
      this.effectPerLevel := effectPerLevel;
      this.currencyManager := currencyManager;
      this.hasSaveSystem := hasSaveSystem;
      this.prefs := prefs;
      currentLevel := 0;
      isMaxLevel := false;
      purchases := [];
    }

    function GetCurrentCost(): (c: int)
      requires Valid()
      reads this
      ensures c == UpgradeCost(baseCost, costMultiplier, currentLevel)
    {
      UpgradeCost(baseCost, costMultiplier, currentLevel)
    }

    function GetCurrentEffect(): (e: real)
      reads this
      ensures e == EffectAtLevel(effectPerLevel, currentLevel)
    {
      EffectAtLevel(effectPerLevel, currentLevel)
    }

    /** The price shown for the next level: nothing once maxed, otherwise the current cost. */
    function GetNextCost(): (c: int)
      requires Valid()
      reads this
      ensures isMaxLevel ==> c == 0
      ensures !isMaxLevel ==> c == UpgradeCost(baseCost, costMultiplier, currentLevel)
    {
      if isMaxLevel then 0 else GetCurrentCost()
    }

    /** Start: with a save system, reads the stored level (0 when absent) and sets the flag from it. */
    method LoadUpgradeLevel()
      modifies this`currentLevel, this`isMaxLevel
      ensures hasSaveSystem ==> currentLevel == prefs.GetInt(PrefsKey(upgradeType), 0) && LatchConsistent()
      ensures !hasSaveSystem ==> currentLevel == old(currentLevel) && isMaxLevel == old(isMaxLevel)
      ensures costMultiplier != 0.0 ==> Valid()
    {
      if hasSaveSystem {
        currentLevel := prefs.GetInt(PrefsKey(upgradeType), 0);
        isMaxLevel := currentLevel >= maxLevel;
      }
    }

    /** With a save system, stores the level under this type's key; no other key changes. */
    method SaveUpgradeLevel()
      modifies prefs
      ensures hasSaveSystem ==> prefs.ints == old(prefs.ints)[PrefsKey(upgradeType) := currentLevel]
      ensures !hasSaveSystem ==> prefs.ints == old(prefs.ints)
      ensures prefs.floats == old(prefs.floats)
    {
      if hasSaveSystem {
        prefs.SetInt(PrefsKey(upgradeType), currentLevel);
      }
    }

    /** Whether a click buys the next level now: not maxed, a currency manager exists and its total covers the cost. */
    predicate Buys()
      requires Valid()
      reads this, currencyManager
    {
      !isMaxLevel && currencyManager != null && currencyManager.totalCurrency >= GetCurrentCost()
    }

    /**
     * A purchase happens exactly when the click Buys. A purchase spends the
     * cost (the spend itself is refused for a cost that is not positive, and
     * the level is raised anyway), raises the level by one, recomputes the
     * flag, stores the level and announces it; without a purchase nothing
     * changes. The total stays non-negative, and a consistent flag stays
     * consistent. No float entry of either store changes.
     */
    method OnButtonClicked()
      requires Valid()
      requires currencyManager != null ==> currencyManager.Valid()
      modifies this`currentLevel, this`isMaxLevel, this`purchases, prefs
      modifies if currencyManager != null then {currencyManager, currencyManager.prefs} else {}
      ensures Valid()
      ensures currencyManager != null ==> currencyManager.Valid()
      ensures LatchConsistent() <== old(LatchConsistent())
      ensures old(LatchConsistent()) && old(currentLevel) <= maxLevel ==> currentLevel <= maxLevel
      ensures currencyManager != null && old(currencyManager.totalCurrency) >= 0 ==> currencyManager.totalCurrency >= 0
      ensures old(Buys()) ==>
                currentLevel == old(currentLevel) + 1 && LatchConsistent() &&
                purchases == old(purchases) + [(upgradeType, currentLevel)]
      ensures old(Buys()) ==>
                var cost := old(GetCurrentCost());
                currencyManager.totalCurrency == old(currencyManager.totalCurrency) - (if cost > 0 then cost else 0) &&
                currencyManager.spent == old(currencyManager.spent) + (if cost > 0 then [cost] else []) &&
                currencyManager.totalChanges ==
                  old(currencyManager.totalChanges) + (if cost > 0 then [currencyManager.totalCurrency] else []) &&
                currencyManager.sessionCurrency == old(currencyManager.sessionCurrency) &&
                currencyManager.sessionChanges == old(currencyManager.sessionChanges)
      ensures old(Buys()) ==>
                (hasSaveSystem ==> prefs.GetInt(PrefsKey(upgradeType), 0) == currentLevel) &&
                (!hasSaveSystem ==> prefs.GetInt(PrefsKey(upgradeType), 0) == old(prefs.GetInt(PrefsKey(upgradeType), 0))) &&
                (forall k :: k != PrefsKey(upgradeType) && k != TotalCurrencyKey ==> prefs.GetInt(k, 0) == old(prefs.GetInt(k, 0)))
      ensures !old(Buys()) ==>
                currentLevel == old(currentLevel) && isMaxLevel == old(isMaxLevel) && purchases == old(purchases) &&
                prefs.ints == old(prefs.ints)
      ensures !old(Buys()) && currencyManager != null ==>
                currencyManager.totalCurrency == old(currencyManager.totalCurrency) &&
                currencyManager.sessionCurrency == old(currencyManager.sessionCurrency) &&
                currencyManager.spent == old(currencyManager.spent) &&
                currencyManager.totalChanges == old(currencyManager.totalChanges) &&
                currencyManager.sessionChanges == old(currencyManager.sessionChanges) &&
                currencyManager.prefs.ints == old(currencyManager.prefs.ints)
      ensures prefs.floats == old(prefs.floats)
      ensures currencyManager != null ==> currencyManager.prefs.floats == old(currencyManager.prefs.floats)
    {
      if isMaxLevel || currencyManager == null {
        return;
      }
      var cost := GetCurrentCost();
      if currencyManager.totalCurrency >= cost {
        var _ := currencyManager.SpendCurrency(cost);
        currentLevel := currentLevel + 1;
        isMaxLevel := currentLevel >= maxLevel;
        PrefsKeyNotTotalCurrency(upgradeType);
        SaveUpgradeLevel();
        purchases := purchases + [(upgradeType, currentLevel)];
      }
    }
  }
}
