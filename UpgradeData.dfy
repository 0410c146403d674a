/**
 * The run-upgrade definition: what an upgrade boosts, by how much, how it
 * stacks, and who may pick it. A value record; nothing at run time writes it.
 */
module UpgradeData {

  datatype UpgradeType =
    | HealthBoost | ArmorBoost | FirepowerBoost | SpeedBoost | FireRateBoost
    | BulletSpeedBoost | RangeBoost | HealthRegen | CriticalChance | CriticalDamage
    | ExplosiveBullets | PiercingShots | DoubleShot | TripleShot

  datatype UpgradeRarity = Common | Uncommon | Rare | Epic | Legendary

  datatype UpgradeData = UpgradeData(
    upgradeName: string,
    description: string,
    upgradeType: UpgradeType,
    effectValue: real,
    isPercentage: bool,
    canStack: bool,
    maxStacks: int,
    stackingEfficiency: real,
    levelRequirement: int,
    rarity: UpgradeRarity)

  /** The declaration position of a type (its underlying enum value). */
  function TypeOrdinal(t: UpgradeType): (n: nat)
    ensures n < 14
    ensures n == 0 <==> t == HealthBoost
  {
    match t
    case HealthBoost => 0 case ArmorBoost => 1 case FirepowerBoost => 2 case SpeedBoost => 3
    case FireRateBoost => 4 case BulletSpeedBoost => 5 case RangeBoost => 6 case HealthRegen => 7
    case CriticalChance => 8 case CriticalDamage => 9 case ExplosiveBullets => 10
    case PiercingShots => 11 case DoubleShot => 12 case TripleShot => 13
  }

  /** The position of a rarity in its ordering, Common lowest. */
  function RarityRank(r: UpgradeRarity): (n: nat)
    ensures n < 5
    ensures n == 0 <==> r == Common
    ensures n == 4 <==> r == Legendary
  {
    match r
    case Common => 0 case Uncommon => 1 case Rare => 2 case Epic => 3 case Legendary => 4
  }

  /** Distinct types have distinct positions and distinct rarities distinct ranks. */
  lemma OrdinalsInjective(a: UpgradeType, b: UpgradeType, x: UpgradeRarity, y: UpgradeRarity)
    ensures TypeOrdinal(a) == TypeOrdinal(b) ==> a == b
    ensures RarityRank(x) == RarityRank(y) ==> x == y
  {
  }

  /** The types the effect switch acts on: the first five, one per tank-stat multiplier. */
  predicate IsStatUpgrade(t: UpgradeType)
  {
    t == HealthBoost || t == ArmorBoost || t == FirepowerBoost || t == SpeedBoost || t == FireRateBoost
  }

  lemma StatUpgradesAreFirstFive(t: UpgradeType)
    ensures IsStatUpgrade(t) <==> TypeOrdinal(t) < 5
  {
  }

  /**
   * A freshly created upgrade asset: a 10% multiplier that stacks up to 5
   * times at 80% efficiency, available from level 1, common, of the first type.
   */
  function Default(): (u: UpgradeData)
    ensures u.upgradeType == HealthBoost && IsStatUpgrade(u.upgradeType)
    ensures u.effectValue == 1.1 && u.isPercentage
    ensures u.canStack && u.maxStacks == 5 && u.stackingEfficiency == 0.8
    ensures 0.0 < u.stackingEfficiency < 1.0 && u.effectValue > 1.0
    ensures u.levelRequirement == 1 && u.rarity == Common
  {
    UpgradeData("Upgrade", "Upgrade description", HealthBoost, 1.1, true, true, 5, 0.8, 1, Common)
  }
}
