/** The immutable configuration record of a rank-and-file enemy type. */
module EnemyData {

  datatype EnemyType = Basic | Fast | Heavy | Sniper | Explosive

  /**
   * An enemy definition. Sprite, colour and audio clips are presentation and
   * are not kept; of the bullet prefab only its presence matters.
   */
  datatype EnemyData = EnemyData(
    enemyName: string,
    maxHealth: real,
    damage: real,
    movementSpeed: real,
    detectionRange: real,
    attackRange: real,
    fireRate: real,
    bulletSpeed: real,
    hasBulletPrefab: bool,
    enemyType: EnemyType,
    aggroRange: real,
    retreatHealthPercentage: real,
    xpReward: int,
    currencyReward: int,
    dropChance: real)

  /** Attack range inside detection range inside aggro range. */
  predicate RangesOrdered(d: EnemyData)
  {
    d.attackRange <= d.detectionRange <= d.aggroRange
  }

  /** The field initialisers of a freshly created enemy definition. */
  function Default(): (d: EnemyData)
    ensures RangesOrdered(d) && d.attackRange < d.detectionRange < d.aggroRange
    ensures d.fireRate > 0.0 && d.maxHealth > 0.0
    ensures 0.0 <= d.retreatHealthPercentage <= 1.0
    ensures d.xpReward == 10 && d.currencyReward == 5
    ensures d.enemyType == Basic && !d.hasBulletPrefab
  {
    EnemyData("Enemy", 50.0, 15.0, 3.0, 8.0, 6.0, 0.5, 8.0, false, Basic, 10.0, 0.2, 10, 5, 0.1)
  }
}
