/**
 * Values that the combatants hand to the rest of the game instead of engine
 * calls: a fired bullet (what Bullet.Initialize receives) and a death reward
 * (what XPSystem.AddXP and CurrencyManager.AddCurrency receive).
 */
module Combat {

  /** A fired bullet: damage, speed, maximum travel distance and the tag its collisions ignore. */
  datatype Projectile = Projectile(damage: real, speed: real, maxRange: real, ownerTag: string)

  /** The rewards raised by one call of a combatant's Die. */
  datatype Reward = Reward(xp: int, currency: int)
}
