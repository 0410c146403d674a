/**
 * The player tank's health bookkeeping: armour-reduced damage, a heal capped
 * at the effective maximum, and a stat-block swap that keeps the health
 * fraction. Input, aiming, movement and shooting are engine physics and are
 * not modelled.
 */
module PlayerController {
  import opened Numeric
  import opened TankStats

  /** The share of incoming damage that always gets through armour. */
  const MinimumDamageShare: real := 0.1

  /** Damage after armour: the larger of damage minus armour and 10% of the damage. */
  function DamageTaken(damage: real, armor: real): (r: real)
    ensures r >= damage - armor && r >= MinimumDamageShare * damage
    ensures r == damage - armor || r == MinimumDamageShare * damage
  {
    Max(damage - armor, damage * MinimumDamageShare)
  }

  /**
   * For a non-negative hit and non-negative armour, the damage taken lies
   * between 10% of the hit and the full hit; no armour lets it all through.
   */
  lemma DamageTakenBounds(damage: real, armor: real)
    requires damage >= 0.0 && armor >= 0.0
    ensures MinimumDamageShare * damage <= DamageTaken(damage, armor) <= damage
    ensures armor == 0.0 ==> DamageTaken(damage, armor) == damage
  {
  }

  /** More armour never lets more damage through. */
  lemma DamageTakenAntitoneInArmor(damage: real, a1: real, a2: real)
    requires a1 <= a2
    ensures DamageTaken(damage, a2) <= DamageTaken(damage, a1)
  {
  }

  lemma FractionOfScaled(m: real, f: real)
    requires m != 0.0
    ensures (m * f) / m == f
  {
  }

  class Player {
    var tankStats: TankStats?
    var currentHealth: real
    /** Every OnHealthChanged raised: the current and the maximum health. */
    var healthReports: seq<(real, real)>
    /** How many times OnPlayerDied was raised. */
    var deathSignals: nat

    /** Awake: health starts at the stat block's effective maximum, or 0 with no stat block. */
    constructor (tankStats: TankStats?)
      ensures this.tankStats == tankStats
      ensures tankStats != null ==> currentHealth == tankStats.Effective(Health)
      ensures tankStats == null ==> currentHealth == 0.0
      ensures healthReports == [] && deathSignals == 0
    {
      this.tankStats := tankStats;
      currentHealth := if tankStats != null then tankStats.Effective(Health) else 0.0;
      healthReports := [];
      deathSignals := 0;
    }

    /** GetMaxHealth: the stat block's effective maximum health. */
    function MaxHealth(): (m: real)
      reads this, tankStats
      requires tankStats != null
      ensures m == tankStats.Effective(Health)
      ensures tankStats.Multiplier(Health) == 1.0 ==> m == tankStats.Base(Health)
    {
      tankStats.Effective(Health)
    }

    /** Current health as a fraction of the effective maximum. */
    function GetHealthPercentage(): (f: real)
      reads this, tankStats
      requires tankStats != null && MaxHealth() != 0.0
      ensures f * MaxHealth() == currentHealth
      ensures currentHealth == MaxHealth() ==> f == 1.0
    {
      currentHealth / MaxHealth()
    }

    /**
     * Health drops by the armour-reduced damage and is clamped at 0; the new
     * health is reported and, at 0, OnPlayerDied is raised (on every hit
     * that finds health at 0, not only the first).
     */
    method TakeDamage(damage: real)
      requires tankStats != null
      modifies this`currentHealth, this`healthReports, this`deathSignals
      ensures currentHealth == Max(old(currentHealth) - DamageTaken(damage, tankStats.Effective(Armor)), 0.0)
      ensures currentHealth >= 0.0
      ensures healthReports == old(healthReports) + [(currentHealth, MaxHealth())]
      ensures deathSignals == old(deathSignals) + if currentHealth == 0.0 then 1 else 0
    {
      var effectiveArmor := tankStats.Effective(Armor);
      var actualDamage := DamageTaken(damage, effectiveArmor);
      currentHealth := currentHealth - actualDamage;
      currentHealth := Max(currentHealth, 0.0);
      healthReports := healthReports + [(currentHealth, MaxHealth())];
      if currentHealth <= 0.0 {
        deathSignals := deathSignals + 1;
      }
    }

    /** Health rises by the amount but never above the effective maximum. */
    method Heal(amount: real)
      requires tankStats != null
      modifies this`currentHealth, this`healthReports
      ensures currentHealth == Min(old(currentHealth) + amount, MaxHealth())
      ensures currentHealth <= MaxHealth()
      ensures amount >= 0.0 && old(currentHealth) <= MaxHealth() ==> currentHealth >= old(currentHealth)
      ensures healthReports == old(healthReports) + [(currentHealth, MaxHealth())]
    {
      currentHealth := Min(currentHealth + amount, tankStats.Effective(Health));
      healthReports := healthReports + [(currentHealth, MaxHealth())];
    }

    /**
     * Swaps in a new stat block keeping the health fraction: the new health
     * is the new maximum times the old fraction. A null block changes nothing.
     */
    method SetTankStats(newStats: TankStats?)
      requires newStats != null ==> tankStats != null && MaxHealth() != 0.0
      modifies this`tankStats, this`currentHealth, this`healthReports
      ensures newStats == null ==> tankStats == old(tankStats) && currentHealth == old(currentHealth) &&
                                   healthReports == old(healthReports)
      ensures newStats != null ==>
                tankStats == newStats &&
                currentHealth == newStats.Effective(Health) * old(GetHealthPercentage()) &&
                healthReports == old(healthReports) + [(currentHealth, MaxHealth())]
      ensures newStats != null && MaxHealth() != 0.0 ==> GetHealthPercentage() == old(GetHealthPercentage())
    {
      if newStats != null {
        var healthPercentage := GetHealthPercentage();
        var newMax := newStats.Effective(Health);
        tankStats := newStats;
        currentHealth := newMax * healthPercentage;
        healthReports := healthReports + [(currentHealth, newMax)];
        if newMax != 0.0 {
          FractionOfScaled(newMax, healthPercentage);
          assert GetHealthPercentage() == (newMax * healthPercentage) / newMax;
        }
      }
    }
  }
}
