/**
 * The rank-and-file enemy: a four-state Patrol/Pursue/Attack/Retreat machine
 * driven once per frame by the distance to the player, its health fraction and
 * the time spent in the current state. Movement and aiming are engine physics
 * and are not modelled; what remains is the transition, the firing decision,
 * damage and death.
 */
module EnemyController {
  import opened Numeric
  import opened Combat
  import opened EnemyData

  datatype EnemyState = Patrol | Pursue | Attack | Retreat

  /** Seconds a retreating enemy keeps retreating before it pursues again. */
  const RetreatSeconds: real := 3.0

  /**
   * The transition UpdateState takes for the current state, stated row by row
   * as the transition table: the first matching condition of the state wins
   * and no row matching means no change.
   */
  function NextState(d: EnemyData, s: EnemyState, distance: real, healthFraction: real, stateTimer: real): (r: EnemyState)
    ensures s == Patrol ==> (r == Pursue <==> distance <= d.detectionRange) && (r == Patrol || r == Pursue)
    ensures s == Pursue && distance > d.aggroRange ==> r == Patrol
    ensures s == Pursue && distance <= d.aggroRange && distance <= d.attackRange ==> r == Attack
    ensures s == Pursue && distance <= d.aggroRange && distance > d.attackRange ==> r == Pursue
    ensures s == Attack && distance > d.attackRange ==> r == Pursue
    ensures s == Attack && distance <= d.attackRange ==>
              r == (if healthFraction <= d.retreatHealthPercentage then Retreat else Attack)
    ensures s == Retreat ==> (r == Pursue <==> stateTimer > RetreatSeconds) && (r == Retreat || r == Pursue)
  {
    match s
    case Patrol => if distance <= d.detectionRange then Pursue else Patrol
    case Pursue =>
      if distance > d.aggroRange then Patrol
      else if distance <= d.attackRange then Attack
      else Pursue
    case Attack =>
      if distance > d.attackRange then Pursue
      else if healthFraction <= d.retreatHealthPercentage then Retreat
      else Attack
    case Retreat => if stateTimer > RetreatSeconds then Pursue else Retreat
  }

  /**
   * With attack range inside detection range inside aggro range, a distance
   * between the detection and the aggro range keeps a patrolling enemy
   * patrolling and a pursuing enemy pursuing: the state depends on history.
   */
  lemma PatrolPursueHysteresis(d: EnemyData, distance: real, healthFraction: real, stateTimer: real)
    requires RangesOrdered(d)
    requires d.detectionRange < distance <= d.aggroRange
    ensures NextState(d, Patrol, distance, healthFraction, stateTimer) == Patrol
    ensures NextState(d, Pursue, distance, healthFraction, stateTimer) == Pursue
  {
  }

  /** One tick never skips a state: Patrol cannot reach Attack or Retreat directly, nor Retreat reach Attack or Patrol. */
  lemma NoSkippedStates(d: EnemyData, s: EnemyState, distance: real, healthFraction: real, stateTimer: real)
    ensures var r := NextState(d, s, distance, healthFraction, stateTimer);
            (s == Patrol ==> r != Attack && r != Retreat) &&
            (s == Retreat ==> r != Attack && r != Patrol) &&
            (s == Pursue ==> r != Retreat) &&
            (s == Attack ==> r != Patrol)
  {
  }

  /** The bullet an enemy fires: its damage, bullet speed, attack range as reach, tagged "Enemy". */
  function EnemyBullet(d: EnemyData): (p: Projectile)
    ensures p.ownerTag == "Enemy" && p.damage == d.damage && p.speed == d.bulletSpeed && p.maxRange == d.attackRange
  {
    Projectile(d.damage, d.bulletSpeed, d.attackRange, "Enemy")
  }

  class Enemy {
    const data: EnemyData
    const hasFirePoint: bool
    var currentHealth: real
    var state: EnemyState
    var stateTimer: real
    var nextFireTime: real
    /** Every bullet fired, oldest first. */
    var shots: seq<Projectile>
    /** One entry per call of Die: OnEnemyDied raised and these rewards awarded. */
    var deaths: seq<Reward>

    ghost predicate Valid()
      reads this
    {
      data.maxHealth > 0.0 && data.fireRate > 0.0 && currentHealth >= 0.0
    }

    /** Awake: health starts full, in Patrol, with nothing fired yet. */
    constructor (data: EnemyData, hasFirePoint: bool)
      requires data.maxHealth > 0.0 && data.fireRate > 0.0
      ensures Valid()
      ensures this.data == data && this.hasFirePoint == hasFirePoint
      ensures currentHealth == data.maxHealth && state == Patrol
      ensures stateTimer == 0.0 && nextFireTime == 0.0
      ensures shots == [] && deaths == []
    {
      this.data := data;
      this.hasFirePoint := hasFirePoint;
      currentHealth := data.maxHealth;
      state := Patrol;
      stateTimer := 0.0;
      nextFireTime := 0.0;
      shots := [];
      deaths := [];
    }

    function HealthPercentage(): (f: real)
      reads this
      requires Valid()
      ensures f >= 0.0
      ensures f * data.maxHealth == currentHealth
    {
      currentHealth / data.maxHealth
    }

    /** Sets the state and restarts the state timer. */
    method ChangeState(newState: EnemyState)
      modifies this`state, this`stateTimer
      ensures state == newState && stateTimer == 0.0
    {
      state := newState;
      stateTimer := 0.0;
    }

    /** Takes at most one transition of the table, restarting the timer when it does. */
    method UpdateState(distance: real)
      requires Valid()
      modifies this`state, this`stateTimer
      ensures state == NextState(data, old(state), distance, HealthPercentage(), old(stateTimer))
      ensures stateTimer == if state == old(state) then old(stateTimer) else 0.0
    {
      var next := NextState(data, state, distance, HealthPercentage(), stateTimer);
      if next != state {
        ChangeState(next);
      }
    }

    /** Fires one bullet when a bullet prefab and a fire point exist. */
    method Shoot()
      modifies this`shots
      ensures shots == old(shots) + if data.hasBulletPrefab && hasFirePoint then [EnemyBullet(data)] else []
    {
      if data.hasBulletPrefab && hasFirePoint {
        shots := shots + [EnemyBullet(data)];
      }
    }

    /**
     * The firing part of HandleBehavior: only Attack fires, once the fire
     * time has come, and the next shot waits 1 / fireRate seconds even when
     * Shoot had nothing to fire with.
     */
    method HandleBehavior(now: real)
      requires Valid()
      modifies this`shots, this`nextFireTime
      ensures state == Attack && now >= old(nextFireTime) ==>
                nextFireTime == now + 1.0 / data.fireRate &&
                shots == old(shots) + if data.hasBulletPrefab && hasFirePoint then [EnemyBullet(data)] else []
      ensures !(state == Attack && now >= old(nextFireTime)) ==>
                nextFireTime == old(nextFireTime) && shots == old(shots)
    {
      if state == Attack && now >= nextFireTime {
        Shoot();
        nextFireTime := now + 1.0 / data.fireRate;
      }
    }

    /**
     * One frame. Without a player nothing happens; otherwise the transition
     * is evaluated, the (possibly new) state acts, and only then does the
     * state timer advance by the frame time.
     */
    method Update(playerPresent: bool, distance: real, now: real, dt: real)
      requires Valid()
      modifies this
      ensures Valid()
      ensures !playerPresent ==> unchanged(this)
      ensures playerPresent ==>
                state == NextState(data, old(state), distance, old(HealthPercentage()), old(stateTimer)) &&
                stateTimer == (if state == old(state) then old(stateTimer) else 0.0) + dt
      ensures playerPresent && state == Attack && now >= old(nextFireTime) ==>
                nextFireTime == now + 1.0 / data.fireRate &&
                shots == old(shots) + if data.hasBulletPrefab && hasFirePoint then [EnemyBullet(data)] else []
      ensures !(playerPresent && state == Attack && now >= old(nextFireTime)) ==>
                nextFireTime == old(nextFireTime) && shots == old(shots)
      ensures currentHealth == old(currentHealth) && deaths == old(deaths)
    {
      if !playerPresent {
        return;
      }
      UpdateState(distance);
      HandleBehavior(now);
      stateTimer := stateTimer + dt;
    }

    /** Raises OnEnemyDied and awards the definition's XP and currency. */
    method Die()
      modifies this`deaths
      ensures deaths == old(deaths) + [Reward(data.xpReward, data.currencyReward)]
    {
      deaths := deaths + [Reward(data.xpReward, data.currencyReward)];
    }

    /**
     * Health drops by the damage and is clamped at 0. At 0 the enemy dies
     * (again, if it already had: nothing guards Die); otherwise a patrolling
     * enemy turns to pursue its attacker.
     */
    method TakeDamage(damage: real)
      requires Valid()
      modifies this
      ensures Valid()
      ensures currentHealth == Max(old(currentHealth) - damage, 0.0)
      ensures currentHealth == 0.0 ==>
                deaths == old(deaths) + [Reward(data.xpReward, data.currencyReward)] &&
                state == old(state) && stateTimer == old(stateTimer)
      ensures currentHealth > 0.0 ==> deaths == old(deaths)
      ensures currentHealth > 0.0 && old(state) == Patrol ==> state == Pursue && stateTimer == 0.0
      ensures currentHealth > 0.0 && old(state) != Patrol ==>
                state == old(state) && stateTimer == old(stateTimer)
      ensures shots == old(shots) && nextFireTime == old(nextFireTime)
    {
      currentHealth := Max(currentHealth - damage, 0.0);
      if currentHealth <= 0.0 {
        Die();
      } else if state == Patrol {
        ChangeState(Pursue);
      }
    }
  }
}
