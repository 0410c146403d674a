/**
 * The boss: a six-state Idle/Approach/Attack/SpecialAttack/Retreat/Circle
 * cycle driven by timers, distance and a random draw, plus a one-way phase
 * ratchet driven by the health fraction that scales damage, fire rate and
 * speed and selects the special attack. Movement, aiming and the flash
 * coroutines are presentation and are not modelled; fired bullets become a
 * shot log.
 */
module BossController {
  import opened Numeric
  import opened Combat
  import opened EnemyData

  datatype BossState = Idle | Approach | Attack | SpecialAttack | Retreat | Circle

  datatype BossPhase = Phase1 | Phase2 | Phase3

  /** What the boss puts into the world: an aimed bullet, a spread bullet at a heading, or the explosive prefab. */
  datatype BossShot = Aimed(p: Projectile) | Spread(angle: real, p: Projectile) | ExplosivePlaced

  /** Bullets in one spread shot. */
  const SpreadCount: nat := 8

  /** Regular attacks in the phase-2 rapid-fire burst. */
  const RapidFireShots: nat := 10

  function PhaseRank(p: BossPhase): (n: nat)
    ensures n < 3
  {
    match p
    case Phase1 => 0
    case Phase2 => 1
    case Phase3 => 2
  }

  /**
   * One call of CheckPhaseTransition: Phase1 moves to Phase2 at a health
   * fraction of at most 0.66, Phase2 to Phase3 at most 0.33, one step at a
   * time and never back.
   */
  function NextPhase(p: BossPhase, healthFraction: real): (r: BossPhase)
    ensures PhaseRank(p) <= PhaseRank(r) <= PhaseRank(p) + 1
    ensures r != p <==> (p == Phase1 && healthFraction <= 0.66) || (p == Phase2 && healthFraction <= 0.33)
  {
    if p == Phase1 && healthFraction <= 0.66 then Phase2
    else if p == Phase2 && healthFraction <= 0.33 then Phase3
    else p
  }

  /** The phase after one CheckPhaseTransition per health fraction, in order. */
  function PhaseAfter(p: BossPhase, fractions: seq<real>): BossPhase
    decreases |fractions|
  {
    if fractions == [] then p else PhaseAfter(NextPhase(p, fractions[0]), fractions[1..])
  }

  /**
   * Over any run of ticks the phase never regresses, whatever the health
   * does, and it advances by at most one step per tick.
   */
  lemma {:induction false} PhaseRatchet(p: BossPhase, fractions: seq<real>)
    ensures PhaseRank(p) <= PhaseRank(PhaseAfter(p, fractions)) <= PhaseRank(p) + |fractions|
    decreases |fractions|
  {
    if fractions != [] {
      PhaseRatchet(NextPhase(p, fractions[0]), fractions[1..]);
    }
  }

  /** Once in Phase3 the boss stays there, even if it were healed. */
  lemma {:induction false} Phase3Absorbs(fractions: seq<real>)
    ensures PhaseAfter(Phase3, fractions) == Phase3
    decreases |fractions|
  {
    if fractions != [] {
      Phase3Absorbs(fractions[1..]);
    }
  }

  function DamageMultiplier(p: BossPhase): (m: real)
    ensures m >= 1.0
  {
    match p
    case Phase1 => 1.0
    case Phase2 => 1.2
    case Phase3 => 1.5
  }

  function FireRateMultiplier(p: BossPhase): (m: real)
    ensures m >= 1.0
  {
    match p
    case Phase1 => 1.0
    case Phase2 => 1.3
    case Phase3 => 1.6
  }

  function SpeedMultiplier(p: BossPhase): (m: real)
    ensures m >= 1.0
  {
    match p
    case Phase1 => 1.0
    case Phase2 => 1.1
    case Phase3 => 1.25
  }

  /** A later phase is never weaker in any of the three multipliers. */
  lemma MultipliersMonotone(p: BossPhase, q: BossPhase)
    requires PhaseRank(p) <= PhaseRank(q)
    ensures DamageMultiplier(p) <= DamageMultiplier(q)
    ensures FireRateMultiplier(p) <= FireRateMultiplier(q)
    ensures SpeedMultiplier(p) <= SpeedMultiplier(q)
  {
  }

  /**
   * The transition the current state's handler takes, given the state timer
   * already advanced for this frame; only the first matching row applies.
   */
  function NextBossState(s: BossState, stateTimer: real, distance: real, attackRange: real,
                         now: real, nextSpecialAttackTime: real, draw: real): (r: BossState)
    ensures s == Idle ==> r == (if stateTimer > 2.0 then Approach else Idle)
    ensures s == Approach ==> r == (if distance <= attackRange * 1.2 then Attack else Approach)
    ensures s == Attack && now >= nextSpecialAttackTime ==> r == SpecialAttack
    ensures s == Attack && now < nextSpecialAttackTime ==>
              r == (if stateTimer <= 5.0 then Attack else if draw > 0.5 then Circle else Retreat)
    ensures s == SpecialAttack ==> r == (if stateTimer > 0.5 then Retreat else SpecialAttack)
    ensures s == Retreat ==> r == (if stateTimer > 3.0 then Circle else Retreat)
    ensures s == Circle ==> r == (if stateTimer > 4.0 then Approach else Circle)
  {
    match s
    case Idle => if stateTimer > 2.0 then Approach else Idle
    case Approach => if distance > attackRange * 1.2 then Approach else Attack
    case Attack =>
      if now >= nextSpecialAttackTime then SpecialAttack
      else if stateTimer > 5.0 then (if draw > 0.5 then Circle else Retreat)
      else Attack
    case SpecialAttack => if stateTimer > 0.5 then Retreat else SpecialAttack
    case Retreat => if stateTimer > 3.0 then Circle else Retreat
    case Circle => if stateTimer > 4.0 then Approach else Circle
  }

  /**
   * The cycle's shape: no handler ever enters Idle, and each state has
   * exactly the successors of Approach → Attack → SpecialAttack/Retreat/Circle
   * → Approach.
   */
  lemma CycleEdges(s: BossState, stateTimer: real, distance: real, attackRange: real,
                   now: real, nextSpecialAttackTime: real, draw: real)
    ensures var r := NextBossState(s, stateTimer, distance, attackRange, now, nextSpecialAttackTime, draw);
            r != s ==>
              r != Idle &&
              (s == Idle ==> r == Approach) &&
              (s == Approach ==> r == Attack) &&
              (s == Attack ==> r in {SpecialAttack, Circle, Retreat}) &&
              (s == SpecialAttack ==> r == Retreat) &&
              (s == Retreat ==> r == Circle) &&
              (s == Circle ==> r == Approach)
  {
  }

  /** One aimed bullet per assigned fire point, in order; unassigned points are skipped. */
  function Volley(firePoints: seq<bool>, p: Projectile): (r: seq<BossShot>)
    ensures |r| == multiset(firePoints)[true]
    ensures forall i :: 0 <= i < |r| ==> r[i] == Aimed(p)
    decreases |firePoints|
  {
    if firePoints == [] then []
    else
      assert firePoints == firePoints[..|firePoints| - 1] + [firePoints[|firePoints| - 1]];
      Volley(firePoints[..|firePoints| - 1], p) + (if firePoints[|firePoints| - 1] then [Aimed(p)] else [])
  }

  /** The eight spread bullets, at headings 0, 45, ..., 315 degrees. */
  function SpreadVolley(p: Projectile): (r: seq<BossShot>)
    ensures |r| == SpreadCount
    ensures forall i :: 0 <= i < |r| ==> r[i].Spread? && r[i].p == p && 0.0 <= r[i].angle < 360.0
    ensures forall i, j :: 0 <= i < j < |r| ==> r[j].angle - r[i].angle == (j - i) as real * 45.0
    ensures r[0].angle == 0.0
  {
    seq(SpreadCount, i requires 0 <= i => Spread(i as real * (360.0 / SpreadCount as real), p))
  }

  /** n copies of a volley, one after another. */
  function Repeat(s: seq<BossShot>, n: nat): (r: seq<BossShot>)
    ensures |r| == n * |s|
  {
    if n == 0 then [] else Repeat(s, n - 1) + s
  }

  /** Block k of n repetitions (counting from 0) is the volley itself. */
  lemma {:induction false} RepeatBlock(s: seq<BossShot>, n: nat, k: nat)
    requires k < n
    ensures k * |s| <= (k + 1) * |s| <= n * |s|
    ensures Repeat(s, n)[k * |s| .. (k + 1) * |s|] == s
  {
    var earlier := Repeat(s, n - 1);
    assert (k + 1) * |s| == k * |s| + |s|;
    assert n * |s| == (n - 1) * |s| + |s|;
    if k == n - 1 {
      assert (earlier + s)[|earlier| .. |earlier| + |s|] == s;
    } else {
      RepeatBlock(s, n - 1, k);
      assert (earlier + s)[k * |s| .. (k + 1) * |s|] == earlier[k * |s| .. (k + 1) * |s|];
    }
  }

  class Boss {
    const data: EnemyData
    /** For each configured fire point, whether it is assigned (null ones are skipped). */
    const firePoints: seq<bool>
    const hasSpecialAttackPrefab: bool
    const specialAttackCooldown: real
    var currentHealth: real
    var maxHealth: real
    var state: BossState
    var phase: BossPhase
    var stateTimer: real
    var nextSpecialAttackTime: real
    var nextFireTime: real
    var shots: seq<BossShot>
    /** Every phase announced through OnPhaseChanged, in order. */
    var phaseChanges: seq<BossPhase>
    /** One entry per call of Die: the rewards awarded before OnBossDied is raised. */
    var deaths: seq<Reward>

    ghost predicate Valid()
      reads this
    {
      data.maxHealth > 0.0 && data.fireRate > 0.0 && maxHealth == data.maxHealth && currentHealth >= 0.0
    }

    /** Awake: full health, Idle, Phase1, all timers at 0. */
    constructor (data: EnemyData, firePoints: seq<bool>, hasSpecialAttackPrefab: bool, specialAttackCooldown: real)
      requires data.maxHealth > 0.0 && data.fireRate > 0.0
      ensures Valid()
      ensures this.data == data && this.firePoints == firePoints
      ensures this.hasSpecialAttackPrefab == hasSpecialAttackPrefab && this.specialAttackCooldown == specialAttackCooldown
      ensures currentHealth == data.maxHealth && state == Idle && phase == Phase1
      ensures stateTimer == 0.0 && nextSpecialAttackTime == 0.0 && nextFireTime == 0.0
      ensures shots == [] && phaseChanges == [] && deaths == []
    {
      this.data := data;
      this.firePoints := firePoints;
      this.hasSpecialAttackPrefab := hasSpecialAttackPrefab;
      this.specialAttackCooldown := specialAttackCooldown;
      maxHealth := data.maxHealth;
      currentHealth := data.maxHealth;
      state := Idle;
      phase := Phase1;
      stateTimer := 0.0;
      nextSpecialAttackTime := 0.0;
      nextFireTime := 0.0;
      shots := [];
      phaseChanges := [];
      deaths := [];
    }

    function HealthPercentage(): (f: real)
      reads this
      requires Valid()
      ensures f >= 0.0 && f * maxHealth == currentHealth
    {
      currentHealth / maxHealth
    }

    function CurrentDamage(): (dmg: real)
      reads this`phase
      ensures dmg == data.damage * DamageMultiplier(phase)
      ensures data.damage >= 0.0 ==> dmg >= data.damage
    {
      data.damage * DamageMultiplier(phase)
    }

    function CurrentFireRate(): (rate: real)
      reads this`phase
      requires data.fireRate > 0.0
      ensures rate >= data.fireRate > 0.0
    {
      data.fireRate * FireRateMultiplier(phase)
    }

    function CurrentMovementSpeed(): (speed: real)
      reads this`phase
      ensures data.movementSpeed >= 0.0 ==> speed >= data.movementSpeed
      ensures speed == data.movementSpeed * SpeedMultiplier(phase)
    {
      data.movementSpeed * SpeedMultiplier(phase)
    }

    /** The bullet of a regular attack in the current phase. */
    function AimedBullet(): (p: Projectile)
      reads this`phase
      ensures p.speed == data.bulletSpeed && p.maxRange == data.attackRange && p.ownerTag == "Enemy"
      ensures p.damage == CurrentDamage()
      ensures data.damage >= 0.0 ==> p.damage >= data.damage
      ensures phase == Phase1 ==> p.damage == data.damage
    {
      Projectile(CurrentDamage(), data.bulletSpeed, data.attackRange, "Enemy")
    }

    /** What one regular attack fires: nothing without a bullet prefab, else one bullet per assigned fire point. */
    function RegularAttackShots(): (r: seq<BossShot>)
      reads this`phase
      ensures !data.hasBulletPrefab ==> r == []
      ensures data.hasBulletPrefab ==> r == Volley(firePoints, AimedBullet())
    {
      if !data.hasBulletPrefab || |firePoints| == 0 then [] else Volley(firePoints, AimedBullet())
    }

    /** The spread shot at 0.8 times the current damage; nothing without a bullet prefab. */
    function SpreadShots(): (r: seq<BossShot>)
      reads this`phase
      ensures data.hasBulletPrefab ==> r == SpreadVolley(Projectile(CurrentDamage() * 0.8, data.bulletSpeed, data.attackRange, "Enemy"))
      ensures data.hasBulletPrefab ==> |r| == SpreadCount
      ensures forall i :: 0 <= i < |r| ==> r[i].Spread? && r[i].p.damage == CurrentDamage() * 0.8
      ensures !data.hasBulletPrefab ==> r == []
    {
      if data.hasBulletPrefab
      then SpreadVolley(Projectile(CurrentDamage() * 0.8, data.bulletSpeed, data.attackRange, "Enemy"))
      else []
    }

    /**
     * The special attack of the current phase: Phase1 a spread shot, Phase2
     * a burst of ten regular attacks, Phase3 the explosive prefab or, when
     * there is none, the spread shot.
     */
    function SpecialAttackShots(): (r: seq<BossShot>)
      reads this`phase
      ensures phase == Phase1 ==> r == SpreadShots()
      ensures phase == Phase2 ==> r == Repeat(RegularAttackShots(), RapidFireShots)
      ensures phase == Phase3 ==> r == if hasSpecialAttackPrefab then [ExplosivePlaced] else SpreadShots()
    {
      match phase
      case Phase1 => SpreadShots()
      case Phase2 => Repeat(RegularAttackShots(), RapidFireShots)
      case Phase3 => if hasSpecialAttackPrefab then [ExplosivePlaced] else SpreadShots()
    }

    method ChangeState(newState: BossState)
      modifies this`state, this`stateTimer
      ensures state == newState && stateTimer == 0.0
    {
      state := newState;
      stateTimer := 0.0;
    }

    /** Start: the special attack is first due one cooldown from now, and the boss approaches. */
    method StartBehavior(now: real)
      modifies this`nextSpecialAttackTime, this`state, this`stateTimer
      ensures nextSpecialAttackTime == now + specialAttackCooldown
      ensures state == Approach && stateTimer == 0.0
    {
      nextSpecialAttackTime := now + specialAttackCooldown;
      ChangeState(Approach);
    }

    /** Fires from every assigned fire point, when there is a bullet prefab. */
    method PerformRegularAttack()
      modifies this`shots
      ensures shots == old(shots) + RegularAttackShots()
    {
      if !data.hasBulletPrefab || |firePoints| == 0 {
        return;
      }
      var bullet := AimedBullet();
      var i := 0;
      while i < |firePoints|
        invariant 0 <= i <= |firePoints|
        invariant shots == old(shots) + Volley(firePoints[..i], bullet)
      {
        assert firePoints[..i + 1][..i] == firePoints[..i];
        if firePoints[i] {
          shots := shots + [Aimed(bullet)];
        }
        i := i + 1;
      }
      assert firePoints[..i] == firePoints;
    }

    /** Eight bullets at 45-degree steps, each with 0.8 times the current damage. */
    method PerformSpreadShot()
      modifies this`shots
      ensures shots == old(shots) + SpreadShots()
    {
      if !data.hasBulletPrefab {
        return;
      }
      var bullet := Projectile(CurrentDamage() * 0.8, data.bulletSpeed, data.attackRange, "Enemy");
      var angleStep := 360.0 / SpreadCount as real;
      ghost var volley := SpreadVolley(bullet);
      var i := 0;
      while i < SpreadCount
        invariant 0 <= i <= SpreadCount
        invariant shots == old(shots) + volley[..i]
      {
        var shot := Spread(i as real * angleStep, bullet);
        assert angleStep == 45.0;
        assert i > 0 ==> volley[i].angle - volley[0].angle == i as real * 45.0;
        assert shot == volley[i];
        assert volley[..i + 1] == volley[..i] + [shot];
        shots := shots + [shot];
        i := i + 1;
      }
      assert volley[..SpreadCount] == volley;
    }

    /** The rapid-fire burst: ten regular attacks (the 0.1 s spacing is engine timing). */
    method PerformRapidFire()
      modifies this`shots
      ensures shots == old(shots) + Repeat(RegularAttackShots(), RapidFireShots)
    {
      var i := 0;
      while i < RapidFireShots
        invariant 0 <= i <= RapidFireShots
        invariant shots == old(shots) + Repeat(RegularAttackShots(), i)
      {
        PerformRegularAttack();
        i := i + 1;
      }
    }

    /** Places the explosive prefab at the player, or falls back to the spread shot. */
    method PerformExplosiveShot()
      modifies this`shots
      ensures shots == old(shots) + if hasSpecialAttackPrefab then [ExplosivePlaced] else SpreadShots()
    {
      if hasSpecialAttackPrefab {
        shots := shots + [ExplosivePlaced];
      } else {
        PerformSpreadShot();
      }
    }

    method PerformSpecialAttack()
      modifies this`shots
      ensures shots == old(shots) + SpecialAttackShots()
    {
      match phase
      case Phase1 => PerformSpreadShot();
      case Phase2 => PerformRapidFire();
      case Phase3 => PerformExplosiveShot();
    }

    /** A regular attack when the fire time has come, rescheduled by the current fire rate. */
    method FireWhenReady(now: real)
      requires Valid()
      modifies this`shots, this`nextFireTime
      ensures now >= old(nextFireTime) ==>
                shots == old(shots) + RegularAttackShots() && nextFireTime == now + 1.0 / CurrentFireRate()
      ensures now < old(nextFireTime) ==> shots == old(shots) && nextFireTime == old(nextFireTime)
    {
      if now >= nextFireTime {
        PerformRegularAttack();
        nextFireTime := now + 1.0 / CurrentFireRate();
      }
    }

    /** Whether the current state's handler makes a regular attack this frame (Attack and Circle, once the fire time has come). */
    static predicate FiresRegular(s: BossState, now: real, nextFireTime: real)
    {
      (s == Attack || s == Circle) && now >= nextFireTime
    }

    /** Whether the current state's handler performs the special attack this frame (after the 0.5 s wind-up). */
    static predicate FiresSpecial(s: BossState, stateTimer: real)
    {
      s == SpecialAttack && stateTimer > 0.5
    }

    method HandleIdleState()
      requires state == Idle
      modifies this`state, this`stateTimer
      ensures state == (if old(stateTimer) > 2.0 then Approach else Idle)
      ensures stateTimer == if state == old(state) then old(stateTimer) else 0.0
    {
      if stateTimer > 2.0 {
        ChangeState(Approach);
      }
    }

    method HandleApproachState(distance: real)
      requires state == Approach
      modifies this`state, this`stateTimer
      ensures state == (if distance <= data.attackRange * 1.2 then Attack else Approach)
      ensures stateTimer == if state == old(state) then old(stateTimer) else 0.0
    {
      if distance <= data.attackRange * 1.2 {
        ChangeState(Attack);
      }
    }

    /**
     * Attack: first the regular attack when ready; then a due special attack
     * takes over (before the timeout is looked at); otherwise after 5 s the
     * draw picks Circle (above 0.5) or Retreat.
     */
    method HandleAttackState(now: real, draw: real)
      requires Valid() && state == Attack
      modifies this`state, this`stateTimer, this`shots, this`nextFireTime
      ensures state == NextBossState(Attack, old(stateTimer), 0.0, 0.0, now, nextSpecialAttackTime, draw)
      ensures stateTimer == if state == old(state) then old(stateTimer) else 0.0
      ensures now >= old(nextFireTime) ==>
                shots == old(shots) + RegularAttackShots() && nextFireTime == now + 1.0 / CurrentFireRate()
      ensures now < old(nextFireTime) ==> shots == old(shots) && nextFireTime == old(nextFireTime)
    {
      FireWhenReady(now);
      if now >= nextSpecialAttackTime {
        ChangeState(SpecialAttack);
        return;
      }
      if stateTimer > 5.0 {
        ChangeState(if draw > 0.5 then Circle else Retreat);
      }
    }

    /** After the wind-up: the special attack, the next one a cooldown away, then Retreat. */
    method HandleSpecialAttackState(now: real)
      requires state == SpecialAttack
      modifies this`state, this`stateTimer, this`shots, this`nextSpecialAttackTime
      ensures state == (if old(stateTimer) > 0.5 then Retreat else SpecialAttack)
      ensures stateTimer == if state == old(state) then old(stateTimer) else 0.0
      ensures old(stateTimer) > 0.5 ==>
                shots == old(shots) + old(SpecialAttackShots()) && nextSpecialAttackTime == now + specialAttackCooldown
      ensures old(stateTimer) <= 0.5 ==>
                shots == old(shots) && nextSpecialAttackTime == old(nextSpecialAttackTime)
    {
      if stateTimer > 0.5 {
        PerformSpecialAttack();
        nextSpecialAttackTime := now + specialAttackCooldown;
        ChangeState(Retreat);
      }
    }

    method HandleRetreatState()
      requires state == Retreat
      modifies this`state, this`stateTimer
      ensures state == (if old(stateTimer) > 3.0 then Circle else Retreat)
      ensures stateTimer == if state == old(state) then old(stateTimer) else 0.0
    {
      if stateTimer > 3.0 {
        ChangeState(Circle);
      }
    }

    /** Circle: fires while circling, and approaches again after 4 s. */
    method HandleCircleState(now: real)
      requires Valid() && state == Circle
      modifies this`state, this`stateTimer, this`shots, this`nextFireTime
      ensures state == (if old(stateTimer) > 4.0 then Approach else Circle)
      ensures stateTimer == if state == old(state) then old(stateTimer) else 0.0
      ensures now >= old(nextFireTime) ==>
                shots == old(shots) + RegularAttackShots() && nextFireTime == now + 1.0 / CurrentFireRate()
      ensures now < old(nextFireTime) ==> shots == old(shots) && nextFireTime == old(nextFireTime)
    {
      FireWhenReady(now);
      if stateTimer > 4.0 {
        ChangeState(Approach);
      }
    }

    /** UpdateBehavior: runs the current state's handler. */
    method UpdateBehavior(distance: real, now: real, draw: real)
      requires Valid()
      modifies this`state, this`stateTimer, this`shots, this`nextFireTime, this`nextSpecialAttackTime
      ensures state == NextBossState(old(state), old(stateTimer), distance, data.attackRange,
                                     now, old(nextSpecialAttackTime), draw)
      ensures stateTimer == if state == old(state) then old(stateTimer) else 0.0
      ensures shots == old(shots)
                       + (if FiresRegular(old(state), now, old(nextFireTime)) then RegularAttackShots() else [])
                       + (if FiresSpecial(old(state), old(stateTimer)) then old(SpecialAttackShots()) else [])
      ensures nextFireTime == if FiresRegular(old(state), now, old(nextFireTime))
                              then now + 1.0 / CurrentFireRate() else old(nextFireTime)
      ensures nextSpecialAttackTime == if FiresSpecial(old(state), old(stateTimer))
                                       then now + specialAttackCooldown else old(nextSpecialAttackTime)
    {
      match state
      case Idle => HandleIdleState();
      case Approach => HandleApproachState(distance);
      case Attack => HandleAttackState(now, draw);
      case SpecialAttack => HandleSpecialAttackState(now);
      case Retreat => HandleRetreatState();
      case Circle => HandleCircleState(now);
    }

    /** Advances the phase by at most one step and announces it through OnPhaseChanged. */
    method CheckPhaseTransition()
      requires Valid()
      modifies this`phase, this`phaseChanges
      ensures phase == NextPhase(old(phase), HealthPercentage())
      ensures phaseChanges == old(phaseChanges) + if phase != old(phase) then [phase] else []
    {
      var next := NextPhase(phase, HealthPercentage());
      if next != phase {
        phase := next;
        phaseChanges := phaseChanges + [phase];
      }
    }

    /**
     * One frame: without a player nothing happens; otherwise the state timer
     * advances first, then the state's handler runs, then the phase is
     * checked against the health fraction.
     */
    method Update(playerPresent: bool, distance: real, now: real, dt: real, draw: real)
      requires Valid()
      modifies this
      ensures Valid()
      ensures !playerPresent ==> unchanged(this)
      ensures playerPresent ==>
                state == NextBossState(old(state), old(stateTimer) + dt, distance, data.attackRange,
                                       now, old(nextSpecialAttackTime), draw) &&
                stateTimer == (if state == old(state) then old(stateTimer) + dt else 0.0) &&
                phase == NextPhase(old(phase), old(HealthPercentage()))
      ensures playerPresent ==>
                var regular := FiresRegular(old(state), now, old(nextFireTime));
                var special := FiresSpecial(old(state), old(stateTimer) + dt);
                shots == old(shots) + (if regular then old(RegularAttackShots()) else [])
                                    + (if special then old(SpecialAttackShots()) else []) &&
                nextFireTime == (if regular then now + 1.0 / old(CurrentFireRate()) else old(nextFireTime)) &&
                nextSpecialAttackTime == (if special then now + specialAttackCooldown else old(nextSpecialAttackTime)) &&
                phaseChanges == old(phaseChanges) + if phase != old(phase) then [phase] else []
      ensures currentHealth == old(currentHealth) && deaths == old(deaths)
    {
      if !playerPresent {
        return;
      }
      stateTimer := stateTimer + dt;
      UpdateBehavior(distance, now, draw);
      CheckPhaseTransition();
    }

    /** Awards five times the XP and three times the currency of the definition, then raises OnBossDied. */
    method Die()
      modifies this`deaths
      ensures deaths == old(deaths) + [Reward(data.xpReward * 5, data.currencyReward * 3)]
    {
      deaths := deaths + [Reward(data.xpReward * 5, data.currencyReward * 3)];
    }

    /** Health drops by the damage, clamped at 0; at 0 the boss dies (unguarded against repeats). */
    method TakeDamage(damage: real)
      requires Valid()
      modifies this`currentHealth, this`deaths
      ensures Valid()
      ensures currentHealth == Max(old(currentHealth) - damage, 0.0)
      ensures deaths == old(deaths) + if currentHealth == 0.0 then [Reward(data.xpReward * 5, data.currencyReward * 3)] else []
    {
      currentHealth := Max(currentHealth - damage, 0.0);
      if currentHealth <= 0.0 {
        Die();
      }
    }
  }
}
