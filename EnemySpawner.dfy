/**
 * The wave scheduler: starts a wave once the previous one is cleared and its
 * pause is over, spawns the wave's enemies one per spawn interval, schedules
 * a boss on every wave divisible by the boss interval, and counts deaths
 * through the subscriptions it holds on the spawned combatants.
 *
 * Engine services become parameters: the current time, whether a player
 * exists, the instance id of a newly instantiated prefab and whether that
 * prefab carries a controller. Spawn positions and prefab choice are random
 * placement and are not modelled. Invoke(SpawnBoss, delay) becomes a queue of
 * due times that RunDueBossSpawn serves.
 */
module EnemySpawner {
  import opened Numeric

  /** The hard cap on enemies per wave. */
  const MaxEnemiesPerWave: int := 30

  datatype SpawnerEvent = WaveStarted(wave: int) | WaveCompleted(wave: int) | BossSpawned | BossDefeated

  /** The fields one pass of the wave logic rewrites, and what it appends to the boss queue and the event log. */
  datatype WaveOutcome = WaveOutcome(wave: int, toSpawn: int, spawned: int, spawning: bool, nextWaveTime: real,
                                     newBossSpawns: seq<real>, newEvents: seq<SpawnerEvent>)

  /** Enemies in wave `wave`: round(base * scaling^(wave - 1)), capped at 30. */
  function EnemiesForWave(baseEnemies: int, waveScaling: real, wave: int): (n: int)
    requires waveScaling != 0.0 || wave >= 1
    ensures n <= MaxEnemiesPerWave
    ensures n < MaxEnemiesPerWave ==> n == RoundedGeometric(baseEnemies as real, waveScaling, wave - 1)
    ensures n == MaxEnemiesPerWave ==> RoundedGeometric(baseEnemies as real, waveScaling, wave - 1) >= MaxEnemiesPerWave
  {
    MinInt(RoundedGeometric(baseEnemies as real, waveScaling, wave - 1), MaxEnemiesPerWave)
  }

  /** The first wave has the base size, up to the cap. */
  lemma FirstWaveIsBase(baseEnemies: int, waveScaling: real)
    ensures EnemiesForWave(baseEnemies, waveScaling, 1) == MinInt(baseEnemies, MaxEnemiesPerWave)
  {
    RoundedGeometricAtZero(baseEnemies, waveScaling);
  }

  /**
   * With a non-negative base and a scaling of at least 1, wave sizes never
   * shrink from one wave to a later one (and so stay at the cap once there).
   */
  lemma WaveSizeNonDecreasing(baseEnemies: int, waveScaling: real, w1: int, w2: int)
    requires baseEnemies >= 0 && waveScaling >= 1.0
    requires 1 <= w1 <= w2
    ensures EnemiesForWave(baseEnemies, waveScaling, w1) <= EnemiesForWave(baseEnemies, waveScaling, w2)
  {
    RoundedGeometricNonDecreasing(baseEnemies as real, waveScaling, w1 - 1, w2 - 1);
  }

  /** With the shipped configuration (5 enemies, scaling 1.2) the first waves have 5, 6 and 7 enemies. */
  lemma DefaultWaveSizes()
    ensures EnemiesForWave(5, 1.2, 1) == 5
    ensures EnemiesForWave(5, 1.2, 2) == 6
    ensures EnemiesForWave(5, 1.2, 3) == 7
  {
    assert IntPow(1.2, 0) == 1.0;
    assert IntPow(1.2, 1) == 1.2 by { assert Pow(1.2, 1) == 1.2 * Pow(1.2, 0); }
    assert IntPow(1.2, 2) == 1.44 by {
      assert Pow(1.2, 2) == 1.2 * Pow(1.2, 1);
      assert Pow(1.2, 1) == 1.2 * Pow(1.2, 0);
    }
    assert (5.0 * 1.2).Floor == 6;
    assert (5.0 * 1.44).Floor == 7;
    RoundToIntOfInt(5);
  }

  class Spawner {
    const hasEnemyPrefabs: bool
    const hasBossPrefabs: bool
    const baseEnemiesPerWave: int
    const waveScaling: real
    const timeBetweenWaves: real
    const timeBetweenSpawns: real
    const wavesBetweenBosses: int
    const bossSpawnDelay: real

    var currentWave: int
    var enemiesAlive: int
    var enemiesSpawned: int
    var enemiesToSpawn: int
    var isSpawningWave: bool
    var isBossActive: bool
    var nextSpawnTime: real
    var nextWaveTime: real
    /** Instances whose OnEnemyDied this spawner is subscribed to. */
    var enemySubscriptions: set<nat>
    /** Instances whose OnBossDied this spawner is subscribed to. */
    var bossSubscriptions: set<nat>
    /** Due times of the SpawnBoss calls scheduled with Invoke, in scheduling order. */
    var pendingBossSpawns: seq<real>
    var events: seq<SpawnerEvent>

    ghost predicate Valid()
      reads this
    {
      wavesBetweenBosses != 0 &&
      currentWave >= 0 && enemiesAlive >= 0 &&
      0 <= enemiesSpawned <= MaxInt(enemiesToSpawn, 0) && enemiesToSpawn <= MaxEnemiesPerWave
    }

    /** Field initialisers and Start: no wave yet, the first one due three seconds from now. */
    constructor (hasEnemyPrefabs: bool, hasBossPrefabs: bool, baseEnemiesPerWave: int, waveScaling: real,
                 timeBetweenWaves: real, timeBetweenSpawns: real, wavesBetweenBosses: int,
                 bossSpawnDelay: real, now: real)
      requires wavesBetweenBosses != 0
      ensures Valid()
      ensures this.hasEnemyPrefabs == hasEnemyPrefabs && this.hasBossPrefabs == hasBossPrefabs
      ensures this.baseEnemiesPerWave == baseEnemiesPerWave && this.waveScaling == waveScaling
      ensures this.timeBetweenWaves == timeBetweenWaves && this.timeBetweenSpawns == timeBetweenSpawns
      ensures this.wavesBetweenBosses == wavesBetweenBosses && this.bossSpawnDelay == bossSpawnDelay
      ensures currentWave == 0 && enemiesAlive == 0 && enemiesSpawned == 0 && enemiesToSpawn == 0
      ensures !isSpawningWave && !isBossActive
      ensures nextSpawnTime == 0.0 && nextWaveTime == now + 3.0
      ensures enemySubscriptions == {} && bossSubscriptions == {} && pendingBossSpawns == [] && events == []
    {
      this.hasEnemyPrefabs := hasEnemyPrefabs;
      this.hasBossPrefabs := hasBossPrefabs;
      this.baseEnemiesPerWave := baseEnemiesPerWave;
      this.waveScaling := waveScaling;
      this.timeBetweenWaves := timeBetweenWaves;
      this.timeBetweenSpawns := timeBetweenSpawns;
      this.wavesBetweenBosses := wavesBetweenBosses;
      this.bossSpawnDelay := bossSpawnDelay;
      currentWave, enemiesAlive, enemiesSpawned, enemiesToSpawn := 0, 0, 0, 0;
      isSpawningWave, isBossActive := false, false;
      nextSpawnTime := 0.0;
      nextWaveTime := now + 3.0;
      enemySubscriptions, bossSubscriptions := {}, {};
      pendingBossSpawns := [];
      events := [];
    }

    /** The condition under which HandleWaveSpawning starts a wave. */
    function CanStartWave(now: real): (b: bool)
      reads this
      ensures b ==> !isSpawningWave && enemiesAlive == 0 && nextWaveTime <= now
      ensures b ==> !WaveCleared()
    {
      !isSpawningWave && enemiesAlive == 0 && now >= nextWaveTime
    }

    /** The condition under which HandleWaveSpawning completes the wave. */
    function WaveCleared(): (b: bool)
      reads this
      ensures b ==> isSpawningWave && enemiesAlive == 0 && enemiesToSpawn <= enemiesSpawned
    {
      isSpawningWave && enemiesSpawned >= enemiesToSpawn && enemiesAlive == 0
    }

    /** Whether the wave just started calls for a boss: a multiple of the boss interval with no boss active. */
    function BossWave(): (b: bool)
      reads this
      requires wavesBetweenBosses != 0
      ensures b ==> !isBossActive && currentWave % wavesBetweenBosses == 0
      ensures wavesBetweenBosses == 1 ==> (b <==> !isBossActive)
    {
      currentWave % wavesBetweenBosses == 0 && !isBossActive
    }

    function GetCurrentWave(): (w: int)
      reads this
      requires Valid()
      ensures w >= 0 && w == currentWave
    {
      currentWave
    }

    function GetEnemiesAlive(): (n: int)
      reads this
      requires Valid()
      ensures n >= 0 && n == enemiesAlive
    {
      enemiesAlive
    }

    function GetTimeUntilNextWave(now: real): (t: real)
      reads this
      ensures t >= 0.0
      ensures now < nextWaveTime ==> t == nextWaveTime - now
      ensures now >= nextWaveTime ==> t == 0.0
    {
      Max(0.0, nextWaveTime - now)
    }

    /**
     * What one HandleWaveSpawning call leaves behind, computed from the
     * state before it: a wave starts when it may, and the wave in progress
     * (possibly the one just started) completes once everything was spawned
     * and nobody is alive.
     */
    function WaveLogic(now: real): (o: WaveOutcome)
      reads this
      requires (waveScaling != 0.0 || currentWave >= 0) && wavesBetweenBosses != 0
      ensures o.wave == currentWave + if CanStartWave(now) then 1 else 0
      ensures CanStartWave(now) ==> o.spawned == 0 && o.toSpawn == EnemiesForWave(baseEnemiesPerWave, waveScaling, o.wave)
      ensures isSpawningWave && !o.spawning ==> WaveCleared()
      ensures !isSpawningWave && !CanStartWave(now) ==> !o.spawning && o.nextWaveTime == nextWaveTime && o.newEvents == []
      ensures |o.newBossSpawns| <= 1 && (o.newBossSpawns != [] ==> o.wave % wavesBetweenBosses == 0 && !isBossActive)
    {
      var started := CanStartWave(now);
      var wave := if started then currentWave + 1 else currentWave;
      var toSpawn := if started then EnemiesForWave(baseEnemiesPerWave, waveScaling, wave) else enemiesToSpawn;
      var spawned := if started then 0 else enemiesSpawned;
      var spawning := started || isSpawningWave;
      var completes := spawning && spawned >= toSpawn && enemiesAlive == 0;
      WaveOutcome(wave, toSpawn, spawned, spawning && !completes,
                  if completes then now + timeBetweenWaves else nextWaveTime,
                  if started && wave % wavesBetweenBosses == 0 && !isBossActive then [now + bossSpawnDelay] else [],
                  (if started then [WaveStarted(wave)] else []) + (if completes then [WaveCompleted(wave)] else []))
    }

    /**
     * Advances the wave number by exactly one, resets the spawned count,
     * sizes the wave, announces it, and schedules a boss for a qualifying
     * wave.
     */
    method StartNewWave(now: real)
      requires Valid()
      modifies this`currentWave, this`isSpawningWave, this`enemiesSpawned, this`enemiesToSpawn,
               this`events, this`pendingBossSpawns
      ensures Valid()
      ensures currentWave == old(currentWave) + 1
      ensures isSpawningWave && enemiesSpawned == 0
      ensures enemiesToSpawn == EnemiesForWave(baseEnemiesPerWave, waveScaling, currentWave)
      ensures events == old(events) + [WaveStarted(currentWave)]
      ensures pendingBossSpawns == old(pendingBossSpawns) + if BossWave() then [now + bossSpawnDelay] else []
    {
      currentWave := currentWave + 1;
      isSpawningWave := true;
      enemiesSpawned := 0;
      enemiesToSpawn := EnemiesForWave(baseEnemiesPerWave, waveScaling, currentWave);
      events := events + [WaveStarted(currentWave)];
      if currentWave % wavesBetweenBosses == 0 && !isBossActive {
        pendingBossSpawns := pendingBossSpawns + [now + bossSpawnDelay];
      }
    }

    /** Ends the wave and sets when the next one may start. */
    method CompleteWave(now: real)
      modifies this`isSpawningWave, this`nextWaveTime, this`events
      ensures !isSpawningWave && nextWaveTime == now + timeBetweenWaves
      ensures events == old(events) + [WaveCompleted(currentWave)]
    {
      isSpawningWave := false;
      nextWaveTime := now + timeBetweenWaves;
      events := events + [WaveCompleted(currentWave)];
    }

    /**
     * Starts a wave only when none is spawning, nobody is alive and its time
     * has come; then, in the same frame, completes the wave once everything
     * was spawned and nobody is alive.
     */
    method HandleWaveSpawning(now: real)
      requires Valid()
      modifies this`currentWave, this`isSpawningWave, this`enemiesSpawned, this`enemiesToSpawn,
               this`events, this`pendingBossSpawns, this`nextWaveTime
      ensures Valid()
      ensures currentWave == old(currentWave) + if old(CanStartWave(now)) then 1 else 0
      ensures old(CanStartWave(now)) ==>
                enemiesSpawned == 0 &&
                enemiesToSpawn == EnemiesForWave(baseEnemiesPerWave, waveScaling, currentWave)
      ensures !old(CanStartWave(now)) ==>
                enemiesSpawned == old(enemiesSpawned) && enemiesToSpawn == old(enemiesToSpawn) &&
                pendingBossSpawns == old(pendingBossSpawns)
      ensures old(isSpawningWave) && !isSpawningWave ==> old(WaveCleared())
      ensures old(isSpawningWave) ==> (isSpawningWave <==> !old(WaveCleared()))
      ensures !isSpawningWave && (old(isSpawningWave) || old(CanStartWave(now))) ==>
                nextWaveTime == now + timeBetweenWaves
      ensures isSpawningWave ==> nextWaveTime == old(nextWaveTime)
      ensures var o := old(WaveLogic(now));
              currentWave == o.wave && enemiesToSpawn == o.toSpawn && enemiesSpawned == o.spawned &&
              isSpawningWave == o.spawning && nextWaveTime == o.nextWaveTime &&
              pendingBossSpawns == old(pendingBossSpawns) + o.newBossSpawns && events == old(events) + o.newEvents
    {
      if !isSpawningWave && enemiesAlive == 0 && now >= nextWaveTime {
        StartNewWave(now);
      }
      if isSpawningWave && enemiesSpawned >= enemiesToSpawn && enemiesAlive == 0 {
        CompleteWave(now);
      }
    }

    /**
     * Instantiates one enemy (instance `id`), subscribing to its death when
     * it has a controller, and counts it as spawned and alive; with no enemy
     * prefabs or no player it does nothing.
     */
    method SpawnEnemy(playerPresent: bool, id: nat, hasController: bool)
      requires Valid() && enemiesSpawned < enemiesToSpawn
      modifies this`enemySubscriptions, this`enemiesSpawned, this`enemiesAlive
      ensures Valid()
      ensures hasEnemyPrefabs && playerPresent ==>
                enemiesSpawned == old(enemiesSpawned) + 1 && enemiesAlive == old(enemiesAlive) + 1 &&
                enemySubscriptions == old(enemySubscriptions) + if hasController then {id} else {}
      ensures !(hasEnemyPrefabs && playerPresent) ==>
                enemiesSpawned == old(enemiesSpawned) && enemiesAlive == old(enemiesAlive) &&
                enemySubscriptions == old(enemySubscriptions)
    {
      if !hasEnemyPrefabs || !playerPresent {
        return;
      }
      if hasController {
        enemySubscriptions := enemySubscriptions + {id};
      }
      enemiesSpawned := enemiesSpawned + 1;
      enemiesAlive := enemiesAlive + 1;
    }

    /**
     * At most one spawn per frame, only while the wave still has enemies to
     * spawn and the spawn time has come; the next spawn is then one interval
     * away whether or not anything was instantiated.
     */
    method HandleEnemySpawning(now: real, playerPresent: bool, id: nat, hasController: bool)
      requires Valid()
      modifies this`enemySubscriptions, this`enemiesSpawned, this`enemiesAlive, this`nextSpawnTime
      ensures Valid()
      ensures var due := old(isSpawningWave) && old(enemiesSpawned) < old(enemiesToSpawn) && now >= old(nextSpawnTime);
              (due ==> nextSpawnTime == now + timeBetweenSpawns) &&
              (due && hasEnemyPrefabs && playerPresent ==>
                 enemiesSpawned == old(enemiesSpawned) + 1 && enemiesAlive == old(enemiesAlive) + 1 &&
                 enemySubscriptions == old(enemySubscriptions) + if hasController then {id} else {}) &&
              (!(due && hasEnemyPrefabs && playerPresent) ==>
                 enemiesSpawned == old(enemiesSpawned) && enemiesAlive == old(enemiesAlive) &&
                 enemySubscriptions == old(enemySubscriptions)) &&
              (!due ==> nextSpawnTime == old(nextSpawnTime))
    {
      if !isSpawningWave || enemiesSpawned >= enemiesToSpawn {
        return;
      }
      if now >= nextSpawnTime {
        SpawnEnemy(playerPresent, id, hasController);
        nextSpawnTime := now + timeBetweenSpawns;
      }
    }

    /**
     * One frame: nothing once the session is over; otherwise the wave logic,
     * then at most one enemy spawn. A new wave starts only when nobody is
     * alive, and at most one enemy is added.
     */
    method Update(now: real, sessionOver: bool, playerPresent: bool, id: nat, hasController: bool)
      requires Valid()
      modifies this
      ensures Valid()
      ensures sessionOver ==> unchanged(this)
      ensures currentWave != old(currentWave) ==>
                !sessionOver && currentWave == old(currentWave) + 1 &&
                old(enemiesAlive) == 0 && !old(isSpawningWave) && now >= old(nextWaveTime)
      ensures enemiesAlive <= old(enemiesAlive) + 1
      ensures currentWave == old(currentWave) ==> enemiesSpawned <= old(enemiesSpawned) + 1
      ensures currentWave != old(currentWave) ==> enemiesSpawned <= 1
      ensures isBossActive == old(isBossActive) && bossSubscriptions == old(bossSubscriptions)
      ensures !sessionOver ==>
                var o := old(WaveLogic(now));
                var due := o.spawning && o.spawned < o.toSpawn && now >= old(nextSpawnTime);
                var spawns := due && hasEnemyPrefabs && playerPresent;
                currentWave == o.wave && enemiesToSpawn == o.toSpawn && isSpawningWave == o.spawning &&
                nextWaveTime == o.nextWaveTime &&
                pendingBossSpawns == old(pendingBossSpawns) + o.newBossSpawns && events == old(events) + o.newEvents &&
                enemiesSpawned == o.spawned + (if spawns then 1 else 0) &&
                enemiesAlive == old(enemiesAlive) + (if spawns then 1 else 0) &&
                enemySubscriptions == old(enemySubscriptions) + (if spawns && hasController then {id} else {}) &&
                nextSpawnTime == if due then now + timeBetweenSpawns else old(nextSpawnTime)
    {
      if sessionOver {
        return;
      }
      HandleWaveSpawning(now);
      HandleEnemySpawning(now, playerPresent, id, hasController);
    }

    /**
     * SpawnBoss: with boss prefabs and a player, instantiates the boss
     * (instance `id`), subscribes to OnBossDied, or to OnEnemyDied when the
     * prefab has only an enemy controller, marks the boss active and counts
     * it as alive.
     */
    method SpawnBoss(playerPresent: bool, id: nat, hasBossController: bool, hasEnemyController: bool)
      requires Valid()
      modifies this`bossSubscriptions, this`enemySubscriptions, this`isBossActive, this`enemiesAlive, this`events
      ensures Valid()
      ensures hasBossPrefabs && playerPresent ==>
                isBossActive && enemiesAlive == old(enemiesAlive) + 1 &&
                events == old(events) + [BossSpawned] &&
                bossSubscriptions == old(bossSubscriptions) + (if hasBossController then {id} else {}) &&
                enemySubscriptions == old(enemySubscriptions) + (if !hasBossController && hasEnemyController then {id} else {})
      ensures !(hasBossPrefabs && playerPresent) ==>
                isBossActive == old(isBossActive) && enemiesAlive == old(enemiesAlive) && events == old(events) &&
                bossSubscriptions == old(bossSubscriptions) && enemySubscriptions == old(enemySubscriptions)
    {
      if !hasBossPrefabs || !playerPresent {
        return;
      }
      if hasBossController {
        bossSubscriptions := bossSubscriptions + {id};
      } else if hasEnemyController {
        enemySubscriptions := enemySubscriptions + {id};
      }
      isBossActive := true;
      enemiesAlive := enemiesAlive + 1;
      events := events + [BossSpawned];
    }

    /** Serves the oldest scheduled SpawnBoss once its delay has passed (Invoke runs even after game over). */
    method RunDueBossSpawn(now: real, playerPresent: bool, id: nat, hasBossController: bool, hasEnemyController: bool)
      requires Valid()
      modifies this`pendingBossSpawns, this`bossSubscriptions, this`enemySubscriptions, this`isBossActive,
               this`enemiesAlive, this`events
      ensures Valid()
      ensures old(pendingBossSpawns) != [] && old(pendingBossSpawns)[0] <= now ==>
                pendingBossSpawns == old(pendingBossSpawns)[1..]
      ensures old(pendingBossSpawns) != [] && old(pendingBossSpawns)[0] <= now && hasBossPrefabs && playerPresent ==>
                isBossActive && enemiesAlive == old(enemiesAlive) + 1 &&
                events == old(events) + [BossSpawned] &&
                bossSubscriptions == old(bossSubscriptions) + (if hasBossController then {id} else {}) &&
                enemySubscriptions == old(enemySubscriptions) + (if !hasBossController && hasEnemyController then {id} else {})
      ensures !(old(pendingBossSpawns) != [] && old(pendingBossSpawns)[0] <= now && hasBossPrefabs && playerPresent) ==>
                isBossActive == old(isBossActive) && enemiesAlive == old(enemiesAlive) && events == old(events) &&
                bossSubscriptions == old(bossSubscriptions) && enemySubscriptions == old(enemySubscriptions)
      ensures !(old(pendingBossSpawns) != [] && old(pendingBossSpawns)[0] <= now) ==>
                pendingBossSpawns == old(pendingBossSpawns)
    {
      if pendingBossSpawns != [] && pendingBossSpawns[0] <= now {
        pendingBossSpawns := pendingBossSpawns[1..];
        SpawnBoss(playerPresent, id, hasBossController, hasEnemyController);
      }
    }

    /** The OnEnemyDied handler: unsubscribes from the dying enemy and counts one death, never below 0. */
    method OnEnemyDied(enemy: Option<nat>)
      requires Valid()
      modifies this`enemySubscriptions, this`enemiesAlive
      ensures Valid()
      ensures enemySubscriptions == if enemy.Some? then old(enemySubscriptions) - {enemy.value} else old(enemySubscriptions)
      ensures enemiesAlive == MaxInt(old(enemiesAlive) - 1, 0)
    {
      if enemy.Some? {
        enemySubscriptions := enemySubscriptions - {enemy.value};
      }
      enemiesAlive := MaxInt(enemiesAlive - 1, 0);
    }

    /**
     * Enemy `id` raises OnEnemyDied: it reaches the handler only while the
     * spawner is subscribed, and the handler unsubscribes, so a second signal
     * from the same enemy changes nothing.
     */
    method RaiseEnemyDied(id: nat)
      requires Valid()
      modifies this`enemySubscriptions, this`enemiesAlive
      ensures Valid()
      ensures id !in enemySubscriptions
      ensures id in old(enemySubscriptions) ==>
                enemySubscriptions == old(enemySubscriptions) - {id} && enemiesAlive == MaxInt(old(enemiesAlive) - 1, 0)
      ensures id !in old(enemySubscriptions) ==>
                enemySubscriptions == old(enemySubscriptions) && enemiesAlive == old(enemiesAlive)
    {
      if id in enemySubscriptions {
        OnEnemyDied(Some(id));
      }
    }

    /** The OnBossDied handler: counts one death (never below 0), clears the boss flag and announces the defeat. */
    method OnBossDied()
      requires Valid()
      modifies this`enemiesAlive, this`isBossActive, this`events
      ensures Valid()
      ensures enemiesAlive == MaxInt(old(enemiesAlive) - 1, 0) && !isBossActive
      ensures events == old(events) + [BossDefeated]
    {
      enemiesAlive := MaxInt(enemiesAlive - 1, 0);
      isBossActive := false;
      events := events + [BossDefeated];
    }

    /** Boss `id` raises OnBossDied; the subscription is never removed, so every signal counts. */
    method RaiseBossDied(id: nat)
      requires Valid()
      modifies this`enemiesAlive, this`isBossActive, this`events
      ensures Valid()
      ensures id in bossSubscriptions ==>
                enemiesAlive == MaxInt(old(enemiesAlive) - 1, 0) && !isBossActive && events == old(events) + [BossDefeated]
      ensures id !in bossSubscriptions ==>
                enemiesAlive == old(enemiesAlive) && isBossActive == old(isBossActive) && events == old(events)
    {
      if id in bossSubscriptions {
        OnBossDied();
      }
    }

    /**
     * Everything but the two activity flags: the wave and enemy counters, the
     * schedule, the subscriptions, the pending boss spawns and the log.
     */
    function Progress(): (int, int, int, int, real, real, set<nat>, set<nat>, seq<real>, seq<SpawnerEvent>)
      reads this
    {
      (currentWave, enemiesAlive, enemiesSpawned, enemiesToSpawn, nextSpawnTime, nextWaveTime,
       enemySubscriptions, bossSubscriptions, pendingBossSpawns, events)
    }

    /** Game over: stop the wave and forget the boss; the counters stay as they are. */
    method ForceStopSpawning()
      modifies this`isSpawningWave, this`isBossActive
      ensures !isSpawningWave && !isBossActive
      ensures Progress() == old(Progress())
    {
      isSpawningWave := false;
      isBossActive := false;
    }
  }
}
