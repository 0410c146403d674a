# tankalore game logic in Dafny

A verified model of the deterministic game logic of *tankalore*, a top-down
tank roguelite built on Unity. The model covers:

- the enemy's four-state Patrol/Pursue/Attack/Retreat machine;
- the boss's six-state cycle, its one-way phase ratchet and its phase-scaled attacks;
- the wave scheduler and its boss scheduling and death accounting;
- the tank stat block with its five upgrade multipliers;
- the in-run upgrade pool, with its eligibility filter, rarity-weighted pick,
  stack ledger and diminishing returns;
- the XP level-up loop;
- the player's armour-reduced damage, capped heal and fraction-preserving stat swap;
- the currency balances;
- the permanent-upgrade shop button;
- the session clock with its game-over and pause flags and "MM:SS" formatting;
- the meta-progression save record's dictionary/entry-list conversion.

Each source file becomes one module in a `.dfy` file of the same name.
`Numeric.dfy` holds the shared arithmetic:

- `Option`;
- a real power with a natural exponent, and `Mathf.Pow` with a whole exponent of either sign;
- round-half-to-even, as `Mathf.RoundToInt` does;
- the rounded geometric series shared by wave sizes, XP requirements and shop costs.

`PlayerPrefs.dfy` models the engine's key-value store as two maps. `Combat.dfy`
holds the two log records: a fired projectile and an awarded reward.

Classes whose fields the game updates in place become Dafny classes, with
`modifies` clauses on their methods. Pure switch expressions and formulas
become functions with lemmas. Engine services become method parameters:

- the current time and the frame time;
- the distance to the player and whether a player exists;
- every `Random` draw;
- the instance id of a freshly instantiated prefab;
- whether a key was pressed.

Fired bullets and raised C# events become logs, which are sequences or counters
that methods append to.

## Model

| member | source | states |
|---|---|---|
| EnemyData.Default | Assets/Scripts/Enemies/EnemyData.cs:7-27 | The default enemy has attack range < detection range < aggro range, a positive fire rate and maximum health, a retreat fraction in [0, 1], rewards of 10 XP and 5 currency, the Basic type and no bullet prefab |
| EnemyController.NextState | Assets/Scripts/Enemies/EnemyController.cs:70-112 | The transition table row by row. From Patrol the only move is to Pursue, exactly when distance ≤ detectionRange. In Pursue, leaving the aggro range beats entering the attack range. In Attack, leaving the attack range beats the low-health retreat. Retreat returns to Pursue exactly after 3 s |
| EnemyController.PatrolPursueHysteresis | Assets/Scripts/Enemies/EnemyController.cs:76-92 | With ordered ranges, a distance between the detection and the aggro range keeps Patrol in Patrol and Pursue in Pursue |
| EnemyController.NoSkippedStates | Assets/Scripts/Enemies/EnemyController.cs:70-112 | One tick never goes from Patrol to Attack or Retreat, nor from Retreat to Attack or Patrol |
| EnemyController.EnemyBullet | Assets/Scripts/Enemies/EnemyController.cs:199-221 | The fired projectile carries the definition's damage and bullet speed, with the attack range as its reach, tagged "Enemy" |
| EnemyController.Enemy.constructor | Assets/Scripts/Enemies/EnemyController.cs:26-33 | Starts at full health, in Patrol, with zeroed timers and empty logs |
| EnemyController.Enemy.HealthPercentage | Assets/Scripts/Enemies/EnemyController.cs:294-297 | The fraction is non-negative and times the maximum gives the current health |
| EnemyController.Enemy.ChangeState | Assets/Scripts/Enemies/EnemyController.cs:234-238 | Sets the state and zeroes the state timer |
| EnemyController.Enemy.UpdateState | Assets/Scripts/Enemies/EnemyController.cs:70-112 | The new state is the table's transition for the old state, distance, health fraction and timer; the timer is zeroed exactly when the state changes |
| EnemyController.Enemy.Shoot | Assets/Scripts/Enemies/EnemyController.cs:199-221 | Logs one enemy bullet exactly when a bullet prefab and a fire point exist |
| EnemyController.Enemy.HandleBehavior | Assets/Scripts/Enemies/EnemyController.cs:114-131 | Only an attacking enemy whose fire time has come fires, and its next shot is then due 1/fireRate later; otherwise nothing changes |
| EnemyController.Enemy.Update | Assets/Scripts/Enemies/EnemyController.cs:47-55 | With no player nothing changes. Otherwise the transition is taken, the new state acts, and then the timer advances by dt. Health and deaths are untouched |
| EnemyController.Enemy.Die | Assets/Scripts/Enemies/EnemyController.cs:270-292 | Appends one reward of the definition's XP and currency |
| EnemyController.Enemy.TakeDamage | Assets/Scripts/Enemies/EnemyController.cs:240-260 | Health becomes max(health − damage, 0). At 0 a death is logged, again on each later hit. Above 0 a patrolling enemy turns to Pursue and other states are unchanged |
| BossController.PhaseRank | Assets/Scripts/Bosses/BossController.cs:507-512 | The phases are ranked below 3 |
| BossController.NextPhase | Assets/Scripts/Bosses/BossController.cs:334-346 | The phase changes exactly from Phase1 at a fraction ≤ 0.66, or from Phase2 at ≤ 0.33. It moves at most one rank and never back |
| BossController.PhaseRatchet | Assets/Scripts/Bosses/BossController.cs:334-346 | Over any sequence of ticks the phase rank never falls and rises at most once per tick |
| BossController.Phase3Absorbs | Assets/Scripts/Bosses/BossController.cs:334-346 | Phase3 is never left, whatever the health does |
| BossController.DamageMultiplier | Assets/Scripts/Bosses/BossController.cs:445-455 | The damage multiplier is at least 1 |
| BossController.FireRateMultiplier | Assets/Scripts/Bosses/BossController.cs:457-467 | The fire-rate multiplier is at least 1 |
| BossController.SpeedMultiplier | Assets/Scripts/Bosses/BossController.cs:469-479 | The speed multiplier is at least 1 |
| BossController.MultipliersMonotone | Assets/Scripts/Bosses/BossController.cs:445-479 | A later phase is never weaker in damage, fire rate or speed |
| BossController.NextBossState | Assets/Scripts/Bosses/BossController.cs:119-219 | Each handler's transition as a table: Idle after 2 s, Approach within 1.2 × attack range, Attack's special-attack-first then timeout draw, SpecialAttack after 0.5 s, Retreat after 3 s, Circle after 4 s |
| BossController.CycleEdges | Assets/Scripts/Bosses/BossController.cs:119-219 | Any change follows Idle→Approach→Attack→{SpecialAttack, Circle, Retreat}, SpecialAttack→Retreat→Circle→Approach, and no handler enters Idle |
| BossController.Volley | Assets/Scripts/Bosses/BossController.cs:221-250 | Exactly one aimed bullet per assigned fire point (null points are skipped), all carrying the same projectile |
| BossController.SpreadVolley | Assets/Scripts/Bosses/BossController.cs:268-294 | Exactly 8 spread bullets of the given projectile, the first at heading 0 and each next one 45° further, so all headings lie in [0, 360) |
| BossController.Repeat | Assets/Scripts/Bosses/BossController.cs:301-316 | n repetitions of a volley have n times its length |
| BossController.RepeatBlock | Assets/Scripts/Bosses/BossController.cs:301-316 | Block k of n repetitions, for every k < n, is exactly the volley: each of the ten rapid-fire attacks fires the same regular volley |
| BossController.Boss.constructor | Assets/Scripts/Bosses/BossController.cs:40-47 | Starts at full health, Idle, in Phase1, with zeroed timers and empty logs |
| BossController.Boss.HealthPercentage | Assets/Scripts/Bosses/BossController.cs:481-484 | The fraction is non-negative and times the maximum gives the current health |
| BossController.Boss.CurrentDamage | Assets/Scripts/Bosses/BossController.cs:445-455 | The base damage times the phase multiplier, never below a non-negative base |
| BossController.Boss.CurrentFireRate | Assets/Scripts/Bosses/BossController.cs:457-467 | Positive and never below the base fire rate |
| BossController.Boss.CurrentMovementSpeed | Assets/Scripts/Bosses/BossController.cs:469-479 | The base speed times the phase multiplier, never below a non-negative base |
| BossController.Boss.AimedBullet | Assets/Scripts/Bosses/BossController.cs:236-246 | The regular bullet carries the bullet speed and the attack range, tagged "Enemy". Its damage is the current phase's damage: the base damage in phase 1, and never below a non-negative base damage |
| BossController.Boss.RegularAttackShots | Assets/Scripts/Bosses/BossController.cs:221-250 | Nothing without a bullet prefab, otherwise one aimed bullet per assigned fire point |
| BossController.Boss.SpreadShots | Assets/Scripts/Bosses/BossController.cs:268-294 | With a bullet prefab, the eight-way spread volley of one projectile at 0.8 × the current damage, with the bullet speed and attack range; none without a prefab |
| BossController.Boss.SpecialAttackShots | Assets/Scripts/Bosses/BossController.cs:252-266 | Phase1 is the spread shot. Phase2 is ten regular attacks. Phase3 is the explosive, or the spread shot when there is no explosive prefab |
| BossController.Boss.ChangeState | Assets/Scripts/Bosses/BossController.cs:393-397 | Sets the state and zeroes the state timer |
| BossController.Boss.StartBehavior | Assets/Scripts/Bosses/BossController.cs:88-92 | The special attack is due one cooldown from now and the boss enters Approach |
| BossController.Boss.PerformRegularAttack | Assets/Scripts/Bosses/BossController.cs:221-250 | Appends exactly the regular attack's shots |
| BossController.Boss.PerformSpreadShot | Assets/Scripts/Bosses/BossController.cs:268-294 | Appends exactly the eight spread shots, built in a loop |
| BossController.Boss.PerformRapidFire | Assets/Scripts/Bosses/BossController.cs:296-316 | Appends ten regular attacks |
| BossController.Boss.PerformExplosiveShot | Assets/Scripts/Bosses/BossController.cs:318-332 | Appends the explosive, or the spread shot without an explosive prefab |
| BossController.Boss.PerformSpecialAttack | Assets/Scripts/Bosses/BossController.cs:252-266 | Appends exactly the current phase's special attack |
| BossController.Boss.FireWhenReady | Assets/Scripts/Bosses/BossController.cs:150-154 | When the fire time has come, fires a regular attack and reschedules by the current fire rate; otherwise nothing changes |
| BossController.Boss.HandleIdleState | Assets/Scripts/Bosses/BossController.cs:119-125 | Moves to Approach exactly after 2 s; the timer is zeroed on a change |
| BossController.Boss.HandleApproachState | Assets/Scripts/Bosses/BossController.cs:127-141 | Moves to Attack exactly within 1.2 × attack range |
| BossController.Boss.HandleAttackState | Assets/Scripts/Bosses/BossController.cs:143-168 | Fires when ready. A due special attack takes precedence over the 5 s timeout, which picks Circle on a draw above 0.5 and Retreat otherwise |
| BossController.Boss.HandleSpecialAttackState | Assets/Scripts/Bosses/BossController.cs:170-181 | After 0.5 s it performs the phase's special attack, schedules the next one a cooldown away and retreats; before that nothing changes |
| BossController.Boss.HandleRetreatState | Assets/Scripts/Bosses/BossController.cs:183-196 | Moves to Circle exactly after 3 s |
| BossController.Boss.HandleCircleState | Assets/Scripts/Bosses/BossController.cs:198-219 | Fires when ready, and moves to Approach exactly after 4 s |
| BossController.Boss.UpdateBehavior | Assets/Scripts/Bosses/BossController.cs:94-117 | The new state is the table's transition. The shots, the fire time and the special-attack time change exactly as the current handler prescribes |
| BossController.Boss.CheckPhaseTransition | Assets/Scripts/Bosses/BossController.cs:334-357 | The phase becomes NextPhase of the health fraction, and a change is announced once |
| BossController.Boss.Update | Assets/Scripts/Bosses/BossController.cs:61-69 | With no player nothing changes. Otherwise the timer advances by dt first, then the handler runs: the new state, the appended regular and special shots (at the old phase), the next fire time and the next special-attack time follow the advanced timer. Then the phase is checked, and a change is announced once |
| BossController.Boss.Die | Assets/Scripts/Bosses/BossController.cs:421-442 | Appends a reward of 5 × XP and 3 × currency |
| BossController.Boss.TakeDamage | Assets/Scripts/Bosses/BossController.cs:399-411 | Health becomes max(health − damage, 0), and the boss dies exactly when it reaches 0 |
| EnemySpawner.EnemiesForWave | Assets/Scripts/Systems/Spawning/EnemySpawner.cs:100-101 | The wave size never exceeds 30, and below 30 it is round(base × scaling^(wave − 1)) |
| EnemySpawner.FirstWaveIsBase | Assets/Scripts/Systems/Spawning/EnemySpawner.cs:100-101 | Wave 1 has min(base, 30) enemies |
| EnemySpawner.WaveSizeNonDecreasing | Assets/Scripts/Systems/Spawning/EnemySpawner.cs:100-101 | With a scaling ≥ 1, later waves are never smaller |
| EnemySpawner.DefaultWaveSizes | Assets/Scripts/Systems/Spawning/EnemySpawner.cs:100-101 | With 5 enemies and scaling 1.2, the first waves have 5, 6 and 7 enemies |
| EnemySpawner.Spawner.constructor | Assets/Scripts/Systems/Spawning/EnemySpawner.cs:42-55 | No wave yet, zeroed counters, and the first wave due 3 s from now |
| EnemySpawner.Spawner.GetCurrentWave | Assets/Scripts/Systems/Spawning/EnemySpawner.cs:238-241 | The current wave, never negative |
| EnemySpawner.Spawner.GetEnemiesAlive | Assets/Scripts/Systems/Spawning/EnemySpawner.cs:243-246 | The alive count, never negative |
| EnemySpawner.Spawner.GetTimeUntilNextWave | Assets/Scripts/Systems/Spawning/EnemySpawner.cs:258-261 | The time left until the next wave while it lies ahead, and 0 once it is due |
| EnemySpawner.Spawner.StartNewWave | Assets/Scripts/Systems/Spawning/EnemySpawner.cs:93-112 | The wave goes up by exactly 1, the spawned count is zeroed, the wave is sized and announced, and a boss is queued exactly on a qualifying wave |
| EnemySpawner.Spawner.CompleteWave | Assets/Scripts/Systems/Spawning/EnemySpawner.cs:228-236 | Stops spawning, sets the next wave time to now + timeBetweenWaves, and announces completion |
| EnemySpawner.Spawner.WaveLogic | Assets/Scripts/Systems/Spawning/EnemySpawner.cs:66-112 | The outcome of one pass: the wave goes up by 1 exactly when a wave may start, a started wave is sized afresh, a spawning wave stops only once cleared, and an idle spawner that may not start keeps its flag, wave time and log. At most one boss spawn is queued, only on a boss-interval wave with no boss active |
| EnemySpawner.Spawner.CanStartWave | Assets/Scripts/Systems/Spawning/EnemySpawner.cs:69 | A wave may start only when no wave is spawning, nobody is alive and the wave time has come; a wave that may start is never also one that completes |
| EnemySpawner.Spawner.WaveCleared | Assets/Scripts/Systems/Spawning/EnemySpawner.cs:75 | A wave is cleared only while spawning, with nobody alive and every enemy spawned |
| EnemySpawner.Spawner.BossWave | Assets/Scripts/Systems/Spawning/EnemySpawner.cs:108 | A boss is due only on a multiple of the boss interval with no boss active; with an interval of 1, on every wave without one |
| EnemySpawner.Spawner.HandleWaveSpawning | Assets/Scripts/Systems/Spawning/EnemySpawner.cs:66-79 | A wave starts exactly when none is spawning, nobody is alive and its time has come. Spawning stops exactly when everything was spawned and nobody is alive. The whole new state (wave, counts, flag, wave time, boss queue, WaveStarted/WaveCompleted log) is WaveLogic's |
| EnemySpawner.Spawner.SpawnEnemy | Assets/Scripts/Systems/Spawning/EnemySpawner.cs:114-133 | With prefabs and a player, the spawned and alive counts each go up by 1 and a controller is subscribed; otherwise nothing changes |
| EnemySpawner.Spawner.HandleEnemySpawning | Assets/Scripts/Systems/Spawning/EnemySpawner.cs:81-91 | At most one spawn, only while enemies remain and the spawn time has come; the next spawn is then one interval away |
| EnemySpawner.Spawner.Update | Assets/Scripts/Systems/Spawning/EnemySpawner.cs:57-64 | Nothing once the session is over. Otherwise the wave logic runs and then the spawn logic on its outcome: the wave fields, boss queue and log are WaveLogic's, at most one enemy is spawned and subscribed, and the next spawn time moves exactly when a spawn was due |
| EnemySpawner.Spawner.SpawnBoss | Assets/Scripts/Systems/Spawning/EnemySpawner.cs:135-166 | With boss prefabs and a player, marks the boss active, counts it alive and subscribes to its death; otherwise nothing changes |
| EnemySpawner.Spawner.RunDueBossSpawn | Assets/Scripts/Systems/Spawning/EnemySpawner.cs:108-111 | The oldest queued boss spawn runs exactly once its delay has passed: it is dequeued and, with boss prefabs and a player, the boss is marked active, counted alive, subscribed and announced with BossSpawned; otherwise nothing else changes |
| EnemySpawner.Spawner.OnEnemyDied | Assets/Scripts/Systems/Spawning/EnemySpawner.cs:207-216 | Unsubscribes the enemy, and alive becomes max(alive − 1, 0) |
| EnemySpawner.Spawner.RaiseEnemyDied | Assets/Scripts/Systems/Spawning/EnemySpawner.cs:207-216 | Only a subscribed enemy's signal counts, and afterwards it is unsubscribed, so a repeat signal changes nothing |
| EnemySpawner.Spawner.OnBossDied | Assets/Scripts/Systems/Spawning/EnemySpawner.cs:218-226 | Alive becomes max(alive − 1, 0), the boss flag clears, and the defeat is announced |
| EnemySpawner.Spawner.RaiseBossDied | Assets/Scripts/Systems/Spawning/EnemySpawner.cs:218-226 | Every signal from a subscribed boss counts, since the boss handler never unsubscribes |
| EnemySpawner.Spawner.ForceStopSpawning | Assets/Scripts/Systems/Spawning/EnemySpawner.cs:263-267 | Clears the spawning and boss flags; every counter, the schedule, the subscriptions, the boss queue and the log stay as they were |
| UpgradeData.TypeOrdinal | Assets/Scripts/Systems/Upgrades/UpgradeData.cs:29-45 | There are 14 upgrade types, HealthBoost first |
| UpgradeData.RarityRank | Assets/Scripts/Systems/Upgrades/UpgradeData.cs:47-54 | Five rarities, Common lowest and Legendary highest |
| UpgradeData.OrdinalsInjective | Assets/Scripts/Systems/Upgrades/UpgradeData.cs:29-54 | Distinct types and distinct rarities have distinct positions |
| UpgradeData.StatUpgradesAreFirstFive | Assets/Scripts/Systems/Upgrades/UpgradeData.cs:29-45 | The types the effect switch acts on are exactly the first five |
| UpgradeData.Default | Assets/Scripts/Systems/Upgrades/UpgradeData.cs:7-23 | The default upgrade is a 1.1 percentage boost that stacks 5 times at 0.8 efficiency, from level 1, Common |
| TankStats.ScaledBounds | Assets/Scripts/Player/TankStats.cs:30-34 | A factor ≥ 1 never lowers a non-negative value, and a factor in [0, 1] never raises it |
| TankStats.TankStats.constructor | Assets/Scripts/Player/TankStats.cs:7-27 | The default base stats, every multiplier at 1, so every effective stat equals its base |
| TankStats.TankStats.Effective | Assets/Scripts/Player/TankStats.cs:30-34 | A unit multiplier gives back the base stat |
| TankStats.TankStats.EffectiveBounds | Assets/Scripts/Player/TankStats.cs:30-34 | A multiplier ≥ 1 never lowers a non-negative base stat, and one in [0, 1] never raises it nor makes it negative |
| TankStats.TankStats.ScaleMultiplier | Assets/Scripts/Systems/Upgrades/UpgradeManager.cs:178-199 | Scales one multiplier and its effective stat; every other multiplier and every base stat are unchanged |
| TankStats.TankStats.ResetMultipliers | Assets/Scripts/Player/TankStats.cs:36-43 | All five multipliers become 1 and the base stats are untouched. It is idempotent: on reset stats nothing changes |
| PlayerController.DamageTaken | Assets/Scripts/Player/PlayerController.cs:125-126 | Damage taken is the larger of damage − armour and 10% of the damage |
| PlayerController.DamageTakenBounds | Assets/Scripts/Player/PlayerController.cs:125-126 | For non-negative inputs it lies between 10% of the hit and the full hit, and with no armour it is the full hit |
| PlayerController.DamageTakenAntitoneInArmor | Assets/Scripts/Player/PlayerController.cs:125-126 | More armour never lets more damage through |
| PlayerController.Player.constructor | Assets/Scripts/Player/PlayerController.cs:31-40 | Health starts at the effective maximum, or 0 without a stat block |
| PlayerController.Player.MaxHealth | Assets/Scripts/Player/PlayerController.cs:167-170 | The stat block's effective health, which is the base health while the health multiplier is 1 |
| PlayerController.Player.GetHealthPercentage | Assets/Scripts/Player/PlayerController.cs:162-165 | The fraction times the maximum is the health, and full health is 1 |
| PlayerController.Player.TakeDamage | Assets/Scripts/Player/PlayerController.cs:123-137 | Health becomes max(health − DamageTaken, 0) and is never negative. The new health is reported, and death is signalled exactly when health is 0 |
| PlayerController.Player.Heal | Assets/Scripts/Player/PlayerController.cs:139-143 | Health becomes min(health + amount, maximum); it never exceeds the maximum and never drops on a non-negative heal |
| PlayerController.Player.SetTankStats | Assets/Scripts/Player/PlayerController.cs:151-160 | A null block changes nothing. Otherwise the health fraction is the same after the swap |
| UpgradeManager.RarityWeight | Assets/Scripts/Systems/Upgrades/UpgradeManager.cs:106-113 | Every weight is positive; Common weighs 50 and Legendary 1 |
| UpgradeManager.RarityWeightsOrdered | Assets/Scripts/Systems/Upgrades/UpgradeManager.cs:106-113 | Rarer is strictly lighter, and the five weights sum to 100 |
| UpgradeManager.CountOfType | Assets/Scripts/Systems/Upgrades/UpgradeManager.cs:213-216 | The count of a type in a list is at most the list's length |
| UpgradeManager.EligibleUpgrades | Assets/Scripts/Systems/Upgrades/UpgradeManager.cs:81-102 | The eligible sub-list is no longer than the pool |
| UpgradeManager.EligibleUpgradesMembership | Assets/Scripts/Systems/Upgrades/UpgradeManager.cs:81-102 | An upgrade is eligible exactly when it is in the pool, meets the level requirement, and is either a non-stacking type not yet taken or a stacking type below its limit |
| UpgradeManager.PrefixWeight | Assets/Scripts/Systems/Upgrades/UpgradeManager.cs:115-132 | Cumulative weights are non-negative, and positive for a non-empty prefix |
| UpgradeManager.PrefixWeightIncreasing | Assets/Scripts/Systems/Upgrades/UpgradeManager.cs:126-132 | Cumulative weights strictly increase along the list |
| UpgradeManager.PickIndex | Assets/Scripts/Systems/Upgrades/UpgradeManager.cs:104-138 | The index a draw selects: every earlier cumulative weight lies below the draw, and its own reaches it unless it is the last entry |
| UpgradeManager.PickFrom | Assets/Scripts/Systems/Upgrades/UpgradeManager.cs:125-137 | Scanning from k, the first index whose cumulative weight reaches the draw, or the last |
| UpgradeManager.PickUnique | Assets/Scripts/Systems/Upgrades/UpgradeManager.cs:125-137 | Those conditions single out one index, so a draw selects exactly one entry |
| UpgradeManager.SelectWeightedRandomUpgrade | Assets/Scripts/Systems/Upgrades/UpgradeManager.cs:104-138 | Picks an index of the list: the first whose cumulative weight reaches the draw, or the last as the fallback; it is PickIndex of the draw |
| UpgradeManager.WeightedPickInterval | Assets/Scripts/Systems/Upgrades/UpgradeManager.cs:125-137 | For a draw in (0, total], the pick is the entry whose cumulative-weight interval holds the draw |
| UpgradeManager.RemoveFirst | Assets/Scripts/Systems/Upgrades/UpgradeManager.cs:71-75 | Removing one element leaves the list one shorter, with the same multiset less that element |
| UpgradeManager.Picked | Assets/Scripts/Systems/Upgrades/UpgradeManager.cs:68 | The picked upgrade is an entry of the working list |
| UpgradeManager.AfterPick | Assets/Scripts/Systems/Upgrades/UpgradeManager.cs:71-75 | After a pick the working list keeps only its own entries, one shorter exactly when the pick cannot stack or has maxStacks − 1 stacks |
| UpgradeManager.AfterPickCount | Assets/Scripts/Systems/Upgrades/UpgradeManager.cs:71-75 | Exactly one copy of a removed pick goes, and no other entry |
| UpgradeManager.Offer | Assets/Scripts/Systems/Upgrades/UpgradeManager.cs:66-76 | The offer holds only working-list entries, at most one per remaining pick, is empty exactly when no pick or no entry remains, and stops short only after as many picks as the list had entries |
| UpgradeManager.OfferedAtMostOnce | Assets/Scripts/Systems/Upgrades/UpgradeManager.cs:71-75 | An upgrade removed once picked (non-stacking, or one stack short of its limit) appears in an offer at most as often as in the working list |
| UpgradeManager.StackedEffect | Assets/Scripts/Systems/Upgrades/UpgradeManager.cs:172-180 | The first stack gets the full effect value |
| UpgradeManager.StackingDiminishes | Assets/Scripts/Systems/Upgrades/UpgradeManager.cs:172-180 | For a boost above 1 and an efficiency in (0, 1), each further stack is worth strictly less than the previous one, and still more than 1 |
| UpgradeManager.DefaultStacking | Assets/Scripts/Systems/Upgrades/UpgradeManager.cs:172-180 | The default upgrade is worth 1.1, then 1.08, then 1.064 |
| UpgradeManager.StatOf | Assets/Scripts/Systems/Upgrades/UpgradeManager.cs:182-199 | Exactly the five stat upgrades act on a multiplier, and HealthBoost is the one acting on health |
| UpgradeManager.StatOfInjective | Assets/Scripts/Systems/Upgrades/UpgradeManager.cs:182-199 | Distinct stat upgrades act on distinct multipliers |
| UpgradeManager.UpgradeManager.constructor | Assets/Scripts/Systems/Upgrades/UpgradeManager.cs:6-27 | An empty ledger, session list and applied log, and no tank stats |
| UpgradeManager.UpgradeManager.GetUpgradeStacks | Assets/Scripts/Systems/Upgrades/UpgradeManager.cs:213-216 | The number of the session's upgrades of that type, positive exactly for types in the ledger |
| UpgradeManager.UpgradeManager.GetEligibleUpgrades | Assets/Scripts/Systems/Upgrades/UpgradeManager.cs:81-102 | The loop yields exactly the eligible sub-list, in pool order |
| UpgradeManager.UpgradeManager.GenerateUpgradeChoices | Assets/Scripts/Systems/Upgrades/UpgradeManager.cs:54-79 | The choices are exactly Offer of the eligible list and the draws: pick i uses draw i, and a non-stacking or nearly maxed pick leaves the working list. Every choice is eligible. The offer is empty exactly when nothing is eligible or no picks are configured. It never exceeds upgradesPerLevelUp, and stops short only once the working list is empty |
| UpgradeManager.UpgradeManager.ApplyUpgradeEffect | Assets/Scripts/Systems/Upgrades/UpgradeManager.cs:164-211 | With tank stats, only the matching multiplier is scaled by the stacked effect, and non-stat types change nothing. The health boost's heal is 0, so health is only clamped to the new maximum. Without tank stats nothing changes |
| UpgradeManager.UpgradeManager.RecordUpgrade | Assets/Scripts/Systems/Upgrades/UpgradeManager.cs:145-151 | The type's stack count rises by exactly 1 (a new type enters the ledger at 1), every other count is kept, the upgrade is appended to the session list, and the ledger keeps matching the session list |
| UpgradeManager.UpgradeManager.ApplyUpgrade | Assets/Scripts/Systems/Upgrades/UpgradeManager.cs:140-162 | Null changes nothing. Otherwise the type's stack count rises by 1, the upgrade is appended to the session list and announced, even without tank stats. With tank stats, the type's multiplier is scaled by the stacked effect and every other multiplier and every base stat is kept. A HealthBoost clamps the player's health to the new maximum; any other upgrade leaves the player untouched |
| UpgradeManager.UpgradeManager.ResetSessionUpgrades | Assets/Scripts/Systems/Upgrades/UpgradeManager.cs:223-233 | Empties the ledger and the session list so every stack count is 0, and resets the multipliers when stats exist |
| UpgradeManager.UpgradeManager.SetPlayerTankStats | Assets/Scripts/Systems/Upgrades/UpgradeManager.cs:235-238 | Sets the tank stats, which may be null |
| XPSystem.RequiredXP | Assets/Scripts/Systems/Upgrades/XPSystem.cs:55-58 | Within 0.5 of base × scaling^(level − 1) |
| XPSystem.RequiredXPAtLevelOne | Assets/Scripts/Systems/Upgrades/XPSystem.cs:55-58 | Level 1 needs exactly the base requirement |
| XPSystem.RequiredXPNonDecreasing | Assets/Scripts/Systems/Upgrades/XPSystem.cs:55-58 | With a scaling ≥ 1, higher levels never need less |
| XPSystem.DefaultRequirements | Assets/Scripts/Systems/Upgrades/XPSystem.cs:5-8 | With 80 XP and scaling 1.15, levels 1 to 3 need 80, 92 and 106 XP |
| XPSystem.SpentXP | Assets/Scripts/Systems/Upgrades/XPSystem.cs:35-53 | No levels cost nothing, and one level costs exactly that level's requirement |
| XPSystem.SpentXPSplit | Assets/Scripts/Systems/Upgrades/XPSystem.cs:35-53 | The XP paid from level lo to hi is the XP paid from lo to mid plus from mid to hi |
| XPSystem.LevelRange | Assets/Scripts/Systems/Upgrades/XPSystem.cs:35-38 | The run of levels lo..hi has hi − lo + 1 entries, or none |
| XPSystem.LevelRangeConsecutive | Assets/Scripts/Systems/Upgrades/XPSystem.cs:43-51 | Announced levels are consecutive: entry i is lo + i |
| XPSystem.XPSystem.constructor | Assets/Scripts/Systems/Upgrades/XPSystem.cs:10-22 | Level 1, no XP, and the level-1 requirement |
| XPSystem.XPSystem.LevelUp | Assets/Scripts/Systems/Upgrades/XPSystem.cs:43-53 | Pays the requirement, raises the level by exactly 1, announces it and recomputes the requirement |
| XPSystem.XPSystem.AddXP | Assets/Scripts/Systems/Upgrades/XPSystem.cs:29-41 | At the cap nothing changes. Otherwise the level never passes the cap, and afterwards the cap is reached or the XP is below the requirement. The XP paid is exactly the requirements of the levels left, and every level passed is announced once, in order |
| XPSystem.XPSystem.IsMaxLevel | Assets/Scripts/Systems/Upgrades/XPSystem.cs:80-83 | The cap is reached exactly when the level is not below the maximum, which is when AddXP ignores XP |
| XPSystem.XPSystem.GetSaveData | Assets/Scripts/Systems/Upgrades/XPSystem.cs:86-93 | Captures the level and the XP |
| XPSystem.XPSystem.LoadSaveData | Assets/Scripts/Systems/Upgrades/XPSystem.cs:95-101 | Loading data makes GetSaveData return that data (the round trip) and recomputes the requirement |
| XPSystem.XPSystem.ResetForNewSession | Assets/Scripts/Systems/Upgrades/XPSystem.cs:103-110 | Level 1, XP 0 and the base requirement, reported once |
| PlayerPrefs.Prefs.GetInt | Assets/Scripts/Systems/Currency/CurrencyManager.cs:81-84 | The stored value, or the default for a key never set |
| PlayerPrefs.Prefs.GetFloat | Assets/Scripts/Systems/Persistence/SaveSystem.cs:113 | The stored value, or the default for a key never set |
| PlayerPrefs.Prefs.SetInt | Assets/Scripts/Systems/Currency/CurrencyManager.cs:86-90 | The key reads back as the value, and every other key is unchanged |
| CurrencyManager.CurrencyManager.constructor | Assets/Scripts/Systems/Currency/CurrencyManager.cs:17-27 | The total is loaded from the store (0 when absent), the session is set to the starting amount, and both balances are announced once |
| CurrencyManager.CurrencyManager.SaveCurrency | Assets/Scripts/Systems/Currency/CurrencyManager.cs:86-90 | Writes the total under "TotalCurrency" and no other key, integer or float |
| CurrencyManager.CurrencyManager.AddCurrency | Assets/Scripts/Systems/Currency/CurrencyManager.cs:29-37 | Adds a positive amount to the session only and announces the new session balance; other amounts are ignored and announce nothing |
| CurrencyManager.CurrencyManager.CanAfford | Assets/Scripts/Systems/Currency/CurrencyManager.cs:39-42 | A cost is affordable exactly when paying it leaves the total non-negative |
| CurrencyManager.CurrencyManager.SpendCurrency | Assets/Scripts/Systems/Currency/CurrencyManager.cs:44-62 | Succeeds exactly for a positive amount the total covers. Then it lowers the total by that amount, announces the new total and the spend, and stores it; a refusal changes nothing. A non-negative total stays non-negative |
| CurrencyManager.CurrencyManager.EndSession | Assets/Scripts/Systems/Currency/CurrencyManager.cs:64-73 | Adds the session to the total, announces and stores it, without clearing the session |
| CurrencyManager.CurrencyManager.ResetSession | Assets/Scripts/Systems/Currency/CurrencyManager.cs:75-79 | Zeroes the session only and announces the zero |
| CurrencyManager.CurrencyManager.AddTotalCurrency | Assets/Scripts/Systems/Currency/CurrencyManager.cs:103-108 | Adds any amount to the total, announces and stores it |
| CurrencyManager.CurrencyManager.ResetAllCurrency | Assets/Scripts/Systems/Currency/CurrencyManager.cs:110-119 | Zeroes both balances, announces both zeros and stores the zero total |
| PermanentUpgradeButton.Name | Assets/Scripts/UI/UpgradeShopManager.cs:307-320 | Every type's name is non-empty |
| PermanentUpgradeButton.PrefsKey | Assets/Scripts/UI/PermanentUpgradeButton.cs:215 | The key is "PermanentUpgrade_" followed by the type's name |
| PermanentUpgradeButton.AllTypesListedOnce | Assets/Scripts/UI/UpgradeShopManager.cs:307-320 | The 11 types are each listed exactly once |
| PermanentUpgradeButton.PrefsKeyInjective | Assets/Scripts/UI/PermanentUpgradeButton.cs:215-228 | Distinct types are saved under distinct keys |
| PermanentUpgradeButton.NameInjective | Assets/Scripts/UI/UpgradeShopManager.cs:307-320 | Distinct types have distinct names |
| PermanentUpgradeButton.PrefsKeyNotTotalCurrency | Assets/Scripts/UI/PermanentUpgradeButton.cs:215-228 | No upgrade key collides with the currency total's key |
| PermanentUpgradeButton.UpgradeCost | Assets/Scripts/UI/PermanentUpgradeButton.cs:194-197 | Within 0.5 of baseCost × costMultiplier^level |
| PermanentUpgradeButton.FirstLevelCostsBase | Assets/Scripts/UI/PermanentUpgradeButton.cs:194-197 | At level 0 the cost is exactly the base cost |
| PermanentUpgradeButton.UpgradeCostNonDecreasing | Assets/Scripts/UI/PermanentUpgradeButton.cs:194-197 | With a multiplier ≥ 1, later levels never cost less |
| PermanentUpgradeButton.DefaultCosts | Assets/Scripts/UI/PermanentUpgradeButton.cs:16-29 | With base 100 and multiplier 1.5, the first levels cost 100, 150 and 225 |
| PermanentUpgradeButton.EffectAtLevel | Assets/Scripts/UI/PermanentUpgradeButton.cs:204-207 | Level 0 gives no effect, level 1 one step, and a non-negative step never gives a negative effect |
| PermanentUpgradeButton.EffectLinear | Assets/Scripts/UI/PermanentUpgradeButton.cs:204-207 | The effect is 0 at level 0 and additive in the level |
| PermanentUpgradeButton.PermanentUpgradeButton.constructor | Assets/Scripts/UI/PermanentUpgradeButton.cs:16-50 | Level 0, not maxed, nothing purchased; the latch is consistent for a positive max level |
| PermanentUpgradeButton.PermanentUpgradeButton.GetCurrentCost | Assets/Scripts/UI/PermanentUpgradeButton.cs:194-197 | The cost of the current level |
| PermanentUpgradeButton.PermanentUpgradeButton.GetCurrentEffect | Assets/Scripts/UI/PermanentUpgradeButton.cs:199-202 | The effect at the current level |
| PermanentUpgradeButton.PermanentUpgradeButton.GetNextCost | Assets/Scripts/UI/PermanentUpgradeButton.cs:254-258 | 0 when maxed, the current cost otherwise |
| PermanentUpgradeButton.PermanentUpgradeButton.LoadUpgradeLevel | Assets/Scripts/UI/PermanentUpgradeButton.cs:209-219 | With a save system, the level is the stored one (0 when absent) and the latch agrees with it; without one nothing changes |
| PermanentUpgradeButton.PermanentUpgradeButton.SaveUpgradeLevel | Assets/Scripts/UI/PermanentUpgradeButton.cs:221-231 | With a save system, stores the level under this type's key only; no float entry changes |
| PermanentUpgradeButton.PermanentUpgradeButton.OnButtonClicked | Assets/Scripts/UI/PermanentUpgradeButton.cs:167-192 | A purchase happens exactly when not maxed, a currency manager exists and the total covers the cost. It spends the cost, which logs the spend and the new total (a cost ≤ 0 is refused, and the level still rises), raises the level by 1, saves the level (without a save system the level's key is untouched) and announces it. Without a purchase nothing changes. The latch and level ≤ maxLevel are preserved, and a non-negative total stays non-negative |
| SessionManager.TimeRemaining | Assets/Scripts/Systems/GameFlow/SessionManager.cs:180-184 | float.MaxValue with the limit off. With it on, max(0, duration − elapsed), never negative |
| SessionManager.TimeUpIffDurationReached | Assets/Scripts/Systems/GameFlow/SessionManager.cs:67-70 | With the limit on, time is up exactly when the elapsed time reaches the duration |
| SessionManager.TimeRemainingNonIncreasing | Assets/Scripts/Systems/GameFlow/SessionManager.cs:180-184 | The time left never grows as time passes |
| SessionManager.TruncatedRem | Assets/Scripts/Systems/GameFlow/SessionManager.cs:211 | The float remainder takes the sign of the dividend and is smaller than the divisor in magnitude |
| SessionManager.DecimalString | Assets/Scripts/Systems/GameFlow/SessionManager.cs:212 | A non-empty digit string, with at least two digits from 10 on |
| SessionManager.DecimalRoundTrip | Assets/Scripts/Systems/GameFlow/SessionManager.cs:212 | Reading a printed number back gives the number |
| SessionManager.LeadingZero | Assets/Scripts/Systems/GameFlow/SessionManager.cs:212 | A leading zero does not change a digit string's value |
| SessionManager.ZeroPad2 | Assets/Scripts/Systems/GameFlow/SessionManager.cs:212 | The "00" format gives at least two digits that read back as the number, and exactly two below 100 |
| SessionManager.Pad2 | Assets/Scripts/Systems/GameFlow/SessionManager.cs:212 | A negative number gets a minus sign before its padded magnitude |
| SessionManager.ClockFields | Assets/Scripts/Systems/GameFlow/SessionManager.cs:209-211 | For a non-negative time the seconds lie in 0..59, and 60 × minutes + seconds is the time rounded down to the second |
| SessionManager.ClockStringParses | Assets/Scripts/Systems/GameFlow/SessionManager.cs:207-213 | Below 100 minutes the string is five characters "MM:SS" whose fields read back as the minutes and the seconds |
| SessionManager.SessionManager.constructor | Assets/Scripts/Systems/GameFlow/SessionManager.cs:26-46 | The session starts now, not over and not paused |
| SessionManager.SessionManager.StartSession | Assets/Scripts/Systems/GameFlow/SessionManager.cs:79-86 | Restarts the clock and clears both flags |
| SessionManager.SessionManager.GetSessionTime | Assets/Scripts/Systems/GameFlow/SessionManager.cs:175-178 | The elapsed time plus the start time is the clock, so it is non-negative exactly from the start on |
| SessionManager.SessionManager.GetTimeRemaining | Assets/Scripts/Systems/GameFlow/SessionManager.cs:180-184 | The remaining time for the elapsed session time |
| SessionManager.SessionManager.GetClockTime | Assets/Scripts/Systems/GameFlow/SessionManager.cs:209 | The non-negative time left with the limit on, and the time survived with it off |
| SessionManager.SessionManager.GetTimeString | Assets/Scripts/Systems/GameFlow/SessionManager.cs:207-213 | Below 100 minutes the string reads back as the clock time's minutes and seconds |
| SessionManager.SessionManager.EndSession | Assets/Scripts/Systems/GameFlow/SessionManager.cs:88-105 | Only the first call sets the flag and records the reason. It also stops the spawner, leaving every other spawner field as it was, and announces the survival time. Later calls change nothing |
| SessionManager.SessionManager.HandlePlayerDeath | Assets/Scripts/Systems/GameFlow/SessionManager.cs:107-110 | On a running session, as EndSession with reason PlayerDeath: the spawner stops, other spawner fields are kept and OnGameOver reports the survival time. On a session already over, nothing changes |
| SessionManager.SessionManager.PauseGame | Assets/Scripts/Systems/GameFlow/SessionManager.cs:126-133 | Pauses and signals only a running session that is not over |
| SessionManager.SessionManager.ResumeGame | Assets/Scripts/Systems/GameFlow/SessionManager.cs:135-142 | Resumes and signals only a paused session that is not over |
| SessionManager.SessionManager.TogglePause | Assets/Scripts/Systems/GameFlow/SessionManager.cs:112-124 | Flips the pause flag, raising the resume signal when it was paused and the pause signal otherwise. After game over it changes nothing |
| SessionManager.SessionManager.Update | Assets/Scripts/Systems/GameFlow/SessionManager.cs:56-77 | Nothing while over or paused. Otherwise the time is reported. If no time is left, the session ends with TimeUp, the spawner stops and no pause signal is raised. Otherwise Escape pauses, with one pause signal |
| SaveSystem.EntriesToMap | Assets/Scripts/Systems/Persistence/SaveSystem.cs:331-341 | The rebuilt dictionary has exactly the entries' keys, and the last entry's level wins |
| SaveSystem.LaterEntryWins | Assets/Scripts/Systems/Persistence/SaveSystem.cs:331-341 | For a duplicated key, the last entry carrying it decides its level |
| SaveSystem.EntryListPrefix | Assets/Scripts/Systems/Persistence/SaveSystem.cs:319-329 | Dropping the last entry lists the dictionary without that key |
| SaveSystem.SerialiseRoundTrip | Assets/Scripts/Systems/Persistence/SaveSystem.cs:319-341 | Serialising a dictionary and deserialising the entries gives back the same dictionary |
| SaveSystem.BuildLevelsFromEntries | Assets/Scripts/Systems/Persistence/SaveSystem.cs:333-340 | The loop computes exactly the dictionary the entries describe |
| SaveSystem.EntriesFromLevels | Assets/Scripts/Systems/Persistence/SaveSystem.cs:321-328 | The loop lists each key once with its level, and an empty dictionary gives no entries |
| SaveSystem.NoKeysNoEntries | Assets/Scripts/Systems/Persistence/SaveSystem.cs:319-329 | An entry list naming no key is empty |
| SaveSystem.MetaProgressionData.constructor | Assets/Scripts/Systems/Persistence/SaveSystem.cs:312-317 | Empty entries, an empty tank list and an empty, synced dictionary |
| SaveSystem.MetaProgressionData.GetPermanentUpgradeLevels | Assets/Scripts/Systems/Persistence/SaveSystem.cs:283-296 | Returns the cache unchanged when present. Otherwise it builds the dictionary from the entries (empty for null) and caches it |
| SaveSystem.MetaProgressionData.SetPermanentUpgradeLevels | Assets/Scripts/Systems/Persistence/SaveSystem.cs:298-309 | Replaces the dictionary and re-lists it as entries in step with it. A null or empty dictionary gives an empty list |
| SaveSystem.MetaProgressionData.SetLevelThroughGetter | Assets/Scripts/Systems/Persistence/SaveSystem.cs:117-125 | Writing through the getter updates the dictionary and leaves the entries alone |
| SaveSystem.MetaProgressionData.OnBeforeSerialize | Assets/Scripts/Systems/Persistence/SaveSystem.cs:319-329 | A present dictionary is listed as the entries, in step; a null one leaves them alone |
| SaveSystem.MetaProgressionData.OnAfterDeserialize | Assets/Scripts/Systems/Persistence/SaveSystem.cs:331-341 | Rebuilds the dictionary from the entries (empty for null). When dictionary and entries were in step, the dictionary is unchanged |
| SaveSystem.CollectStep | Assets/Scripts/Systems/Persistence/SaveSystem.cs:117-125 | One more type considered adds its level exactly when it is above 0 |
| SaveSystem.CollectedAll | Assets/Scripts/Systems/Persistence/SaveSystem.cs:117-125 | After all types, the dictionary holds exactly the types stored above 0, keyed by name, with their levels |
| SaveSystem.GetMetaProgressionData | Assets/Scripts/Systems/Persistence/SaveSystem.cs:106-128 | A fresh record with the basic tank and the stored games played and best time. Its dictionary holds exactly the upgrade types stored above 0, while the entry list stays empty until the next serialisation |

## Left out

- Engine physics and presentation are not modelled: movement, rotation, aiming, patrol points, spawn positions, prefab choice, colour flashes, audio, UI text and display, and debug logging. A fired bullet is a log entry. Spawning is a counter and a subscription set.
- Coroutine and Invoke timing is not modelled. The phase-transition effect is not modelled.
- BossController.Boss.PerformRapidFire: fires its ten attacks at once, without the 0.1 s spacing of the coroutine (BossController.cs:301-316). So every shot of the burst uses the phase (damage) and fire points that hold when the burst starts. In the game, the phase can change between shots, and a player destroyed mid-burst makes the coroutine stop early at BossController.cs:308. The model always fires all ten shots.
- `Invoke(SpawnBoss, delay)` is a queue of due times served by `RunDueBossSpawn`.
- Random draws and engine time are parameters. The model states which draw leads to which outcome, not how likely it is.
- Floats are exact reals, and float literals are exact decimals. Float rounding error is not modelled. `Mathf.RoundToInt` is exact round-half-to-even. `Mathf.Pow` is an exact real power.
- Division by zero is not modelled; the IEEE infinities and NaN are left out. The source divides by the fire rate (the fire interval) and by the maximum health (the health fraction). `EnemyController.Enemy.constructor`, `BossController.Boss.constructor` and `BossController.Boss.CurrentFireRate` require both to be positive. That excludes zero, and it also excludes negative values by choice, which a game configuration does not use.
- Numeric.IntPow: `Mathf.Pow` of a zero base with a negative exponent is float infinity, which has no real value, so that one case is excluded. Every other base is modelled, negative and zero ones included, with any whole exponent. `EnemySpawner.EnemiesForWave` excludes only a zero scaling before wave 1, `XPSystem.RequiredXP` and `XPSystem.SpentXP` only a zero scaling below level 1, and `PermanentUpgradeButton.UpgradeCost` only a zero multiplier at a negative level.
- XPSystem.XPSystem.LoadSaveData: requires a non-zero XP scaling or a loaded level of at least 1. In the source, a zero scaling with a stored level of 0 or less makes `Mathf.Pow` return infinity, and the rounded requirement is then undefined; that path is not modelled. `Valid` keeps the same condition for the current level.
- PermanentUpgradeButton.PermanentUpgradeButton.LoadUpgradeLevel: ensures `Valid` only for a non-zero cost multiplier. A zero multiplier with a stored negative level has no finite cost in the source, so the model's cost, price and click members cannot be called in that state.
- PlayerController.Player.GetHealthPercentage: requires a non-zero maximum health, because a zero maximum divides by zero in the source.
- PlayerController.Player.SetTankStats: requires a current stat block with a non-zero maximum when a new block is given. The source reads the old fraction first, so a missing block would dereference null there.
- EnemySpawner.Spawner.constructor: requires `wavesBetweenBosses != 0`, kept by `Valid`. In the source a zero interval makes `currentWave % wavesBetweenBosses` in StartNewWave throw DivideByZeroException; that exception path is not modelled.
- UpgradeManager.UpgradeManager.ApplyUpgradeEffect: requires the player's tank stats to exist when a health boost is applied with tank stats and a player. The source dereferences `playerController.tankStats` there and would throw NullReferenceException; that path is not modelled.
- PlayerController.Player.TakeDamage: requires a stat block. The source reads the armour and the maximum from `tankStats` without a null check, so a missing block throws NullReferenceException; that path is not modelled.
- PlayerController.Player.Heal: requires a stat block, for the same reason: the source reads the maximum health from `tankStats` unchecked.
- PlayerController.Player.MaxHealth: requires a stat block, because `GetMaxHealth` dereferences `tankStats` unchecked.
- UpgradeManager.RemoveFirst: removes the first element equal by value. `List.Remove` on ScriptableObject references removes the first reference-equal element; the two agree when the pool holds no two distinct assets with equal fields.
- C# `int` arithmetic is unbounded here. The 32-bit wrap-around of currency, XP and counters is not modelled.
- `Destroy(gameObject)` at the end of `Die` (EnemyController.cs:291, BossController.cs:441) is not modelled, so a dead enemy or boss stays in the model: further hits that find health at 0 log further deaths, and its Update keeps ticking. In the game the object is gone after the frame. A once-only death holds here only on the spawner's side, by unsubscription.
- SessionManager.SessionManager.GetTimeString: the parse-back is proved only below 100 minutes. Above that the minute field has more digits. `Pad2` and `ZeroPad2` still define the string for every time.
- `Time.timeScale`, scene loading (`RestartSession`, `ReturnToMainMenu`), `GetSessionProgress`, `GetSessionStats` and the trivial flag getters are engine or display state and are not modelled.
- Start's first `OnXPChanged` report, `GetXPProgress` (a float division for display), and the `HandleLevelUp` wiring (offer, then pause) are not modelled.
- The dictionary's enumeration order is unspecified. `EntriesFromLevels` lists the keys in an order it chooses freely.
- The shop button models only whether a save system exists; its levels go to the prefs store, as the code does. `UpdateDisplay` and the hover handlers are UI.
- File and JSON persistence is not modelled: `SaveData`, `LoadData`, `DeleteSave`, `JsonUtility`, the flush to disk (`PlayerPrefs.Save`), the singletons, the settings and statistics records, and the application lifecycle hooks.
- The configuration fields `phaseTransitionHealth` and `maxPhases` are unused by the code and not modelled; `dropChance` is kept in the EnemyData record as a field but, as in the source, nothing reads it.
- PlayerController input, aiming, movement and shooting are not modelled. The Bullet component's flight, range and collisions are physics.
