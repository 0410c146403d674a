/**
 * The in-run upgrade flow: filter the upgrade pool by level and stack
 * limits, draw an offer by rarity-weighted cumulative selection, keep a
 * per-type stack ledger of what was taken, and apply each upgrade's effect
 * to one of the five tank-stat multipliers with diminishing returns.
 *
 * The random draws are parameters: `draw` stands for Random.Range(0, total
 * weight). The player and the tank stats are references that may be null.
 */
module UpgradeManager {
  import opened Numeric
  import opened UpgradeData
  import opened TankStats
  import opened PlayerController

  /** The selection weight of each rarity: 50, 30, 15, 4 and 1. */
  function RarityWeight(r: UpgradeRarity): (w: real)
    ensures w > 0.0
    ensures r == Common ==> w == 50.0
    ensures r == Legendary ==> w == 1.0
  {
    match r
    case Common => 50.0
    case Uncommon => 30.0
    case Rare => 15.0
    case Epic => 4.0
    case Legendary => 1.0
  }

  /** Rarer means lighter: the weight strictly falls as the rarity rank rises, and the five weights sum to 100. */
  lemma RarityWeightsOrdered(a: UpgradeRarity, b: UpgradeRarity)
    ensures RarityRank(a) < RarityRank(b) ==> RarityWeight(b) < RarityWeight(a)
    ensures RarityWeight(Common) + RarityWeight(Uncommon) + RarityWeight(Rare) +
            RarityWeight(Epic) + RarityWeight(Legendary) == 100.0
  {
  }

  /** The stack count the ledger records for a type, 0 when the type is absent. */
  function StacksIn(applied: map<UpgradeType, int>, t: UpgradeType): int
  {
    if t in applied then applied[t] else 0
  }

  /** How many upgrades of type t a list holds. */
  function CountOfType(s: seq<UpgradeData>, t: UpgradeType): (n: nat)
    ensures n <= |s|
  {
    if |s| == 0 then 0
    else CountOfType(s[..|s| - 1], t) + if s[|s| - 1].upgradeType == t then 1 else 0
  }

  /**
   * GetEligibleUpgrades' test for one upgrade: the level requirement is met,
   * a non-stacking type has not been taken, and a stacking type is below its
   * stack limit.
   */
  predicate IsEligible(u: UpgradeData, playerLevel: int, applied: map<UpgradeType, int>)
  {
    u.levelRequirement <= playerLevel &&
    !(!u.canStack && u.upgradeType in applied) &&
    !(u.canStack && StacksIn(applied, u.upgradeType) >= u.maxStacks)
  }

  /** The eligible upgrades of a pool, in pool order. */
  function EligibleUpgrades(pool: seq<UpgradeData>, playerLevel: int, applied: map<UpgradeType, int>): (r: seq<UpgradeData>)
    ensures |r| <= |pool|
  {
    if |pool| == 0 then []
    else
      var last := pool[|pool| - 1];
      EligibleUpgrades(pool[..|pool| - 1], playerLevel, applied) +
      if IsEligible(last, playerLevel, applied) then [last] else []
  }

  /** An upgrade is offered for selection exactly when it is in the pool and eligible. */
  lemma {:induction false} EligibleUpgradesMembership(pool: seq<UpgradeData>, playerLevel: int,
                                                     applied: map<UpgradeType, int>, u: UpgradeData)
    ensures u in EligibleUpgrades(pool, playerLevel, applied) <==> u in pool && IsEligible(u, playerLevel, applied)
  {
    if |pool| > 0 {
      EligibleUpgradesMembership(pool[..|pool| - 1], playerLevel, applied, u);
      assert pool == pool[..|pool| - 1] + [pool[|pool| - 1]];
    }
  }

  /** The cumulative weight of the first k upgrades of a list. */
  function PrefixWeight(upgrades: seq<UpgradeData>, k: nat): (w: real)
    requires k <= |upgrades|
    ensures w >= 0.0
    ensures k > 0 ==> w > 0.0
  {
    if k == 0 then 0.0 else PrefixWeight(upgrades, k - 1) + RarityWeight(upgrades[k - 1].rarity)
  }

  /** Cumulative weights strictly increase along the list. */
  lemma {:induction false} PrefixWeightIncreasing(upgrades: seq<UpgradeData>, j: nat, k: nat)
    requires j < k <= |upgrades|
    ensures PrefixWeight(upgrades, j) < PrefixWeight(upgrades, k)
  {
    if j < k - 1 {
      PrefixWeightIncreasing(upgrades, j, k - 1);
    }
  }

  /**
   * The weighted pick scanning from index k: the first index from k on whose
   * cumulative weight reaches the draw, or the last index when none does.
   */
  function PickFrom(upgrades: seq<UpgradeData>, draw: real, k: nat): (i: nat)
    requires k < |upgrades|
    ensures k <= i < |upgrades|
    ensures (forall j :: 1 <= j <= k ==> draw > PrefixWeight(upgrades, j)) ==>
              forall j :: 1 <= j <= i ==> draw > PrefixWeight(upgrades, j)
    ensures draw <= PrefixWeight(upgrades, i + 1) || i == |upgrades| - 1
    decreases |upgrades| - k
  {
    if k == |upgrades| - 1 || draw <= PrefixWeight(upgrades, k + 1) then k
    else PickFrom(upgrades, draw, k + 1)
  }

  /**
   * The index a draw selects: every earlier cumulative weight is below the
   * draw, and its own reaches it unless it is the last entry.
   */
  function PickIndex(upgrades: seq<UpgradeData>, draw: real): (i: nat)
    requires |upgrades| > 0
    ensures i < |upgrades|
    ensures forall j :: 1 <= j <= i ==> draw > PrefixWeight(upgrades, j)
    ensures draw <= PrefixWeight(upgrades, i + 1) || i == |upgrades| - 1
  {
    PickFrom(upgrades, draw, 0)
  }

  /** Those two conditions single out one index: a draw selects exactly one entry. */
  lemma PickUnique(upgrades: seq<UpgradeData>, draw: real, i: nat, i': nat)
    requires i < |upgrades| && i' < |upgrades|
    requires forall j :: 1 <= j <= i ==> draw > PrefixWeight(upgrades, j)
    requires draw <= PrefixWeight(upgrades, i + 1) || i == |upgrades| - 1
    requires forall j :: 1 <= j <= i' ==> draw > PrefixWeight(upgrades, j)
    requires draw <= PrefixWeight(upgrades, i' + 1) || i' == |upgrades| - 1
    ensures i == i'
  {
  }

  /**
   * SelectWeightedRandomUpgrade: walks the list accumulating rarity
   * weights and picks the first entry whose cumulative weight reaches the
   * draw, falling back to the last entry. The pick is always an index of the
   * list.
   */
  method SelectWeightedRandomUpgrade(upgrades: seq<UpgradeData>, draw: real) returns (i: nat)
    requires |upgrades| > 0
    ensures i < |upgrades|
    ensures forall j :: 1 <= j <= i ==> draw > PrefixWeight(upgrades, j)
    ensures draw <= PrefixWeight(upgrades, i + 1) || i == |upgrades| - 1
    ensures i == PickIndex(upgrades, draw)
  {
    var currentWeight := 0.0;
    i := 0;
    while i < |upgrades|
      invariant 0 <= i <= |upgrades|
      invariant currentWeight == PrefixWeight(upgrades, i)
      invariant forall j :: 1 <= j <= i ==> draw > PrefixWeight(upgrades, j)
    {
      currentWeight := currentWeight + RarityWeight(upgrades[i].rarity);
      if draw <= currentWeight {
        PickUnique(upgrades, draw, i, PickIndex(upgrades, draw));
        return;
      }
      i := i + 1;
    }
    i := |upgrades| - 1;
    PickUnique(upgrades, draw, i, PickIndex(upgrades, draw));
  }

  /**
   * For a draw in (0, total weight], the selected index is the one whose
   * cumulative-weight interval holds the draw, so an entry's chance of being
   * picked is proportional to its rarity weight.
   */
  lemma WeightedPickInterval(upgrades: seq<UpgradeData>, draw: real, i: nat)
    requires i < |upgrades|
    requires forall j :: 1 <= j <= i ==> draw > PrefixWeight(upgrades, j)
    requires draw <= PrefixWeight(upgrades, i + 1) || i == |upgrades| - 1
    requires 0.0 < draw <= PrefixWeight(upgrades, |upgrades|)
    ensures PrefixWeight(upgrades, i) < draw <= PrefixWeight(upgrades, i + 1)
  {
    if i > 0 {
      assert draw > PrefixWeight(upgrades, i);
    }
  }

  /** List.Remove: takes out the first element equal to x. */
  function RemoveFirst(s: seq<UpgradeData>, x: UpgradeData): (r: seq<UpgradeData>)
    requires x in s
    ensures |r| == |s| - 1
    ensures multiset(r) == multiset(s) - multiset{x}
  {
    if s[0] == x then
      assert s == [s[0]] + s[1..];
      s[1..]
    else
      assert s == [s[0]] + s[1..];
      [s[0]] + RemoveFirst(s[1..], x)
  }

  /**
   * Whether an offered upgrade leaves the working list: it cannot stack, or
   * the ledger already holds at least maxStacks - 1 of its type.
   */
  predicate LeavesOffer(u: UpgradeData, applied: map<UpgradeType, int>)
  {
    !u.canStack || StacksIn(applied, u.upgradeType) >= u.maxStacks - 1
  }

  /** The entry of a non-empty working list that a draw selects. */
  function Picked(working: seq<UpgradeData>, draw: real): (u: UpgradeData)
    requires working != []
    ensures u in working
  {
    working[PickIndex(working, draw)]
  }

  /** The working list after a pick: one copy of the pick removed when it LeavesOffer, else unchanged. */
  function AfterPick(working: seq<UpgradeData>, pick: UpgradeData, applied: map<UpgradeType, int>): (rest: seq<UpgradeData>)
    requires pick in working
    ensures forall c :: c in rest ==> c in working
    ensures |rest| == |working| - if LeavesOffer(pick, applied) then 1 else 0
  {
    if LeavesOffer(pick, applied) then
      var r := RemoveFirst(working, pick);
      assert forall c :: c in r ==> c in working by {
        forall c | c in r
          ensures c in working
        {
          assert multiset(r)[c] > 0;
        }
      }
      r
    else working
  }

  /** AfterPick drops exactly one copy of a pick that LeavesOffer and nothing else. */
  lemma AfterPickCount(working: seq<UpgradeData>, pick: UpgradeData, applied: map<UpgradeType, int>, u: UpgradeData)
    requires pick in working
    ensures multiset(AfterPick(working, pick, applied))[u]
            == multiset(working)[u] - if LeavesOffer(pick, applied) && pick == u then 1 else 0
  {
  }

  /**
   * The offer drawn from a working list by picks from..n-1, pick j using
   * draws[j]: each pick takes the entry its draw selects, and an entry that
   * LeavesOffer is taken out of the list before the next pick; the offer
   * stops once the picks or the list run out. The result holds only
   * working-list entries, is empty exactly when there is nothing to pick,
   * and stops short of n - from picks only after as many picks as the list
   * had entries.
   */
  function Offer(working: seq<UpgradeData>, draws: seq<real>, from: nat, n: int, applied: map<UpgradeType, int>): (r: seq<UpgradeData>)
    requires n <= |draws|
    ensures forall c :: c in r ==> c in working
    ensures |r| <= MaxInt(n - from, 0)
    ensures r == [] <==> n <= from || working == []
    ensures |r| == MaxInt(n - from, 0) || |r| >= |working|
    decreases MaxInt(n - from, 0)
  {
    if n <= from || working == [] then []
    else
      var pick := Picked(working, draws[from]);
      var rest := AfterPick(working, pick, applied);
      [pick] + Offer(rest, draws, from + 1, n, applied)
  }

  /**
   * One pick of an offer: the entry draw i selects, appended to the choices
   * made so far, followed by the offer from the list left after it, is the
   * same offer.
   */
  lemma OfferStep(choices: seq<UpgradeData>, working: seq<UpgradeData>, draws: seq<real>, i: nat, next: nat, n: int,
                  applied: map<UpgradeType, int>, k: nat, rest: seq<UpgradeData>)
    requires i < n <= |draws| && next == i + 1 && working != []
    requires k == PickIndex(working, draws[i])
    requires rest == AfterPick(working, working[k], applied)
    ensures choices + Offer(working, draws, i, n, applied)
            == (choices + [working[k]]) + Offer(rest, draws, next, n, applied)
  {
    OfferUnfold(working, draws, i, next, n, applied, k);
    var later := Offer(rest, draws, next, n, applied);
    assert choices + ([working[k]] + later) == (choices + [working[k]]) + later;
  }

  /** An offer with a pick left to make begins with the entry draw i selects. */
  lemma OfferUnfold(working: seq<UpgradeData>, draws: seq<real>, i: nat, next: nat, n: int,
                    applied: map<UpgradeType, int>, k: nat)
    requires i < n <= |draws| && next == i + 1 && working != []
    requires k == PickIndex(working, draws[i])
    ensures Offer(working, draws, i, n, applied)
            == [working[k]] + Offer(AfterPick(working, working[k], applied), draws, next, n, applied)
  {
    assert Picked(working, draws[i]) == working[k];
  }

  /**
   * An upgrade that leaves the working list once picked is offered at most as
   * many times as the list holds it: a non-stacking upgrade, or one a stack
   * short of its limit, never appears twice in one offer from a list holding
   * it once.
   */
  lemma {:induction false} OfferedAtMostOnce(working: seq<UpgradeData>, draws: seq<real>, from: nat, n: int,
                                             applied: map<UpgradeType, int>, u: UpgradeData)
    requires n <= |draws|
    requires LeavesOffer(u, applied)
    ensures multiset(Offer(working, draws, from, n, applied))[u] <= multiset(working)[u]
    decreases MaxInt(n - from, 0)
  {
    if from < n && working != [] {
      var pick := Picked(working, draws[from]);
      var rest := AfterPick(working, pick, applied);
      var later := Offer(rest, draws, from + 1, n, applied);
      OfferedAtMostOnce(rest, draws, from + 1, n, applied, u);
      AfterPickCount(working, pick, applied, u);
      assert Offer(working, draws, from, n, applied) == [pick] + later;
      assert multiset([pick] + later)[u] == multiset([pick])[u] + multiset(later)[u];
    }
  }

  /**
   * The effect value of an upgrade at a given stack count: the full value at
   * the first stack, then 1 + (value - 1) * efficiency^(stacks - 1).
   */
  function StackedEffect(effectValue: real, efficiency: real, stacks: int): (v: real)
    ensures stacks <= 1 ==> v == effectValue
  {
    if stacks > 1 then 1.0 + (effectValue - 1.0) * Pow(efficiency, stacks - 1) else effectValue
  }

  /**
   * Diminishing returns: for a boost above 1 with an efficiency in (0, 1),
   * every further stack is worth strictly less than the one before, yet
   * still more than no boost at all.
   */
  lemma {:induction false} StackingDiminishes(effectValue: real, efficiency: real, stacks: nat)
    requires effectValue > 1.0 && 0.0 < efficiency < 1.0 && stacks >= 1
    ensures 1.0 < StackedEffect(effectValue, efficiency, stacks + 1) < StackedEffect(effectValue, efficiency, stacks)
  {
    PowStrictlyDecreasing(efficiency, stacks - 1);
    if stacks == 1 {
      SecondStackWorthLess(effectValue, efficiency);
    } else {
      LaterStackWorthLess(effectValue, efficiency, stacks);
    }
  }

  /** The second stack is worth less than the first. */
  lemma SecondStackWorthLess(effectValue: real, efficiency: real)
    requires effectValue > 1.0 && 0.0 < efficiency < 1.0
    ensures 1.0 < StackedEffect(effectValue, efficiency, 2) < StackedEffect(effectValue, efficiency, 1)
  {
    assert Pow(efficiency, 1) == efficiency * Pow(efficiency, 0);
    ExcessOrder(effectValue, efficiency, 1.0, StackedEffect(effectValue, efficiency, 2), StackedEffect(effectValue, efficiency, 1));
  }

  /** From the second stack on, each stack is worth less than the one before, given the power decreases. */
  lemma LaterStackWorthLess(effectValue: real, efficiency: real, stacks: nat)
    requires effectValue > 1.0 && stacks >= 2
    requires 0.0 < Pow(efficiency, stacks) < Pow(efficiency, stacks - 1)
    ensures 1.0 < StackedEffect(effectValue, efficiency, stacks + 1) < StackedEffect(effectValue, efficiency, stacks)
  {
    var q, p := Pow(efficiency, stacks), Pow(efficiency, stacks - 1);
    var next, current := StackedEffect(effectValue, efficiency, stacks + 1), StackedEffect(effectValue, efficiency, stacks);
    assert next == 1.0 + (effectValue - 1.0) * q;
    assert current == 1.0 + (effectValue - 1.0) * p;
    ExcessOrder(effectValue, q, p, next, current);
  }

  /** A boost above 1 scaled by a smaller positive factor stays above 1 and below the boost scaled by the larger. */
  lemma ExcessOrder(e: real, q: real, p: real, scaledByQ: real, scaledByP: real)
    requires e > 1.0 && 0.0 < q < p
    requires scaledByQ == 1.0 + (e - 1.0) * q && scaledByP == 1.0 + (e - 1.0) * p
    ensures 1.0 < scaledByQ < scaledByP
  {
    MulPositive(e - 1.0, q);
    MulPositive(e - 1.0, p - q);
    assert (e - 1.0) * (p - q) == (e - 1.0) * p - (e - 1.0) * q;
  }

  /** A default upgrade (1.1 at 80% efficiency) is worth 1.1, then 1.08, then 1.064. */
  lemma DefaultStacking()
    ensures StackedEffect(1.1, 0.8, 1) == 1.1
    ensures StackedEffect(1.1, 0.8, 2) == 1.08
    ensures StackedEffect(1.1, 0.8, 3) == 1.064
  {
    assert Pow(0.8, 1) == 0.8 * Pow(0.8, 0);
    assert Pow(0.8, 2) == 0.8 * Pow(0.8, 1);
  }

  /** The multiplier an upgrade type acts on; only the five stat upgrades have one. */
  function StatOf(t: UpgradeType): (k: Option<StatKind>)
    ensures k.Some? <==> IsStatUpgrade(t)
    ensures t == HealthBoost <==> k == Some(Health)
  {
    match t
    case HealthBoost => Some(Health)
    case ArmorBoost => Some(Armor)
    case FirepowerBoost => Some(Firepower)
    case SpeedBoost => Some(Speed)
    case FireRateBoost => Some(FireRate)
    case _ => None
  }

  /** Distinct stat upgrades act on distinct multipliers. */
  lemma StatOfInjective(a: UpgradeType, b: UpgradeType)
    requires StatOf(a).Some? && StatOf(a) == StatOf(b)
    ensures a == b
  {
  }

  class UpgradeManager {
    const availableUpgrades: seq<UpgradeData>
    const upgradesPerLevelUp: int
    /** The stack ledger: how many times each type was applied this session. */
    var appliedUpgrades: map<UpgradeType, int>
    /** Every upgrade applied this session, in order. */
    var sessionUpgrades: seq<UpgradeData>
    var playerController: Player?
    var playerTankStats: TankStats?
    /** Every upgrade announced by OnUpgradeApplied, in order. */
    var appliedLog: seq<UpgradeData>

    /** The ledger counts exactly the session's upgrades of each type, and records only taken types. */
    ghost predicate Valid()
      reads this
    {
      (forall t :: StacksIn(appliedUpgrades, t) == CountOfType(sessionUpgrades, t)) &&
      (forall t :: t in appliedUpgrades ==> appliedUpgrades[t] > 0)
    }

    /** Field initialisers and Awake: an empty ledger, the player found in the scene, no tank stats yet. */
    constructor (availableUpgrades: seq<UpgradeData>, upgradesPerLevelUp: int, playerController: Player?)
      ensures Valid()
      ensures this.availableUpgrades == availableUpgrades && this.upgradesPerLevelUp == upgradesPerLevelUp
      ensures this.playerController == playerController && playerTankStats == null
      ensures appliedUpgrades == map[] && sessionUpgrades == [] && appliedLog == []
    {
      this.availableUpgrades := availableUpgrades;
      this.upgradesPerLevelUp := upgradesPerLevelUp;
      this.playerController := playerController;
      playerTankStats := null;
      appliedUpgrades := map[];
      sessionUpgrades := [];
      appliedLog := [];
    }

    /** The number of stacks of a type taken this session; positive exactly for recorded types. */
    function GetUpgradeStacks(t: UpgradeType): (n: int)
      reads this
      requires Valid()
      ensures n == CountOfType(sessionUpgrades, t)
      ensures n > 0 <==> t in appliedUpgrades
    {
      if t in appliedUpgrades then appliedUpgrades[t] else 0
    }

    /** Collects, in pool order, the upgrades the player may be offered now. */
    method GetEligibleUpgrades(playerLevel: int) returns (eligible: seq<UpgradeData>)
      requires Valid()
      ensures eligible == EligibleUpgrades(availableUpgrades, playerLevel, appliedUpgrades)
    {
      eligible := [];
      var i := 0;
      while i < |availableUpgrades|
        invariant 0 <= i <= |availableUpgrades|
        invariant eligible == EligibleUpgrades(availableUpgrades[..i], playerLevel, appliedUpgrades)
      {
        var upgrade := availableUpgrades[i];
        assert availableUpgrades[..i + 1][..i] == availableUpgrades[..i];
        if upgrade.levelRequirement <= playerLevel &&
           !(!upgrade.canStack && upgrade.upgradeType in appliedUpgrades) &&
           !(upgrade.canStack && GetUpgradeStacks(upgrade.upgradeType) >= upgrade.maxStacks) {
          eligible := eligible + [upgrade];
        }
        i := i + 1;
      }
      assert availableUpgrades[..i] == availableUpgrades;
    }

    /**
     * Draws an offer of up to upgradesPerLevelUp upgrades, one draw per pick.
     * Every choice is eligible; the offer is empty exactly when nothing is
     * eligible (or no picks are configured); it is cut short only once every
     * eligible upgrade has been removed from the working list. Picks within
     * one offer are not counted as stacks, so a stackable upgrade can be
     * offered more than once.
     */
    method GenerateUpgradeChoices(playerLevel: int, draws: seq<real>) returns (choices: seq<UpgradeData>)
      requires Valid()
      requires |draws| >= upgradesPerLevelUp
      ensures var eligible := EligibleUpgrades(availableUpgrades, playerLevel, appliedUpgrades);
              (forall c :: c in choices ==> c in eligible) &&
              |choices| <= MaxInt(upgradesPerLevelUp, 0) &&
              (choices == [] <==> eligible == [] || upgradesPerLevelUp <= 0) &&
              (|choices| == MaxInt(upgradesPerLevelUp, 0) || |choices| >= |eligible|)
      ensures choices == Offer(EligibleUpgrades(availableUpgrades, playerLevel, appliedUpgrades),
                               draws, 0, upgradesPerLevelUp, appliedUpgrades)
    {
      choices := [];
      var eligibleUpgrades := GetEligibleUpgrades(playerLevel);
      ghost var eligible := eligibleUpgrades;
      if |eligibleUpgrades| == 0 {
        return;
      }
      var i := 0;
      while i < upgradesPerLevelUp && |eligibleUpgrades| > 0
        invariant 0 <= i <= MaxInt(upgradesPerLevelUp, 0)
        invariant choices + Offer(eligibleUpgrades, draws, i, upgradesPerLevelUp, appliedUpgrades)
                  == Offer(eligible, draws, 0, upgradesPerLevelUp, appliedUpgrades)
        decreases upgradesPerLevelUp - i
      {
        var k := SelectWeightedRandomUpgrade(eligibleUpgrades, draws[i]);
        var selectedUpgrade := eligibleUpgrades[k];
        ghost var working := eligibleUpgrades;
        ghost var before := choices;
        choices := choices + [selectedUpgrade];
        if !selectedUpgrade.canStack || GetUpgradeStacks(selectedUpgrade.upgradeType) >= selectedUpgrade.maxStacks - 1 {
          eligibleUpgrades := RemoveFirst(eligibleUpgrades, selectedUpgrade);
        }
        assert eligibleUpgrades == AfterPick(working, selectedUpgrade, appliedUpgrades);
        ghost var previous := i;
        i := i + 1;
        OfferStep(before, working, draws, previous, i, upgradesPerLevelUp, appliedUpgrades, k, eligibleUpgrades);
      }
    }

    /**
     * ApplyUpgradeEffect: with tank stats present, multiplies the matching
     * multiplier by the stacked effect value for the current stack count
     * (other types change nothing); a health boost then heals the player by
     * newMax * fraction - newMax * fraction, which is 0, so health is only
     * clamped to the new maximum. Without tank stats nothing changes.
     */
    method ApplyUpgradeEffect(upgrade: UpgradeData)
      requires Valid()
      requires upgrade.upgradeType == HealthBoost && playerTankStats != null && playerController != null ==>
                 playerController.tankStats != null
      modifies playerTankStats, playerController
      ensures playerTankStats == null && playerController != null ==> unchanged(playerController)
      ensures playerTankStats != null && StatOf(upgrade.upgradeType).Some? ==>
                var k := StatOf(upgrade.upgradeType).value;
                playerTankStats.Multiplier(k) ==
                  old(playerTankStats.Multiplier(k)) *
                  StackedEffect(upgrade.effectValue, upgrade.stackingEfficiency, GetUpgradeStacks(upgrade.upgradeType)) &&
                (forall j :: j != k ==> playerTankStats.Multiplier(j) == old(playerTankStats.Multiplier(j))) &&
                (forall j :: playerTankStats.Base(j) == old(playerTankStats.Base(j)))
      ensures playerTankStats != null && StatOf(upgrade.upgradeType).None? ==> unchanged(playerTankStats)
      ensures (upgrade.upgradeType != HealthBoost || playerTankStats == null) && playerController != null ==>
                unchanged(playerController)
      ensures upgrade.upgradeType == HealthBoost && playerTankStats != null && playerController != null ==>
                playerController.tankStats == old(playerController.tankStats) &&
                playerController.currentHealth == Min(old(playerController.currentHealth), playerController.MaxHealth()) &&
                playerController.healthReports ==
                  old(playerController.healthReports) + [(playerController.currentHealth, playerController.MaxHealth())] &&
                playerController.deathSignals == old(playerController.deathSignals)
    {
      if playerTankStats == null {
        return;
      }
      var stacks := GetUpgradeStacks(upgrade.upgradeType);
      var effectValue := upgrade.effectValue;
      if stacks > 1 {
        effectValue := 1.0 + (upgrade.effectValue - 1.0) * Pow(upgrade.stackingEfficiency, stacks - 1);
      }
      match StatOf(upgrade.upgradeType) {
        case Some(k) => playerTankStats.ScaleMultiplier(k, effectValue);
        case None =>
      }
      if upgrade.upgradeType == HealthBoost && playerController != null {
        playerController.Heal(0.0);
      }
    }

    /** One more stack of the upgrade's type in the ledger, and the upgrade appended to the session list. */
    method RecordUpgrade(u: UpgradeData)
      requires Valid()
      modifies this`appliedUpgrades, this`sessionUpgrades
      ensures Valid()
      ensures appliedUpgrades == old(appliedUpgrades)[u.upgradeType := old(GetUpgradeStacks(u.upgradeType)) + 1]
      ensures sessionUpgrades == old(sessionUpgrades) + [u]
      ensures GetUpgradeStacks(u.upgradeType) == old(GetUpgradeStacks(u.upgradeType)) + 1
      ensures forall s :: s != u.upgradeType ==> GetUpgradeStacks(s) == old(GetUpgradeStacks(s))
    {
      var t := u.upgradeType;
      if t !in appliedUpgrades {
        appliedUpgrades := appliedUpgrades[t := 0];
      }
      appliedUpgrades := appliedUpgrades[t := appliedUpgrades[t] + 1];
      ghost var before := sessionUpgrades;
      sessionUpgrades := sessionUpgrades + [u];
      assert sessionUpgrades[..|sessionUpgrades| - 1] == before;
      assert forall s :: CountOfType(sessionUpgrades, s) == CountOfType(before, s) + if s == t then 1 else 0;
    }

    /**
     * Records one more stack of the upgrade's type, appends it to the session
     * list, applies its effect (the bookkeeping happens even when the tank
     * stats are missing) and announces it. A null upgrade changes nothing.
     */
    method ApplyUpgrade(upgrade: Option<UpgradeData>)
      requires Valid()
      requires (upgrade.Some? && upgrade.value.upgradeType == HealthBoost && playerTankStats != null &&
                playerController != null) ==> playerController.tankStats != null
      modifies this`appliedUpgrades, this`sessionUpgrades, this`appliedLog, playerTankStats, playerController
      ensures Valid()
      ensures upgrade.None? ==>
                appliedUpgrades == old(appliedUpgrades) && sessionUpgrades == old(sessionUpgrades) &&
                appliedLog == old(appliedLog) &&
                (playerTankStats != null ==> unchanged(playerTankStats)) &&
                (playerController != null ==> unchanged(playerController))
      ensures upgrade.Some? ==>
                var t := upgrade.value.upgradeType;
                appliedUpgrades == old(appliedUpgrades)[t := old(GetUpgradeStacks(t)) + 1] &&
                sessionUpgrades == old(sessionUpgrades) + [upgrade.value] &&
                appliedLog == old(appliedLog) + [upgrade.value] &&
                GetUpgradeStacks(t) == old(GetUpgradeStacks(t)) + 1 &&
                (forall s :: s != t ==> GetUpgradeStacks(s) == old(GetUpgradeStacks(s)))
      ensures upgrade.Some? && playerTankStats != null && StatOf(upgrade.value.upgradeType).Some? ==>
                var u := upgrade.value;
                var k := StatOf(u.upgradeType).value;
                playerTankStats.Multiplier(k) ==
                  old(playerTankStats.Multiplier(k)) * StackedEffect(u.effectValue, u.stackingEfficiency, GetUpgradeStacks(u.upgradeType)) &&
                (forall j :: j != k ==> playerTankStats.Multiplier(j) == old(playerTankStats.Multiplier(j))) &&
                (forall j :: playerTankStats.Base(j) == old(playerTankStats.Base(j)))
      ensures upgrade.Some? && playerTankStats != null && StatOf(upgrade.value.upgradeType).None? ==>
                unchanged(playerTankStats)
      ensures upgrade.Some? && (upgrade.value.upgradeType != HealthBoost || playerTankStats == null) && playerController != null ==>
                unchanged(playerController)
      ensures upgrade.Some? && upgrade.value.upgradeType == HealthBoost && playerTankStats != null && playerController != null ==>
                playerController.tankStats == old(playerController.tankStats) &&
                playerController.currentHealth == Min(old(playerController.currentHealth), playerController.MaxHealth()) &&
                playerController.healthReports ==
                  old(playerController.healthReports) + [(playerController.currentHealth, playerController.MaxHealth())] &&
                playerController.deathSignals == old(playerController.deathSignals)
    {
      if upgrade.None? {
        return;
      }
      var u := upgrade.value;
      RecordUpgrade(u);
      ApplyUpgradeEffect(u);
      appliedLog := appliedLog + [u];
    }

    /** Empties the ledger and the session list and resets the tank's multipliers when it has stats. */
    method ResetSessionUpgrades()
      modifies this`appliedUpgrades, this`sessionUpgrades, playerTankStats
      ensures Valid()
      ensures appliedUpgrades == map[] && sessionUpgrades == []
      ensures forall t :: GetUpgradeStacks(t) == 0
      ensures playerTankStats != null ==>
                (forall k :: playerTankStats.Multiplier(k) == 1.0) &&
                (forall k :: playerTankStats.Base(k) == old(playerTankStats.Base(k)))
    {
      appliedUpgrades := map[];
      sessionUpgrades := [];
      if playerTankStats != null {
        playerTankStats.ResetMultipliers();
      }
    }

    method SetPlayerTankStats(tankStats: TankStats?)
      modifies this`playerTankStats
      ensures playerTankStats == tankStats
    {
      playerTankStats := tankStats;
    }
  }
}
