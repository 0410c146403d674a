/**
 * A tank's stat block: base stats plus five upgrade multipliers, one per
 * boostable stat, each effective stat being its base times its multiplier.
 * The multipliers are public fields that the upgrade manager multiplies in
 * place, so this is a class.
 */
module TankStats {
  import opened Numeric

  /** The five stats that carry a multiplier. */
  datatype StatKind = Health | Armor | Firepower | Speed | FireRate

  /** A non-negative value times a factor of at least 1 is no smaller; times a factor in [0, 1] it is no larger. */
  lemma ScaledBounds(b: real, m: real, v: real)
    requires v == b * m
    ensures b >= 0.0 && m >= 1.0 ==> v >= b
    ensures b >= 0.0 && 0.0 <= m <= 1.0 ==> 0.0 <= v <= b
  {
    assert b * 1.0 == b && b * 0.0 == 0.0;
    ScaleNonNegative(b, 1.0, m);
    ScaleNonNegative(b, 0.0, m);
    ScaleNonNegative(b, m, 1.0);
  }

  class TankStats {
    var maxHealth: real
    var armor: real
    var firepower: real
    var movementSpeed: real
    var rotationSpeed: real
    var fireRate: real
    var bulletSpeed: real
    var range: real
    var tankName: string
    var healthMultiplier: real
    var armorMultiplier: real
    var firepowerMultiplier: real
    var speedMultiplier: real
    var fireRateMultiplier: real

    /** A fresh asset: the default base stats and every multiplier at 1. */
    constructor ()
      ensures maxHealth == 100.0 && armor == 0.0 && firepower == 25.0 && movementSpeed == 5.0
      ensures rotationSpeed == 180.0 && fireRate == 1.0 && bulletSpeed == 10.0 && range == 10.0
      ensures tankName == "Tank"
      ensures forall k :: Multiplier(k) == 1.0
      ensures forall k :: Effective(k) == Base(k)
    {
      maxHealth, armor, firepower, movementSpeed, rotationSpeed := 100.0, 0.0, 25.0, 5.0, 180.0;
      fireRate, bulletSpeed, range := 1.0, 10.0, 10.0;
      tankName := "Tank";
      healthMultiplier, armorMultiplier, firepowerMultiplier, speedMultiplier, fireRateMultiplier :=
        1.0, 1.0, 1.0, 1.0, 1.0;
    }

    /** The base stat a multiplier applies to. */
    function Base(k: StatKind): real
      reads this
    {
      match k
      case Health => maxHealth
      case Armor => armor
      case Firepower => firepower
      case Speed => movementSpeed
      case FireRate => fireRate
    }

    function Multiplier(k: StatKind): real
      reads this
    {
      match k
      case Health => healthMultiplier
      case Armor => armorMultiplier
      case Firepower => firepowerMultiplier
      case Speed => speedMultiplier
      case FireRate => fireRateMultiplier
    }

    /**
     * GetEffectiveHealth/Armor/Firepower/MovementSpeed/FireRate: the base
     * stat scaled by its own multiplier; a unit multiplier leaves the base.
     */
    function Effective(k: StatKind): (v: real)
      reads this
      ensures Multiplier(k) == 1.0 ==> v == Base(k)
    {
      Base(k) * Multiplier(k)
    }

    /**
     * A multiplier of at least 1 never lowers a non-negative base stat, and
     * one in [0, 1] never raises it nor makes it negative.
     */
    lemma EffectiveBounds(k: StatKind)
      ensures Base(k) >= 0.0 && Multiplier(k) >= 1.0 ==> Effective(k) >= Base(k)
      ensures Base(k) >= 0.0 && 0.0 <= Multiplier(k) <= 1.0 ==> 0.0 <= Effective(k) <= Base(k)
    {
      ScaledBounds(Base(k), Multiplier(k), Effective(k));
    }

    /**
     * The in-place `multiplier *= factor` an upgrade performs: that one
     * multiplier and its effective stat are scaled; every other multiplier
     * and every base stat, hence every other effective stat, stay as they were.
     */
    method ScaleMultiplier(k: StatKind, factor: real)
      modifies this`healthMultiplier, this`armorMultiplier, this`firepowerMultiplier,
               this`speedMultiplier, this`fireRateMultiplier
      ensures Multiplier(k) == old(Multiplier(k)) * factor
      ensures Effective(k) == old(Effective(k)) * factor
      ensures forall j :: j != k ==> Multiplier(j) == old(Multiplier(j))
      ensures forall j :: Base(j) == old(Base(j))
    {
      ghost var b, m := Base(k), Multiplier(k);
      match k {
        case Health => healthMultiplier := healthMultiplier * factor;
        case Armor => armorMultiplier := armorMultiplier * factor;
        case Firepower => firepowerMultiplier := firepowerMultiplier * factor;
        case Speed => speedMultiplier := speedMultiplier * factor;
        case FireRate => fireRateMultiplier := fireRateMultiplier * factor;
      }
      assert Base(k) == b && Multiplier(k) == m * factor;
      assert b * (m * factor) == (b * m) * factor;
    }

    /**
     * Every multiplier back to 1, so every effective stat equals its base;
     * base stats are untouched, and on stats already reset nothing changes.
     */
    method ResetMultipliers()
      modifies this`healthMultiplier, this`armorMultiplier, this`firepowerMultiplier,
               this`speedMultiplier, this`fireRateMultiplier
      ensures forall k :: Multiplier(k) == 1.0 && Effective(k) == Base(k)
      ensures forall k :: Base(k) == old(Base(k))
      ensures (forall k :: old(Multiplier(k)) == 1.0) ==> unchanged(this)
    {
      assert Multiplier(Health) == healthMultiplier && Multiplier(Armor) == armorMultiplier &&
             Multiplier(Firepower) == firepowerMultiplier && Multiplier(Speed) == speedMultiplier &&
             Multiplier(FireRate) == fireRateMultiplier;
      healthMultiplier, armorMultiplier, firepowerMultiplier, speedMultiplier, fireRateMultiplier :=
        1.0, 1.0, 1.0, 1.0, 1.0;
    }
  }
}
