/** The vehicle's derived performance stats: how health scales them, how
    module modifier factors scale them, and how damage lowers health. */
module Performance {
  import opened Mathf

  /** The four derived stats, in the order the controller declares them. */
  datatype DerivedStats = DerivedStats(maxSpeed: real, acceleration: real, brakeForce: real, handling: real)

  /** The modifier-effect keys the effect pass recognises; any other key is ignored. */
  const SpeedKey: string := "speed"
  const AccelerationKey: string := "acceleration"
  const HandlingKey: string := "handling"
  const BrakingKey: string := "braking"

  predicate IsCategory(key: string)
  {
    key == SpeedKey || key == AccelerationKey || key == HandlingKey || key == BrakingKey
  }

  predicate NonNegative(s: DerivedStats)
  {
    s.maxSpeed >= 0.0 && s.acceleration >= 0.0 && s.brakeForce >= 0.0 && s.handling >= 0.0
  }

  /** Every stat is its base value times the health percentage
      (`UpdateStatsBasedOnHealth`). */
  function Scaled(base: DerivedStats, healthPercentage: real): DerivedStats
  {
    DerivedStats(base.maxSpeed * healthPercentage, base.acceleration * healthPercentage,
                 base.brakeForce * healthPercentage, base.handling * healthPercentage)
  }

  /** The factor an effect map holds for a key, or 1 when the key is absent. */
  function Factor(effects: map<string, real>, key: string): real
  {
    if key in effects then effects[key] else 1.0
  }

  /** The stats the effect pass leaves: each base stat times the factor of
      its category key (`ApplyModuleEffects`). */
  function WithModifiers(base: DerivedStats, effects: map<string, real>): DerivedStats
  {
    DerivedStats(base.maxSpeed * Factor(effects, SpeedKey), base.acceleration * Factor(effects, AccelerationKey),
                 base.brakeForce * Factor(effects, BrakingKey), base.handling * Factor(effects, HandlingKey))
  }

  /** Health after one hit (`Mathf.Max(0, health - damage)`). */
  function DamagedHealth(health: real, damage: real): (r: real)
    // never below zero
    ensures r >= 0.0
    // a non-negative hit never heals
    ensures damage >= 0.0 && health >= 0.0 ==> r <= health
    // zero exactly when the hit takes at least all remaining health; otherwise reduced by the hit
    ensures r == 0.0 <==> damage >= health
    ensures r > 0.0 ==> r == health - damage
  {
    Max(0.0, health - damage)
  }

  function Sum(ds: seq<real>): real
  {
    if ds == [] then 0.0 else ds[0] + Sum(ds[1..])
  }

  /** Health after a sequence of hits, one `ApplyDamage` each. */
  function HealthAfter(health: real, damages: seq<real>): real
    decreases damages
  {
    if damages == [] then health else HealthAfter(DamagedHealth(health, damages[0]), damages[1..])
  }

  predicate AllNonNegative(ds: seq<real>)
  {
    forall i :: 0 <= i < |ds| ==> ds[i] >= 0.0
  }

  lemma {:induction false} SumNonNegative(ds: seq<real>)
    requires AllNonNegative(ds)
    ensures Sum(ds) >= 0.0
  {
    if ds != [] {
      assert AllNonNegative(ds[1..]) by {
        forall i | 0 <= i < |ds[1..]| ensures ds[1..][i] >= 0.0 {
          assert ds[1..][i] == ds[i + 1];
        }
      }
      SumNonNegative(ds[1..]);
    }
  }

  /** Successive non-negative hits clamp once: the health left is the
      starting health less the total damage, or zero. */
  lemma {:induction false} HealthAfterHits(health: real, damages: seq<real>)
    requires health >= 0.0 && AllNonNegative(damages)
    ensures HealthAfter(health, damages) == Max(0.0, health - Sum(damages))
    decreases damages
  {
    if damages != [] {
      var rest := damages[1..];
      assert AllNonNegative(rest) by {
        forall i | 0 <= i < |rest| ensures rest[i] >= 0.0 {
          assert rest[i] == damages[i + 1];
        }
      }
      SumNonNegative(rest);
      HealthAfterHits(DamagedHealth(health, damages[0]), rest);
    }
  }

  /** Once health is zero, no non-negative hit raises it again. */
  lemma {:induction false} DestroyedStaysAtZero(damages: seq<real>)
    requires AllNonNegative(damages)
    ensures HealthAfter(0.0, damages) == 0.0
  {
    HealthAfterHits(0.0, damages);
    SumNonNegative(damages);
  }

  /** At full health the scaled stats are the base stats. */
  lemma ScaledAtFullHealth(base: DerivedStats)
    ensures Scaled(base, 1.0) == base
  {
  }

  /** With non-negative base stats, a health percentage in [0, 1] gives stats
      between zero and their base value. */
  lemma ScaledWithinBase(base: DerivedStats, healthPercentage: real)
    requires NonNegative(base) && 0.0 <= healthPercentage <= 1.0
    ensures NonNegative(Scaled(base, healthPercentage))
    ensures Scaled(base, healthPercentage).maxSpeed <= base.maxSpeed
    ensures Scaled(base, healthPercentage).acceleration <= base.acceleration
    ensures Scaled(base, healthPercentage).brakeForce <= base.brakeForce
    ensures Scaled(base, healthPercentage).handling <= base.handling
  {
    var scaled := Scaled(base, healthPercentage);
    ScaledStatWithinBase(base.maxSpeed, healthPercentage, scaled.maxSpeed);
    ScaledStatWithinBase(base.acceleration, healthPercentage, scaled.acceleration);
    ScaledStatWithinBase(base.brakeForce, healthPercentage, scaled.brakeForce);
    ScaledStatWithinBase(base.handling, healthPercentage, scaled.handling);
  }

  lemma ScaledStatWithinBase(stat: real, p: real, scaled: real)
    requires stat >= 0.0 && 0.0 <= p <= 1.0 && scaled == stat * p
    ensures 0.0 <= scaled <= stat
  {
    assert stat * p <= stat * 1.0;
  }

  /** The empty effect map leaves the base stats as they are. */
  lemma NoModifiersIsBase(base: DerivedStats)
    ensures WithModifiers(base, map[]) == base
  {
  }

  /** A key outside the four categories changes nothing, whatever its factor. */
  lemma UnknownKeyIgnored(base: DerivedStats, effects: map<string, real>, key: string, factor: real)
    requires !IsCategory(key)
    ensures WithModifiers(base, effects[key := factor]) == WithModifiers(base, effects)
  {
    assert Factor(effects[key := factor], SpeedKey) == Factor(effects, SpeedKey);
    assert Factor(effects[key := factor], AccelerationKey) == Factor(effects, AccelerationKey);
    assert Factor(effects[key := factor], BrakingKey) == Factor(effects, BrakingKey);
    assert Factor(effects[key := factor], HandlingKey) == Factor(effects, HandlingKey);
  }

  /** Only the entries of the four categories matter. */
  lemma OnlyCategoriesMatter(base: DerivedStats, effects: map<string, real>)
    ensures WithModifiers(base, effects) == WithModifiers(base, map k | k in effects && IsCategory(k) :: effects[k])
  {
  }

  /** A factor scales its own category's stat and no other. */
  lemma FactorScalesOneStat(base: DerivedStats, key: string, factor: real)
    requires IsCategory(key)
    ensures key == SpeedKey ==> WithModifiers(base, map[key := factor]) == base.(maxSpeed := base.maxSpeed * factor)
    ensures key == AccelerationKey ==>
      WithModifiers(base, map[key := factor]) == base.(acceleration := base.acceleration * factor)
    ensures key == BrakingKey ==>
      WithModifiers(base, map[key := factor]) == base.(brakeForce := base.brakeForce * factor)
    ensures key == HandlingKey ==> WithModifiers(base, map[key := factor]) == base.(handling := base.handling * factor)
  {
  }
}
