/** The vehicle controller: live speed and health, the four derived stats,
    the modifier-effect map, and the handlers the game engine calls. */
module VehicleSim {
  import opened Mathf
  import opened Motion
  import opened Performance

  class VehicleController {
    // configuration, fixed when the component is created
    const baseMaxSpeed: real
    const baseAcceleration: real
    const baseBrakeForce: real
    const baseHandling: real
    const maxHealth: real

    var currentDeceleration: real
    var currentSpeed: real
    var currentHealth: real
    var isAccelerating: bool
    var isBraking: bool

    // whether Start found an input manager and a module manager
    var hasInputManager: bool
    var hasModuleManager: bool

    var currentMaxSpeed: real
    var currentAcceleration: real
    var currentBrakeForce: real
    var currentHandling: real
    var activeModifierEffects: map<string, real>

    /** The component's `enabled` flag; the engine stops ticking a disabled component. */
    var enabled: bool
    /** How many times `EndRace` has been called on the game manager. */
    var endRaceNotifications: nat

    ghost predicate Valid()
      reads this
    {
      maxHealth > 0.0 && currentHealth >= 0.0 && !(isAccelerating && isBraking)
    }

    function BaseStats(): DerivedStats
    {
      DerivedStats(baseMaxSpeed, baseAcceleration, baseBrakeForce, baseHandling)
    }

    function CurrentStats(): DerivedStats
      reads this
    {
      DerivedStats(currentMaxSpeed, currentAcceleration, currentBrakeForce, currentHandling)
    }

    /** The component as the engine creates it from its configuration,
        before `Start`: every other number is zero. */
    constructor (baseMaxSpeed: real, baseAcceleration: real, baseBrakeForce: real, baseHandling: real,
                 maxHealth: real, deceleration: real)
      requires maxHealth > 0.0
      ensures Valid()
      ensures BaseStats() == DerivedStats(baseMaxSpeed, baseAcceleration, baseBrakeForce, baseHandling)
      ensures this.maxHealth == maxHealth && currentDeceleration == deceleration
      ensures currentSpeed == 0.0 && currentHealth == 0.0 && !isAccelerating && !isBraking
      ensures CurrentStats() == DerivedStats(0.0, 0.0, 0.0, 0.0) && activeModifierEffects == map[]
      ensures !hasInputManager && !hasModuleManager && enabled && endRaceNotifications == 0
    {
      this.baseMaxSpeed := baseMaxSpeed;
      this.baseAcceleration := baseAcceleration;
      this.baseBrakeForce := baseBrakeForce;
      this.baseHandling := baseHandling;
      this.maxHealth := maxHealth;
      currentDeceleration := deceleration;
      currentSpeed, currentHealth := 0.0, 0.0;
      isAccelerating, isBraking := false, false;
      hasInputManager, hasModuleManager := false, false;
      currentMaxSpeed, currentAcceleration, currentBrakeForce, currentHandling := 0.0, 0.0, 0.0, 0.0;
      activeModifierEffects := map[];
      enabled := true;
      endRaceNotifications := 0;
    }

    /** The component with the configuration values the controller declares. */
    constructor Default()
      ensures Valid()
      ensures BaseStats() == DerivedStats(100.0, 20.0, 30.0, 10.0)
      ensures maxHealth == 100.0 && currentDeceleration == 5.0
      ensures currentSpeed == 0.0 && currentHealth == 0.0 && !isAccelerating && !isBraking
      ensures CurrentStats() == DerivedStats(0.0, 0.0, 0.0, 0.0) && activeModifierEffects == map[]
      ensures !hasInputManager && !hasModuleManager && enabled && endRaceNotifications == 0
    {
      baseMaxSpeed, baseAcceleration, baseBrakeForce, baseHandling := 100.0, 20.0, 30.0, 10.0;
      maxHealth := 100.0;
      currentDeceleration := 5.0;
      currentSpeed, currentHealth := 0.0, 0.0;
      isAccelerating, isBraking := false, false;
      hasInputManager, hasModuleManager := false, false;
      currentMaxSpeed, currentAcceleration, currentBrakeForce, currentHandling := 0.0, 0.0, 0.0, 0.0;
      activeModifierEffects := map[];
      enabled := true;
      endRaceNotifications := 0;
    }

    /** Looks up the collaborators (the arguments say whether each was found),
        restores full health, clears the effects and resets the stats. */
    method Start(inputManagerFound: bool, moduleManagerFound: bool)
      requires Valid()
      modifies this`hasInputManager, this`hasModuleManager, this`currentHealth, this`activeModifierEffects
      modifies this`currentMaxSpeed, this`currentAcceleration, this`currentBrakeForce, this`currentHandling
      ensures Valid()
      ensures hasInputManager == inputManagerFound && hasModuleManager == moduleManagerFound
      ensures currentHealth == maxHealth && activeModifierEffects == map[]
      ensures CurrentStats() == BaseStats()
    {
      hasInputManager := inputManagerFound;
      hasModuleManager := moduleManagerFound;
      currentHealth := maxHealth;
      activeModifierEffects := map[];
      ResetStats();
    }

    /** One frame: classify the throttle, move the speed, and emit the turn
        torque and the forward velocity. `turn` and `throttle` are the input
        manager's vector; the sensitivities are its fields. */
    method Update(turn: real, throttle: real, dt: real, accelerationSensitivity: real, turnSensitivity: real)
      returns (output: TickOutput)
      requires Valid()
      modifies this`currentSpeed, this`isAccelerating, this`isBraking
      ensures Valid()
      // a disabled component, or one without input, does nothing
      ensures !(enabled && hasInputManager) ==>
        output == NoCommands &&
        currentSpeed == old(currentSpeed) && isAccelerating == old(isAccelerating) && isBraking == old(isBraking)
      ensures enabled && hasInputManager ==>
        (isAccelerating <==> throttle > 0.0) && (isBraking <==> throttle < 0.0) &&
        currentSpeed == NextSpeed(old(currentSpeed), throttle, currentMaxSpeed,
                                  currentAcceleration * dt * accelerationSensitivity, currentDeceleration * dt) &&
        output == Commands(TurnTorque(turn, currentHandling, dt, turnSensitivity), currentSpeed)
    {
      if !enabled || !hasInputManager {
        return NoCommands;
      }
      isAccelerating := throttle > 0.0;
      isBraking := throttle < 0.0;
      var step := currentAcceleration * dt * accelerationSensitivity;
      if isAccelerating {
        currentSpeed := MoveTowards(currentSpeed, currentMaxSpeed, step);
      } else if isBraking {
        currentSpeed := MoveTowards(currentSpeed, -currentMaxSpeed, step);
      } else {
        ApplyDeceleration(dt);
      }
      var torque := TurnTorque(turn, currentHandling, dt, turnSensitivity);
      output := Commands(torque, currentSpeed);
    }

    /** Let the speed fall toward zero by the deceleration for this frame. */
    method ApplyDeceleration(dt: real)
      modifies this`currentSpeed
      ensures currentSpeed == Coast(old(currentSpeed), currentDeceleration * dt)
    {
      if currentSpeed > 0.0 {
        currentSpeed := MoveTowards(currentSpeed, 0.0, currentDeceleration * dt);
      } else if currentSpeed < 0.0 {
        currentSpeed := MoveTowards(currentSpeed, 0.0, currentDeceleration * dt);
      }
    }

    /** Activate a module by name. `activeModules` holds the names for which
        the module manager's `GetActiveModules` yields a module. */
    method ActivateModule(moduleName: string, activeModules: set<string>)
      modifies this`currentMaxSpeed, this`currentAcceleration, this`currentBrakeForce, this`currentHandling
      ensures !hasModuleManager || moduleName !in activeModules ==> CurrentStats() == old(CurrentStats())
      ensures hasModuleManager && moduleName in activeModules ==>
        CurrentStats() == WithModifiers(BaseStats(), activeModifierEffects)
    {
      if !hasModuleManager {
        return;
      }
      if moduleName in activeModules {
        ApplyModuleEffects();
      }
    }

    function GetCurrentSpeed(): (speed: real)
      reads this
      ensures speed == currentSpeed
    {
      currentSpeed
    }

    /** Take a hit: lower the health (never below zero), rescale the stats
        from the base stats by the health left, and destroy the vehicle when
        no health is left. */
    method ApplyDamage(damage: real, gameManagerFound: bool)
      requires Valid()
      modifies this`currentHealth, this`enabled, this`endRaceNotifications
      modifies this`currentMaxSpeed, this`currentAcceleration, this`currentBrakeForce, this`currentHandling
      ensures Valid()
      ensures currentHealth == DamagedHealth(old(currentHealth), damage)
      ensures damage >= 0.0 ==> currentHealth <= old(currentHealth)
      // derived from the base stats alone: active modifiers are not carried over
      ensures CurrentStats() == Scaled(BaseStats(), currentHealth / maxHealth)
      // every call that leaves no health notifies, with no guard against repeats
      ensures currentHealth == 0.0 ==>
        !enabled && endRaceNotifications == old(endRaceNotifications) + (if gameManagerFound then 1 else 0)
      ensures currentHealth > 0.0 ==>
        enabled == old(enabled) && endRaceNotifications == old(endRaceNotifications)
    {
      currentHealth := Max(0.0, currentHealth - damage);
      var healthPercentage := currentHealth / maxHealth;
      UpdateStatsBasedOnHealth(healthPercentage);
      if currentHealth <= 0.0 {
        HandleVehicleDestruction(gameManagerFound);
      }
    }

    /** Reset the stats to the base stats, then scale each by the factor of
        its category in the active effect map. */
    method ApplyModuleEffects()
      modifies this`currentMaxSpeed, this`currentAcceleration, this`currentBrakeForce, this`currentHandling
      ensures CurrentStats() == WithModifiers(BaseStats(), activeModifierEffects)
    {
      ResetStats();
      var remaining := activeModifierEffects.Keys;
      while remaining != {}
        invariant remaining <= activeModifierEffects.Keys
        invariant CurrentStats() == WithModifiers(BaseStats(), activeModifierEffects - remaining)
        decreases remaining
      {
        var key :| key in remaining;
        var value := activeModifierEffects[key];
        if key == SpeedKey {
          currentMaxSpeed := currentMaxSpeed * value;
        } else if key == AccelerationKey {
          currentAcceleration := currentAcceleration * value;
        } else if key == HandlingKey {
          currentHandling := currentHandling * value;
        } else if key == BrakingKey {
          currentBrakeForce := currentBrakeForce * value;
        }
        remaining := remaining - {key};
      }
      assert activeModifierEffects - {} == activeModifierEffects;
    }

    method UpdateStatsBasedOnHealth(healthPercentage: real)
      modifies this`currentMaxSpeed, this`currentAcceleration, this`currentBrakeForce, this`currentHandling
      ensures CurrentStats() == Scaled(BaseStats(), healthPercentage)
    {
      currentMaxSpeed := baseMaxSpeed * healthPercentage;
      currentAcceleration := baseAcceleration * healthPercentage;
      currentBrakeForce := baseBrakeForce * healthPercentage;
      currentHandling := baseHandling * healthPercentage;
    }

    method ResetStats()
      modifies this`currentMaxSpeed, this`currentAcceleration, this`currentBrakeForce, this`currentHandling
      ensures CurrentStats() == BaseStats()
    {
      currentMaxSpeed := baseMaxSpeed;
      currentAcceleration := baseAcceleration;
      currentBrakeForce := baseBrakeForce;
      currentHandling := baseHandling;
    }

    /** Tell the game manager, if there is one, to end the race, and disable
        the component. */
    method HandleVehicleDestruction(gameManagerFound: bool)
      modifies this`enabled, this`endRaceNotifications
      ensures !enabled
      ensures endRaceNotifications == old(endRaceNotifications) + (if gameManagerFound then 1 else 0)
    {
      if gameManagerFound {
        endRaceNotifications := endRaceNotifications + 1;
      }
      enabled := false;
    }
  }
}
