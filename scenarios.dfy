/** Clients of the vehicle controller that drive it through concrete game
    situations, using only the contracts of its methods. All but one start
    from the configuration values the controller declares (top speed 100,
    acceleration 20, brake force 30, handling 10, health 100, deceleration 5)
    and use one-second frames with unit sensitivities. */
module Scenarios {
  import opened Motion
  import opened Performance
  import opened VehicleSim

  /** Five full-throttle frames reach top speed at 20 per frame; the sixth holds it. */
  method FullThrottle() returns (speeds: seq<real>)
    ensures speeds == [20.0, 40.0, 60.0, 80.0, 100.0, 100.0]
  {
    var v := new VehicleController.Default();
    v.Start(true, false);
    speeds := [];
    var expected := [20.0, 40.0, 60.0, 80.0, 100.0, 100.0];
    for i := 0 to 6
      invariant v.Valid() && v.enabled && v.hasInputManager
      invariant v.CurrentStats() == DerivedStats(100.0, 20.0, 30.0, 10.0) && v.currentDeceleration == 5.0
      invariant speeds == expected[..i]
      invariant v.currentSpeed == if i == 0 then 0.0 else expected[i - 1]
    {
      var out := v.Update(0.0, 1.0, 1.0, 1.0, 1.0);
      speeds := speeds + [v.GetCurrentSpeed()];
    }
  }

  /** A half throttle gives the same step as a full one; letting go then
      coasts down by 5 per frame to exactly zero, where the speed stays. */
  method ThrottleThenCoast() returns (speeds: seq<real>)
    ensures speeds == [20.0, 15.0, 10.0, 5.0, 0.0, 0.0]
  {
    var v := new VehicleController.Default();
    v.Start(true, false);
    var out := v.Update(0.0, 0.5, 1.0, 1.0, 1.0);
    speeds := [v.GetCurrentSpeed()];
    var expected := [20.0, 15.0, 10.0, 5.0, 0.0, 0.0];
    for i := 1 to 6
      invariant v.Valid() && v.enabled && v.hasInputManager
      invariant v.currentDeceleration == 5.0
      invariant speeds == expected[..i]
      invariant v.currentSpeed == expected[i - 1]
    {
      out := v.Update(0.0, 0.0, 1.0, 1.0, 1.0);
      speeds := speeds + [v.GetCurrentSpeed()];
    }
  }

  /** Reverse throttle from rest drives backwards at the acceleration rate,
      not the brake force. */
  method BrakeFromRest() returns (speeds: seq<real>)
    ensures speeds == [-20.0, -40.0]
  {
    var v := new VehicleController.Default();
    v.Start(true, false);
    var out := v.Update(0.0, -1.0, 1.0, 1.0, 1.0);
    speeds := [v.GetCurrentSpeed()];
    out := v.Update(0.0, -1.0, 1.0, 1.0, 1.0);
    speeds := speeds + [v.GetCurrentSpeed()];
  }

  /** A turn input of 0.5 at handling 10 gives a torque of 50 with the
      forward velocity alongside; an input of 0.0005 is inside the dead zone. */
  method Steering() returns (strong: TickOutput, faint: TickOutput)
    ensures strong == Commands(Some(50.0), 0.0)
    ensures faint == Commands(None, 0.0)
  {
    var v := new VehicleController.Default();
    v.Start(true, false);
    strong := v.Update(0.5, 0.0, 1.0, 1.0, 1.0);
    faint := v.Update(0.0005, 0.0, 1.0, 1.0, 1.0);
  }

  /** Without an input manager a frame does nothing. */
  method NoInput() returns (out: TickOutput, speed: real)
    ensures out == NoCommands && speed == 0.0
  {
    var v := new VehicleController.Default();
    v.Start(false, false);
    out := v.Update(0.3, 1.0, 1.0, 1.0, 1.0);
    speed := v.GetCurrentSpeed();
  }

  /** A hit of 30 at full health leaves 70 health and 70% of every base stat. */
  method DamageScalesStats() returns (health: real, stats: DerivedStats)
    ensures health == 70.0
    ensures stats == DerivedStats(70.0, 14.0, 21.0, 7.0)
  {
    var v := new VehicleController.Default();
    v.Start(true, false);
    v.ApplyDamage(30.0, true);
    health := v.currentHealth;
    stats := v.CurrentStats();
  }

  /** A vehicle with 20 health takes a hit of 50 and is destroyed: health 0,
      one `EndRace`, the component disabled and no longer ticking. A further
      hit of 10 notifies `EndRace` a second time, because nothing guards
      against it. */
  method DestructionNotifies() returns (healths: seq<real>, notifications: seq<nat>, afterwards: TickOutput)
    ensures healths == [0.0, 0.0]
    ensures notifications == [1, 2]
    ensures afterwards == NoCommands
  {
    var v := new VehicleController(100.0, 20.0, 30.0, 10.0, 20.0, 5.0);
    v.Start(true, false);
    v.ApplyDamage(50.0, true);
    assert v.currentHealth == 0.0;
    assert v.endRaceNotifications == 1;
    healths, notifications := [v.currentHealth], [v.endRaceNotifications];
    v.ApplyDamage(10.0, true);
    assert v.currentHealth == 0.0;
    assert v.endRaceNotifications == 2;
    healths, notifications := healths + [v.currentHealth], notifications + [v.endRaceNotifications];
    afterwards := v.Update(0.0, 1.0, 1.0, 1.0, 1.0);
  }

  /** At half health, an unknown module changes nothing; a known module
      resets the stats to the undamaged base (the effect map is empty), and
      activating it again gives the same stats. */
  method ModuleActivation() returns (damaged: DerivedStats, afterUnknown: DerivedStats,
                                     afterFirst: DerivedStats, afterSecond: DerivedStats)
    ensures damaged == afterUnknown == DerivedStats(50.0, 10.0, 15.0, 5.0)
    ensures afterFirst == afterSecond == DerivedStats(100.0, 20.0, 30.0, 10.0)
  {
    var v := new VehicleController.Default();
    v.Start(true, true);
    v.ApplyDamage(50.0, true);
    damaged := v.CurrentStats();
    v.ActivateModule("shield", {"nitro"});
    afterUnknown := v.CurrentStats();
    v.ActivateModule("nitro", {"nitro"});
    afterFirst := v.CurrentStats();
    v.ActivateModule("nitro", {"nitro"});
    afterSecond := v.CurrentStats();
  }

  /** Without a module manager, activation changes nothing. */
  method NoModuleManager() returns (before: DerivedStats, after: DerivedStats)
    ensures before == after == DerivedStats(50.0, 10.0, 15.0, 5.0)
  {
    var v := new VehicleController.Default();
    v.Start(true, false);
    v.ApplyDamage(50.0, false);
    before := v.CurrentStats();
    v.ActivateModule("nitro", {"nitro"});
    after := v.CurrentStats();
  }
}
