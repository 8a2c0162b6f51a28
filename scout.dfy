/** The Scout tier: the fast, light starter ship. */
module Scout {
  import opened Ships

  /**
   * Sets the Scout baseline: 100 shield (starting full), speed 80 and one
   * weapon slot. Progression and upgrades are left as they were.
   */
  method InitializeStats(ship: ShipBase)
    modifies ship`tier, ship`maxShield, ship`currentShield, ship`maxSpeed, ship`weaponSlots
    ensures ship.tier == ShipTier.Scout
    ensures ship.maxShield == 100.0 && ship.currentShield == ship.maxShield
    ensures ship.maxSpeed == 80.0 && ship.weaponSlots == 1
    ensures ship.maxShield > 0.0 && ship.maxSpeed > 0.0
  {
    ship.tier := ShipTier.Scout;
    ship.maxShield := 100.0;
    ship.currentShield := ship.maxShield;
    ship.maxSpeed := 80.0;
    ship.weaponSlots := 1;
  }

  /** The Scout's rigidbody mass: light, but a valid (positive) mass. */
  function GetShipMass(): (m: real)
    ensures m == 0.8
    ensures 0.0 < m < 1.0
  {
    0.8
  }
}
