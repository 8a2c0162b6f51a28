/**
 * The ship's stats, progression and upgrade slots (ShipBase): experience
 * raises the level along a fixed table, the level gates NFT minting, and each
 * upgrade category holds three slots.
 */
module Ships {
  import opened Wrappers

  datatype ShipTier = Scout | Fighter | Destroyer

  /** The highest level a ship can reach. */
  const MaxLevel := 10

  /** Experience needed for each level step. */
  const ExpPerLevel := 1000

  /** Slots per upgrade category. */
  const SlotsPerCategory := 3

  /**
   * An installed upgrade. Its own bonus rule (`UpgradeConfig.GetBonus`) is
   * outside the ship, so the model carries the value that rule yields.
   */
  datatype UpgradeConfig = UpgradeConfig(bonus: real)

  /** One upgrade slot: possibly an installed upgrade, and the slot's tier. */
  datatype UpgradeSlot = UpgradeSlot(upgrade: Option<UpgradeConfig>, tier: int) {
    /** The bonus the slot contributes: nothing when empty, else the upgrade's own. */
    function GetBonus(): (r: real)
      ensures upgrade.None? ==> r == 0.0
      ensures upgrade.Some? ==> r == upgrade.value.bonus
    {
      match upgrade
      case Some(u) => u.bonus
      case None => 0.0
    }
  }

  const EmptySlot := UpgradeSlot(None, 0)

  /**
   * The level a given amount of experience is worth: one level per thousand
   * points, starting at 1 and capped at 10.
   */
  function CalculateLevel(exp: int): (l: int)
    ensures l <= MaxLevel
    ensures exp >= 0 ==> 1 <= l
    ensures l == MaxLevel <==> exp >= (MaxLevel - 1) * ExpPerLevel
    ensures l < MaxLevel ==> (l - 1) * ExpPerLevel <= exp < l * ExpPerLevel
  {
    if exp / ExpPerLevel + 1 < MaxLevel then exp / ExpPerLevel + 1 else MaxLevel
  }

  /** More experience never means a lower level. */
  lemma CalculateLevelMonotone(a: int, b: int)
    requires a <= b
    ensures CalculateLevel(a) <= CalculateLevel(b)
  {
  }

  lemma CalculateLevelExamples()
    ensures CalculateLevel(0) == 1 && CalculateLevel(999) == 1
    ensures CalculateLevel(1000) == 2 && CalculateLevel(9000) == 10
    ensures CalculateLevel(50000) == 10
  {
  }

  /**
   * The level `AddExperience` settles on: the level the new experience is
   * worth, but only when that is a rise and no more than the maximum.
   */
  function LevelAfter(level: int, exp: int): (l: int)
    ensures l >= level
    ensures l == level || (l == CalculateLevel(exp) && l <= MaxLevel)
    ensures level <= MaxLevel ==> l <= MaxLevel
    ensures CalculateLevel(exp) > level ==> l == CalculateLevel(exp)
  {
    var newLevel := CalculateLevel(exp);
    if newLevel > level && newLevel <= MaxLevel then newLevel else level
  }

  /**
   * A level that agrees with the experience keeps agreeing after an award of
   * non-negative experience.
   */
  lemma LevelStaysInSync(level: int, exp: int, amount: int)
    requires level == CalculateLevel(exp)
    requires amount >= 0
    ensures LevelAfter(level, exp + amount) == CalculateLevel(exp + amount)
  {
    CalculateLevelMonotone(exp, exp + amount);
  }

  /** A ship's stats, progression state and upgrade slots. */
  class ShipBase {
    var tier: ShipTier
    var maxShield: real
    var currentShield: real
    var maxSpeed: real
    var weaponSlots: int

    var level: int
    var experience: int
    var isNFT: bool
    var nftMintAddress: Option<string>

    const fuelUpgrades: array<UpgradeSlot>
    const shieldUpgrades: array<UpgradeSlot>
    const weaponUpgrades: array<UpgradeSlot>

    /** The level stays in range and every upgrade category has three slots. */
    ghost predicate Valid()
      reads this
    {
      1 <= level <= MaxLevel &&
      fuelUpgrades.Length == SlotsPerCategory &&
      shieldUpgrades.Length == SlotsPerCategory &&
      weaponUpgrades.Length == SlotsPerCategory
    }

    /**
     * A ship before its tier sets its stats: level 1, no experience, not
     * minted, every upgrade slot empty.
     */
    constructor ()
      ensures Valid()
      ensures level == 1 && experience == 0 && !isNFT && nftMintAddress.None?
      ensures level == CalculateLevel(experience)
      ensures fresh(fuelUpgrades) && fresh(shieldUpgrades) && fresh(weaponUpgrades)
      ensures forall i :: 0 <= i < SlotsPerCategory ==>
        fuelUpgrades[i] == EmptySlot && shieldUpgrades[i] == EmptySlot && weaponUpgrades[i] == EmptySlot
    {
      tier := Scout;
      maxShield := 0.0;
      currentShield := 0.0;
      maxSpeed := 0.0;
      weaponSlots := 0;
      level := 1;
      experience := 0;
      isNFT := false;
      nftMintAddress := None;
      fuelUpgrades := new UpgradeSlot[SlotsPerCategory](_ => EmptySlot);
      shieldUpgrades := new UpgradeSlot[SlotsPerCategory](_ => EmptySlot);
      weaponUpgrades := new UpgradeSlot[SlotsPerCategory](_ => EmptySlot);
    }

    /**
     * Adds experience and raises the level when the new experience is worth
     * more. The level-up notification only logs.
     */
    method AddExperience(amount: int)
      modifies this`experience, this`level
      ensures experience == old(experience) + amount
      ensures level == LevelAfter(old(level), experience)
      ensures level >= old(level)
      ensures old(Valid()) ==> Valid()
      ensures old(level == CalculateLevel(experience)) && amount >= 0 ==>
        level == CalculateLevel(experience)
    {
      ghost var oldExp := experience;
      experience := experience + amount;
      var newLevel := CalculateLevel(experience);
      if newLevel > level && newLevel <= MaxLevel {
        level := newLevel;
      }
      if old(level == CalculateLevel(experience)) && amount >= 0 {
        LevelStaysInSync(old(level), oldExp, amount);
      }
    }

    /** The ship may be minted once it is at the top level and not yet minted. */
    predicate CanMintNFT()
      reads this
      ensures CanMintNFT() ==> !isNFT
      ensures Valid() ==> (CanMintNFT() <==> level == MaxLevel && !isNFT)
    {
      level >= MaxLevel && !isNFT
    }
  }
}
