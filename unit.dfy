/** The kinds of unit a barrack can produce, with their price. */
module UnitTypes {
  import opened Primitives

  datatype UnitType = Classic

  const CLASSIC_UNIT_COST: Int16 := 20

  /** What a unit of this type costs, in coins. */
  function GetCost(t: UnitType): (cost: Int16)
    ensures 0 < cost
    ensures t == Classic ==> cost == CLASSIC_UNIT_COST
  {
    match t
    case Classic => CLASSIC_UNIT_COST
  }

  /** `Display for UnitType`. */
  function TypeName(t: UnitType): string
  {
    match t
    case Classic => "Classic"
  }

  lemma ClassicCostsTwenty()
    ensures GetCost(Classic) == 20
  {
  }
}

/** A unit: an identifier, four (current, max) stat pairs and its skills. */
module Units {
  import opened Primitives
  import opened Wrappers
  import opened Exceptions
  import opened Skills

  function Min(a: int, b: int): int { if a <= b then a else b }

  /**
   * Adds `delta` to a stat and caps the sum at `maxAttribute`. The addition is
   * checked at 16 bits: `None` when it overflows. There is no floor.
   */
  function UpdateUnderMax(attribute: Int16, maxAttribute: Int16, delta: Int16): (r: Option<Int16>)
    ensures r.Some? <==> IsInt16(attribute + delta)
    ensures r.Some? ==> r.value == Min(attribute + delta, maxAttribute)
    ensures r.Some? ==> r.value <= maxAttribute
  {
    var res := attribute + delta;
    if IsInt16(res) then
      Some(if res >= maxAttribute then maxAttribute else res)
    else
      None
  }

  /** A successful heal never lifts a stat above its max, whatever it was before. */
  lemma UpdateNeverExceedsMax(attribute: Int16, maxAttribute: Int16, delta: Int16)
    requires UpdateUnderMax(attribute, maxAttribute, delta).Some?
    ensures UpdateUnderMax(attribute, maxAttribute, delta).value <= maxAttribute
  {
  }

  /** Damage is not floored: a stat can be driven below zero. */
  lemma UpdateHasNoFloor()
    ensures UpdateUnderMax(0, 10, -5) == Some(-5)
    ensures UpdateUnderMax(I16_MIN + 1, 10, -1) == Some(I16_MIN)
  {
  }

  /** On a 16-bit overflow the update is refused, in both directions. */
  lemma UpdateRefusesOverflow()
    ensures UpdateUnderMax(I16_MAX, I16_MAX, 1) == None
    ensures UpdateUnderMax(I16_MIN, 10, -1) == None
  {
  }

  /** The stats of a unit, one field per resource. */
  datatype Stats = Stats(health: Int16, mana: Int16, armor: Int16, range: Int16)

  class Unit {
    const identifier: Identifier
    const maxHealth: Int16
    const maxMana: Int16
    const maxArmor: Int16
    const maxRange: Int16

    var health: Int16
    var mana: Int16
    var armor: Int16
    var range: Int16
    const skills: seq<Skill>

    function MaxStats(): Stats { Stats(maxHealth, maxMana, maxArmor, maxRange) }

    function CurrentStats(): Stats reads this { Stats(health, mana, armor, range) }

    /** `Unit::from`: every current stat starts at its max. */
    constructor From(identifier: Identifier, maxHealth: Int16, maxMana: Int16,
                     maxArmor: Int16, maxRange: Int16, skills: seq<Skill>)
      ensures this.identifier == identifier && this.skills == skills
      ensures MaxStats() == Stats(maxHealth, maxMana, maxArmor, maxRange)
      ensures CurrentStats() == MaxStats()
    {
      this.identifier := identifier;
      this.maxHealth := maxHealth;
      this.maxMana := maxMana;
      this.maxArmor := maxArmor;
      this.maxRange := maxRange;
      this.health := maxHealth;
      this.mana := maxMana;
      this.armor := maxArmor;
      this.range := maxRange;
      this.skills := skills;
    }

    /** `HasIdentifier::is`. */
    predicate Is(id: Identifier)
    {
      identifier == id
    }

    function GetIdentifier(): Identifier { identifier }

    method UpdateHealth(delta: Int16) returns (r: Result<(), RtsException>)
      modifies this`health
      ensures r.Ok? <==> UpdateUnderMax(old(health), maxHealth, delta).Some?
      ensures r.Ok? ==> health == UpdateUnderMax(old(health), maxHealth, delta).value
      ensures r.Err? ==> health == old(health) && r.error == GeneralException("Failed to update health")
      ensures mana == old(mana) && armor == old(armor) && range == old(range)
    {
      var res := UpdateUnderMax(health, maxHealth, delta);
      if res.Some? {
        health := res.value;
        r := Ok(());
      } else {
        r := Err(GeneralException("Failed to update health"));
      }
    }

    method UpdateMana(delta: Int16) returns (r: Result<(), RtsException>)
      modifies this`mana
      ensures r.Ok? <==> UpdateUnderMax(old(mana), maxMana, delta).Some?
      ensures r.Ok? ==> mana == UpdateUnderMax(old(mana), maxMana, delta).value
      ensures r.Err? ==> mana == old(mana) && r.error == GeneralException("Failed to update mana")
      ensures health == old(health) && armor == old(armor) && range == old(range)
    {
      var res := UpdateUnderMax(mana, maxMana, delta);
      if res.Some? {
        mana := res.value;
        r := Ok(());
      } else {
        r := Err(GeneralException("Failed to update mana"));
      }
    }

    method UpdateArmor(delta: Int16) returns (r: Result<(), RtsException>)
      modifies this`armor
      ensures r.Ok? <==> UpdateUnderMax(old(armor), maxArmor, delta).Some?
      ensures r.Ok? ==> armor == UpdateUnderMax(old(armor), maxArmor, delta).value
      ensures r.Err? ==> armor == old(armor) && r.error == GeneralException("Failed to update armor")
      ensures health == old(health) && mana == old(mana) && range == old(range)
    {
      var res := UpdateUnderMax(armor, maxArmor, delta);
      if res.Some? {
        armor := res.value;
        r := Ok(());
      } else {
        r := Err(GeneralException("Failed to update armor"));
      }
    }

    method UpdateRange(delta: Int16) returns (r: Result<(), RtsException>)
      modifies this`range
      ensures r.Ok? <==> UpdateUnderMax(old(range), maxRange, delta).Some?
      ensures r.Ok? ==> range == UpdateUnderMax(old(range), maxRange, delta).value
      ensures r.Err? ==> range == old(range) && r.error == GeneralException("Failed to update range")
      ensures health == old(health) && mana == old(mana) && armor == old(armor)
    {
      var res := UpdateUnderMax(range, maxRange, delta);
      if res.Some? {
        range := res.value;
        r := Ok(());
      } else {
        r := Err(GeneralException("Failed to update range"));
      }
    }
  }

  /** The `should_lost_health` test: max health 10, damage 2, health 8. */
  method ShouldLostHealth() returns (health: int)
    ensures health == 8
  {
    var unit := new Unit.From(1, 10, 0, 0, 0, []);
    var r := unit.UpdateHealth(-2);
    assert r.Ok?;
    health := unit.health;
  }

  /** The `should_heal` test: damage 3, heal 2, health 9. */
  method ShouldHeal() returns (health: int)
    ensures health == 9
  {
    var unit := new Unit.From(1, 10, 0, 0, 0, []);
    var r := unit.UpdateHealth(-3);
    r := unit.UpdateHealth(2);
    assert r.Ok?;
    health := unit.health;
  }

  /** The `should_restore_mana` test, on the mana stat: damage 3, heal 2, mana 9. */
  method ShouldRestoreMana() returns (mana: int)
    ensures mana == 9
  {
    var unit := new Unit.From(1, 0, 10, 0, 0, []);
    var r := unit.UpdateMana(-3);
    r := unit.UpdateMana(2);
    mana := unit.mana;
  }
}
