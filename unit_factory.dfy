/** Builds units with their type's base stats. */
module UnitFactory {
  import opened Primitives
  import opened UnitTypes
  import opened Units

  /** Max (and starting) stats of each unit type. */
  function BaseStats(t: UnitType): Stats
  {
    match t
    case Classic => Stats(20, 10, 5, 15)
  }

  /** `u` is what `BuildUnit(t, id)` makes: the identifier, full base stats and no skill. */
  ghost predicate IsBaseUnit(u: Unit, t: UnitType, id: Identifier)
    reads u
  {
    && u.identifier == id
    && u.MaxStats() == BaseStats(t)
    && u.CurrentStats() == BaseStats(t)
    && u.skills == []
  }

  /**
   * `UnitFactory::build_unit`. The source has no identifier counter; the
   * identifier is the caller's.
   */
  method BuildUnit(t: UnitType, id: Identifier) returns (u: Unit)
    ensures fresh(u)
    ensures IsBaseUnit(u, t, id)
  {
    var base := BaseStats(t);
    u := new Unit.From(id, base.health, base.mana, base.armor, base.range, []);
  }

  /**
   * A freshly built Classic unit starts full: health 20, mana 10, armor 5 and
   * range 15, each equal to its max.
   */
  method ClassicStartsAtBaseStats() returns (current: Stats, max: Stats)
    ensures current == Stats(20, 10, 5, 15)
    ensures max == Stats(20, 10, 5, 15)
  {
    var u := BuildUnit(Classic, 0);
    current := Stats(u.health, u.mana, u.armor, u.range);
    max := Stats(u.maxHealth, u.maxMana, u.maxArmor, u.maxRange);
  }
}
