/** A unit's skill: fixed costs and a mutable cooldown and level. */
module Skills {
  import opened Primitives

  class Skill {
    const manaCost: Int8
    const damage: Int16
    const cooldown: Int32   // milliseconds

    var actualCooldown: Int32   // milliseconds
    var level: Int8

    /** `Skill::from`: the cooldown starts full and the level at 0. */
    constructor From(manaCost: Int8, damage: Int16, cooldown: Int32)
      ensures this.manaCost == manaCost && this.damage == damage && this.cooldown == cooldown
      ensures actualCooldown == cooldown && level == 0
    {
      this.manaCost := manaCost;
      this.damage := damage;
      this.cooldown := cooldown;
      actualCooldown := cooldown;
      level := 0;
    }

    /** `level += 1` on an `i8`: the source panics at 127, so callers must stay below. */
    method UpdateLevel()
      requires level < I8_MAX
      modifies this`level
      ensures level == old(level) + 1
      ensures actualCooldown == old(actualCooldown)
    {
      level := level + 1;
    }

    method UpdateActualCooldown(newCooldown: Int32)
      modifies this`actualCooldown
      ensures actualCooldown == newCooldown
      ensures level == old(level)
    {
      actualCooldown := newCooldown;
    }

    function GetActualCooldown(): Int32 reads this { actualCooldown }
    function GetManaCost(): Int8 { manaCost }
    function GetDamage(): Int16 { damage }
    function GetCooldown(): Int32 { cooldown }
  }

  /** A skill levelled twice and put on a shorter cooldown keeps its costs, damage and base cooldown. */
  method SkillKeepsItsConstants() returns (manaCost: int, damage: int, cooldown: int, actual: int, level: int)
    ensures manaCost == 3 && damage == 7 && cooldown == 1500
    ensures actual == 200 && level == 2
  {
    var skill := new Skill.From(3, 7, 1500);
    skill.UpdateLevel();
    skill.UpdateLevel();
    skill.UpdateActualCooldown(200);
    manaCost, damage, cooldown := skill.GetManaCost(), skill.GetDamage(), skill.GetCooldown();
    actual, level := skill.GetActualCooldown(), skill.level;
  }
}
