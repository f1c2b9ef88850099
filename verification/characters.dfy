/** The combatant classes, whose methods update their fields in place.

    Player extends Character in index.js; here a Player owns its
    Character part as `base`, and every inherited operation (attack,
    takeDamage, isAlive) is the Character's, applied to `base`. A Monster adds
    nothing to a Character, so it is the same class. Each method is proved to
    move its object's value (View) by the matching rule of module Rules. */
module Characters {
  import Rules

  class Character {
    var name: string
    var health: real
    var damage: real
    var experience: int

    /** The object's state as a value. */
    function View(): Rules.Fighter
      reads this
    {
      Rules.Fighter(name, health, damage, experience)
    }

    constructor (name: string, health: real, damage: real, experience: int := 0)
      ensures View() == Rules.Fighter(name, health, damage, experience)
    {
      this.name := name;
      this.health := health;
      this.damage := damage;
      this.experience := experience;
    }

    /** attack(): the damage of one basic attack, for the damage draw u;
        nothing changes. */
    function Attack(u: real): (r: real)
      reads this
      requires 0.0 <= u < 1.0
      ensures damage >= 0.0 ==> 0.8 * damage <= r <= 1.2 * damage
      ensures damage > 0.0 ==> r < 1.2 * damage
    {
      Rules.Attack(View(), u)
    }

    /** takeDamage(amount): only the health changes. */
    method TakeDamage(amount: real)
      modifies this`health
      ensures View() == Rules.TakeDamage(old(View()), amount)
    {
      health := health - amount;
    }

    /** isAlive(): true exactly while health is strictly positive. */
    predicate IsAlive()
      reads this
      ensures IsAlive() <==> health > 0.0
    {
      Rules.IsAlive(View())
    }
  }

  /** A monster is a character built with an experience reward. */
  type Monster = Character

  class Player {
    /** The inherited Character fields: name, health, damage, experience. */
    const base: Character
    var mana: int
    var specialDamage: real
    var level: int

    function View(): Rules.Hero
      reads this, base
    {
      Rules.Hero(base.View(), mana, specialDamage, level)
    }

    constructor (name: string, health: real, damage: real, mana: int, specialDamage: real)
      ensures fresh(base)
      ensures View() == Rules.NewHero(name, health, damage, mana, specialDamage)
    {
      base := new Character(name, health, damage);
      this.mana := mana;
      this.specialDamage := specialDamage;
      level := 1;
      new;
      base.experience := 0;
    }

    /** useSpecial(): only the mana may change; returns the damage dealt. */
    method UseSpecial(u: real) returns (r: real)
      requires 0.0 <= u < 1.0
      modifies this`mana
      ensures (View(), r) == Rules.UseSpecial(old(View()), u)
    {
      if mana >= Rules.SpecialCost {
        mana := mana - Rules.SpecialCost;
        r := Rules.Scaled(specialDamage, u);
      } else {
        r := 0.0;
      }
    }

    method GainExperience(xp: int)
      modifies base`experience, base`health, base`damage, this`level, this`specialDamage
      ensures View() == Rules.GainExperience(old(View()), xp)
    {
      base.experience := base.experience + xp;
      if Rules.LevelUpDue(level, base.experience) {
        LevelUp();
      }
    }

    method LevelUp()
      modifies base`health, base`damage, this`level, this`specialDamage
      ensures View() == Rules.LevelUp(old(View()))
    {
      level := level + 1;
      base.health := base.health + Rules.LevelUpHealth;
      base.damage := base.damage + Rules.LevelUpDamage;
      specialDamage := specialDamage + Rules.LevelUpSpecial;
    }
  }
}
