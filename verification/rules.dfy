/** Combat rules of one combatant, stated on values.

    The classes in module Characters update these values in place; every rule
    they apply is defined here once: the randomized damage formula, damage
    application, the liveness test, the special attack, experience and
    levelling up, and the copy of a monster from its template.

    Math.random() is not modelled: each draw it would return is a parameter
    `u` (or `pick`) with 0 <= u < 1. Health and damage are exact `real`s;
    IEEE rounding is not modelled. */
module Rules {

  /** Minimum mana a special attack needs, and what it costs. */
  const SpecialCost: int := 10
  /** Experience needed per level: a level-up is due once experience >= level * 50. */
  const ExperiencePerLevel: int := 50
  /** What one level-up adds to health, to base damage and to special damage. */
  const LevelUpHealth: real := 20.0
  const LevelUpDamage: real := 5.0
  const LevelUpSpecial: real := 5.0

  /** The state of a Character (and so of a Monster, which adds nothing to it). */
  datatype Fighter = Fighter(name: string, health: real, damage: real, experience: int)

  /** The state of a Player: its Character part plus the player-only fields. */
  datatype Hero = Hero(body: Fighter, mana: int, specialDamage: real, level: int)

  /** An entry of the monster table, from which monsters are copied. */
  datatype Template = Template(name: string, health: real, damage: real, experience: int)

  /** A new Player: the given stats, level 1 and no experience. */
  function NewHero(name: string, health: real, damage: real, mana: int, specialDamage: real): (h: Hero)
    ensures h.level == 1 && h.body.experience == 0
    ensures h.body.name == name && h.body.health == health && h.body.damage == damage
    ensures h.mana == mana && h.specialDamage == specialDamage
  {
    Hero(Fighter(name, health, damage, 0), mana, specialDamage, 1)
  }

  /** The damage multiplier law shared by attack and special attack: the base
      amount times 0.8 + 0.4u, for a draw u in [0, 1). */
  function Scaled(base: real, u: real): (r: real)
    requires 0.0 <= u < 1.0
    ensures base >= 0.0 ==> 0.8 * base <= r <= 1.2 * base
    ensures base > 0.0 ==> r < 1.2 * base
    ensures base == 0.0 ==> r == 0.0
  {
    assert base >= 0.0 ==> 0.0 <= base * u;
    assert base > 0.0 ==> base * u < base;
    base * (0.8 + u * 0.4)
  }

  /** A fighter is alive only while its health is strictly positive. */
  predicate IsAlive(f: Fighter)
    ensures f.health > 0.0 ==> IsAlive(f)
    ensures f.health <= 0.0 ==> !IsAlive(f)
  {
    f.health > 0.0
  }

  /** Character.attack: the randomized damage of a basic attack. */
  function Attack(f: Fighter, u: real): (r: real)
    requires 0.0 <= u < 1.0
    ensures f.damage >= 0.0 ==> 0.8 * f.damage <= r <= 1.2 * f.damage
    ensures f.damage > 0.0 ==> r < 1.2 * f.damage
  {
    Scaled(f.damage, u)
  }

  /** Character.takeDamage: plain subtraction, never clamped at zero. */
  function TakeDamage(f: Fighter, amount: real): (g: Fighter)
    ensures g.health == f.health - amount
    ensures g == f.(health := g.health)
    ensures IsAlive(g) <==> amount < f.health
    ensures g.health < 0.0 <==> amount > f.health
  {
    f.(health := f.health - amount)
  }

  /** Player.useSpecial: with at least 10 mana, pay 10 and deal randomized
      special damage; otherwise change nothing and deal 0. */
  function UseSpecial(h: Hero, u: real): (res: (Hero, real))
    requires 0.0 <= u < 1.0
    ensures h.mana >= SpecialCost ==> res.0 == h.(mana := h.mana - SpecialCost)
    ensures h.mana >= SpecialCost && h.specialDamage >= 0.0 ==>
              0.8 * h.specialDamage <= res.1 <= 1.2 * h.specialDamage
    ensures h.mana < SpecialCost ==> res.0 == h && res.1 == 0.0
    ensures h.mana >= 0 ==> res.0.mana >= 0
    ensures res.0.mana <= h.mana
  {
    if h.mana >= SpecialCost then
      (h.(mana := h.mana - SpecialCost), Scaled(h.specialDamage, u))
    else
      (h, 0.0)
  }

  /** Player.levelUp. */
  function LevelUp(h: Hero): (g: Hero)
    ensures g.level == h.level + 1
    ensures g.body.health == h.body.health + LevelUpHealth
    ensures g.body.damage == h.body.damage + LevelUpDamage
    ensures g.specialDamage == h.specialDamage + LevelUpSpecial
    ensures g.body.name == h.body.name && g.mana == h.mana
    ensures g.body.experience == h.body.experience
  {
    h.(body := h.body.(health := h.body.health + LevelUpHealth,
                       damage := h.body.damage + LevelUpDamage),
       specialDamage := h.specialDamage + LevelUpSpecial,
       level := h.level + 1)
  }

  /** Whether a player holding experience `xp` at level `level` levels up. */
  predicate LevelUpDue(level: int, xp: int) {
    xp >= level * ExperiencePerLevel
  }

  /** Player.gainExperience: add the award, then level up once if the new
      total reaches the threshold of the level held before the award. */
  function GainExperience(h: Hero, xp: int): (g: Hero)
    ensures g.body.experience == h.body.experience + xp
    ensures g.level == h.level + 1 <==> LevelUpDue(h.level, h.body.experience + xp)
    ensures g.level == h.level || g.level == h.level + 1
    ensures g.body.name == h.body.name && g.mana == h.mana
    ensures g.level == h.level ==> g == h.(body := h.body.(experience := g.body.experience))
    ensures g.level == h.level + 1 ==> g == LevelUp(h.(body := h.body.(experience := h.body.experience + xp)))
  {
    var earned := h.(body := h.body.(experience := h.body.experience + xp));
    if LevelUpDue(earned.level, earned.body.experience) then LevelUp(earned) else earned
  }

  /** The index `floor(pick * n)` drawn to choose a monster from a table of n. */
  function MonsterIndex(pick: real, n: int): (i: int)
    requires 0.0 <= pick < 1.0 && n > 0
    ensures 0 <= i < n
  {
    var x := pick * n as real;
    assert x.Floor as real <= x < n as real;
    x.Floor
  }

  /** The Monster built from a template: all four stats copied. */
  function FromTemplate(t: Template): Fighter {
    Fighter(t.name, t.health, t.damage, t.experience)
  }

  /** Game.getRandomMonster: a fresh copy of the template at the drawn index. */
  function Spawn(templates: seq<Template>, pick: real): (m: Fighter)
    requires |templates| > 0 && 0.0 <= pick < 1.0
    ensures exists i :: 0 <= i < |templates| && m == FromTemplate(templates[i])
  {
    var i := MonsterIndex(pick, |templates|);
    FromTemplate(templates[i])
  }
}
