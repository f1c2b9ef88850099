/** The seed data index.js starts from (two player archetypes
    and three monster templates), and what the rules give on it. */
module Seed {
  import Rules
  import Encounter

  /** Guerrier: 100 health, 15 damage, 30 mana, 25 special damage. */
  function Guerrier(): Rules.Hero {
    Rules.NewHero("Guerrier", 100.0, 15.0, 30, 25.0)
  }

  /** Magicien: 80 health, 10 damage, 50 mana, 35 special damage. */
  function Magicien(): Rules.Hero {
    Rules.NewHero("Magicien", 80.0, 10.0, 50, 35.0)
  }

  function Monsters(): seq<Rules.Template> {
    [ Rules.Template("Gobelin", 30.0, 5.0, 20),
      Rules.Template("Orc", 50.0, 10.0, 30),
      Rules.Template("Dragon", 100.0, 20.0, 50) ]
  }

  /** The game the program starts (Guerrier first) satisfies the session
      invariant whichever monster is drawn, so every lemma about runs from
      an invariant state applies to it. */
  lemma SeedGameInv(pick: real)
    requires 0.0 <= pick < 1.0
    ensures Encounter.Inv(Encounter.Start(Guerrier(), Monsters(), pick))
  {
    Encounter.StartInv("Guerrier", 100.0, 15.0, 30, 25.0, Monsters(), pick);
  }

  /** One award that crosses two thresholds (120 >= 50 and 120 >= 100)
      still levels up only once, and the experience is kept in full. */
  lemma OneLevelPerAward()
    ensures Rules.GainExperience(Guerrier(), 120).level == 2
    ensures Rules.GainExperience(Guerrier(), 120).body.experience == 120
  {
  }

  /** Killing a Gobelin (20 experience) leaves a new Guerrier at level 1;
      a following Dragon (50) brings the total to 70 and level 2. */
  lemma GobelinThenDragon()
    ensures Rules.GainExperience(Guerrier(), 20).level == 1
    ensures Rules.GainExperience(Rules.GainExperience(Guerrier(), 20), 50).level == 2
    ensures Rules.GainExperience(Rules.GainExperience(Guerrier(), 20), 50).body.health == 120.0
  {
  }

  /** A Magicien out of mana deals 0 with a special and keeps its state;
      with exactly 10 mana left the special empties it. */
  lemma MagicienSpecialGate(u: real)
    requires 0.0 <= u < 1.0
    ensures Rules.UseSpecial(Magicien().(mana := 0), u) == (Magicien().(mana := 0), 0.0)
    ensures Rules.UseSpecial(Magicien().(mana := 10), u).0.mana == 0
  {
  }
}
