/** The turn rules of a session (class Game), stated on values.

    A Session is the state a Game holds: the current player, the current
    monster, the monster table, the kill counter and a game-over flag that
    stands for the process exit on the player's death. PlayerTurn and
    MonsterTurn are one turn each; Run is the `start` loop, bounded by the
    random draws the caller supplies for each turn. */
module Encounter {
  import Rules

  /** A player turn fails outright with this probability: the roll is below it. */
  const CriticalFailureChance: real := 0.1

  /** The two actions a player turn accepts ('attack' and 'special'). */
  datatype Action = Attack | Special

  /** The Math.random() draws one player turn may consume, in call order:
      the player's critical-failure roll, the player's damage draw, the
      monster-table draw after a kill, the monster's critical-failure roll
      and the monster's damage draw. A branch ignores the draws it does not
      make. */
  datatype TurnDraws = TurnDraws(roll: real, hit: real, pick: real, monsterRoll: real, monsterHit: real)
  {
    predicate Valid() {
      0.0 <= roll < 1.0 && 0.0 <= hit < 1.0 && 0.0 <= pick < 1.0 &&
      0.0 <= monsterRoll < 1.0 && 0.0 <= monsterHit < 1.0
    }
  }

  datatype Session = Session(hero: Rules.Hero, monster: Rules.Fighter, templates: seq<Rules.Template>,
                             kills: nat, over: bool)

  predicate IsCriticalFailure(roll: real) {
    roll < CriticalFailureChance
  }

  /** Every draw of a list lies in [0, 1). */
  predicate AllValid(draws: seq<TurnDraws>) {
    forall i :: 0 <= i < |draws| ==> draws[i].Valid()
  }

  /** The state of a new Game: the first player against a monster drawn from the table. */
  function Start(hero: Rules.Hero, templates: seq<Rules.Template>, pick: real): (s: Session)
    requires |templates| > 0 && 0.0 <= pick < 1.0
    ensures s.kills == 0 && !s.over && s.hero == hero && s.templates == templates
    ensures exists i :: 0 <= i < |templates| && s.monster == Rules.FromTemplate(templates[i])
  {
    Session(hero, Rules.Spawn(templates, pick), templates, 0, false)
  }

  /** The player's damage for the chosen action, and the player after it
      (a special attack may spend mana). */
  function Strike(h: Rules.Hero, a: Action, u: real): (res: (Rules.Hero, real))
    requires 0.0 <= u < 1.0
    ensures a == Attack ==> res.0 == h
    ensures a == Attack && h.body.damage >= 0.0 ==> 0.8 * h.body.damage <= res.1 <= 1.2 * h.body.damage
    ensures a == Special ==> res == Rules.UseSpecial(h, u)
    ensures res.0 == h.(mana := res.0.mana)
    ensures res.0.mana == h.mana || (a == Special && res.0.mana == h.mana - Rules.SpecialCost)
  {
    match a
    case Attack => (h, Rules.Attack(h.body, u))
    case Special => Rules.UseSpecial(h, u)
  }

  /** Game.monsterTurn: unless the monster fails critically, its attack is
      subtracted from the player's health, and the game ends exactly when
      that leaves the player dead. */
  function MonsterTurn(s: Session, d: TurnDraws): (t: Session)
    requires d.Valid()
    ensures IsCriticalFailure(d.monsterRoll) ==> t == s
    ensures t.monster == s.monster && t.templates == s.templates && t.kills == s.kills
    ensures t.hero.mana == s.hero.mana && t.hero.level == s.hero.level
    ensures t.hero.specialDamage == s.hero.specialDamage
    ensures t.hero.body == s.hero.body.(health := t.hero.body.health)
    ensures !IsCriticalFailure(d.monsterRoll) ==>
              t.hero.body.health == s.hero.body.health - Rules.Attack(s.monster, d.monsterHit)
    ensures !IsCriticalFailure(d.monsterRoll) ==> (t.over <==> s.over || !Rules.IsAlive(t.hero.body))
    ensures s.monster.damage >= 0.0 ==> t.hero.body.health <= s.hero.body.health
  {
    if IsCriticalFailure(d.monsterRoll) then s
    else
      var hero := s.hero.(body := Rules.TakeDamage(s.hero.body, Rules.Attack(s.monster, d.monsterHit)));
      if !Rules.IsAlive(hero.body) then s.(hero := hero, over := true) else s.(hero := hero)
  }

  /** Game.playerTurn. The action's damage is subtracted from the monster;
      a kill awards the monster's experience, counts the kill and draws a
      new monster from the table; otherwise the monster answers. */
  function PlayerTurn(s: Session, a: Action, d: TurnDraws): (t: Session)
    requires !s.over && |s.templates| > 0 && d.Valid()
    ensures IsCriticalFailure(d.roll) ==> t == s
    ensures t.templates == s.templates
    ensures t.kills == s.kills || t.kills == s.kills + 1
    ensures t.kills == s.kills + 1 <==>
              !IsCriticalFailure(d.roll) && !Rules.IsAlive(Rules.TakeDamage(s.monster, Strike(s.hero, a, d.hit).1))
    ensures t.kills == s.kills + 1 ==>
              && t.hero.body.experience == s.hero.body.experience + s.monster.experience
              && t.monster == Rules.Spawn(s.templates, d.pick)
              && !t.over
    ensures t.kills == s.kills + 1 ==>
              t.hero == Rules.GainExperience(Strike(s.hero, a, d.hit).0, s.monster.experience)
    ensures t.over ==> !Rules.IsAlive(t.hero.body)
    ensures t.kills == s.kills && !IsCriticalFailure(d.roll) ==>
              var (hero, damage) := Strike(s.hero, a, d.hit);
              t == MonsterTurn(s.(hero := hero, monster := Rules.TakeDamage(s.monster, damage)), d)
    ensures t.hero.level == s.hero.level || (t.hero.level == s.hero.level + 1 && t.kills == s.kills + 1)
    ensures t.hero.body.experience == s.hero.body.experience || t.kills == s.kills + 1
    ensures s.hero.mana >= 0 ==> t.hero.mana >= 0
  {
    if IsCriticalFailure(d.roll) then s
    else
      var (hero, damage) := Strike(s.hero, a, d.hit);
      var monster := Rules.TakeDamage(s.monster, damage);
      if !Rules.IsAlive(monster) then
        s.(hero := Rules.GainExperience(hero, monster.experience),
           monster := Rules.Spawn(s.templates, d.pick),
           kills := s.kills + 1)
      else
        MonsterTurn(s.(hero := hero, monster := monster), d)
  }

  /** Game.start, bounded: while the player lives (and the game has not
      ended), take an 'attack' turn with the next draws; stop when the
      draws run out. */
  function Run(s: Session, draws: seq<TurnDraws>): (t: Session)
    requires |s.templates| > 0 && AllValid(draws)
    ensures t.templates == s.templates
    ensures s.over || !Rules.IsAlive(s.hero.body) ==> t == s
    ensures t.over ==> s.over || !Rules.IsAlive(t.hero.body)
    decreases |draws|
  {
    if |draws| == 0 || s.over || !Rules.IsAlive(s.hero.body) then s
    else Run(PlayerTurn(s, Attack, draws[0]), draws[1..])
  }

  /** What every reachable session satisfies, given a start with non-negative
      mana and non-negative monster rewards: the player is at level 1 or more
      and has earned at least 50 experience per level gained; mana and
      experience are non-negative; the game is over only with the player dead. */
  predicate Inv(s: Session) {
    && s.hero.level >= 1
    && s.hero.mana >= 0
    && s.hero.body.experience >= (s.hero.level - 1) * Rules.ExperiencePerLevel
    && |s.templates| > 0
    && (forall i :: 0 <= i < |s.templates| ==> s.templates[i].experience >= 0)
    && s.monster.experience >= 0
    && (s.over ==> !Rules.IsAlive(s.hero.body))
  }

  /** A new game satisfies the invariant when its player is new. */
  lemma StartInv(name: string, health: real, damage: real, mana: int, special: real,
                 templates: seq<Rules.Template>, pick: real)
    requires mana >= 0 && |templates| > 0 && 0.0 <= pick < 1.0
    requires forall i :: 0 <= i < |templates| ==> templates[i].experience >= 0
    ensures Inv(Start(Rules.NewHero(name, health, damage, mana, special), templates, pick))
  {
  }

  /** One player turn keeps the invariant. */
  lemma PlayerTurnInv(s: Session, a: Action, d: TurnDraws)
    requires Inv(s) && !s.over && d.Valid()
    ensures Inv(PlayerTurn(s, a, d))
  {
  }

  /** The whole bounded run keeps the invariant. */
  lemma {:induction false} RunInv(s: Session, draws: seq<TurnDraws>)
    requires Inv(s) && AllValid(draws)
    ensures Inv(Run(s, draws))
    decreases |draws|
  {
    if |draws| > 0 && !s.over && Rules.IsAlive(s.hero.body) {
      var t := PlayerTurn(s, Attack, draws[0]);
      PlayerTurnInv(s, Attack, draws[0]);
      assert AllValid(draws[1..]);
      assert Run(s, draws) == Run(t, draws[1..]);
      RunInv(t, draws[1..]);
    }
  }

  /** Over a run: the monster table is untouched; the kill counter never
      decreases and grows by at most one per turn; the level never decreases
      and grows by at most one per kill; the experience changes only when
      something is killed. */
  lemma {:induction false} RunMonotone(s: Session, draws: seq<TurnDraws>)
    requires |s.templates| > 0 && AllValid(draws)
    ensures Run(s, draws).templates == s.templates
    ensures s.kills <= Run(s, draws).kills <= s.kills + |draws|
    ensures s.hero.level <= Run(s, draws).hero.level
    ensures Run(s, draws).hero.level - s.hero.level <= Run(s, draws).kills - s.kills
    ensures Run(s, draws).kills == s.kills ==> Run(s, draws).hero.body.experience == s.hero.body.experience
    decreases |draws|
  {
    if |draws| > 0 && !s.over && Rules.IsAlive(s.hero.body) {
      var t := PlayerTurn(s, Attack, draws[0]);
      assert AllValid(draws[1..]);
      assert Run(s, draws) == Run(t, draws[1..]);
      RunMonotone(t, draws[1..]);
    }
  }

  /** Under the invariant the experience never decreases over a run: it is
      never reset by a level-up. */
  lemma {:induction false} RunExperienceGrows(s: Session, draws: seq<TurnDraws>)
    requires Inv(s) && AllValid(draws)
    ensures s.hero.body.experience <= Run(s, draws).hero.body.experience
    decreases |draws|
  {
    if |draws| > 0 && !s.over && Rules.IsAlive(s.hero.body) {
      var t := PlayerTurn(s, Attack, draws[0]);
      PlayerTurnInv(s, Attack, draws[0]);
      assert AllValid(draws[1..]);
      assert Run(s, draws) == Run(t, draws[1..]);
      RunExperienceGrows(t, draws[1..]);
    }
  }
}
