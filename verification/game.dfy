/** Class Game: the orchestrator of the combat.

    It holds the players, the monster table, the current player (the first
    one), the current monster and the kill counter. Where index.js ends
    the process on the player's death, this model sets `gameOver`. Every
    Math.random() draw of a turn is supplied in a TurnDraws value. Each
    method is proved to move the Game's value (View) by the matching rule of
    module Encounter. */
module Games {
  import Rules
  import Encounter
  import opened Characters

  class Game {
    const players: seq<Player>
    const monsters: seq<Rules.Template>
    const currentPlayer: Player
    var currentMonster: Monster
    var monstersKilled: nat
    var gameOver: bool

    /** The current player is the first one, the monster table is not empty
        and the current monster is not the player's own Character part. */
    ghost predicate Valid()
      reads this, currentPlayer
    {
      && |players| > 0
      && currentPlayer == players[0]
      && |monsters| > 0
      && currentMonster != currentPlayer.base
    }

    function View(): Encounter.Session
      reads this, currentPlayer, currentPlayer.base, currentMonster
    {
      Encounter.Session(currentPlayer.View(), currentMonster.View(), monsters, monstersKilled, gameOver)
    }

    /** A new game: the first player against a monster drawn with `pick`,
        nothing killed yet. */
    constructor (players: seq<Player>, monsters: seq<Rules.Template>, pick: real)
      requires |players| > 0 && |monsters| > 0 && 0.0 <= pick < 1.0
      ensures Valid() && this.players == players && this.monsters == monsters
      ensures currentPlayer == players[0] && fresh(currentMonster)
      ensures View() == Encounter.Start(players[0].View(), monsters, pick)
    {
      var first := GetRandomMonster(monsters, pick);
      this.players := players;
      this.monsters := monsters;
      currentPlayer := players[0];
      currentMonster := first;
      monstersKilled := 0;
      gameOver := false;
    }

    /** getRandomMonster(): a new Monster copied from the template at index
        floor(pick * |monsters|). The table is a value and is not changed. */
    static method GetRandomMonster(monsters: seq<Rules.Template>, pick: real) returns (m: Monster)
      requires |monsters| > 0 && 0.0 <= pick < 1.0
      ensures fresh(m)
      ensures m.View() == Rules.FromTemplate(monsters[Rules.MonsterIndex(pick, |monsters|)])
      ensures m.View() == Rules.Spawn(monsters, pick)
    {
      var i := Rules.MonsterIndex(pick, |monsters|);
      m := new Character(monsters[i].name, monsters[i].health, monsters[i].damage, monsters[i].experience);
    }

    /** playerTurn(action), for 'attack' and 'special'. */
    method PlayerTurn(action: Encounter.Action, d: Encounter.TurnDraws)
      requires Valid() && !gameOver && d.Valid()
      modifies this, currentPlayer, currentPlayer.base, currentMonster
      ensures Valid()
      ensures View() == Encounter.PlayerTurn(old(View()), action, d)
      ensures currentMonster == old(currentMonster) || fresh(currentMonster)
      ensures monstersKilled == old(monstersKilled) ==> currentMonster == old(currentMonster)
      ensures monstersKilled == old(monstersKilled) + 1 ==> fresh(currentMonster)
    {
      if Encounter.IsCriticalFailure(d.roll) {
        return;
      }
      ghost var s := View();
      ghost var struck := Encounter.Strike(s.hero, action, d.hit);
      var damage: real;
      match action {
        case Attack =>
          damage := currentPlayer.base.Attack(d.hit);
        case Special =>
          damage := currentPlayer.UseSpecial(d.hit);
      }
      assert currentPlayer.View() == struck.0 && damage == struck.1;
      currentMonster.TakeDamage(damage);
      ghost var hit := s.(hero := struck.0, monster := Rules.TakeDamage(s.monster, damage));
      assert View() == hit;
      if !currentMonster.IsAlive() {
        currentPlayer.GainExperience(currentMonster.experience);
        monstersKilled := monstersKilled + 1;
        currentMonster := GetRandomMonster(monsters, d.pick);
        assert View() == hit.(hero := Rules.GainExperience(hit.hero, hit.monster.experience),
                              monster := Rules.Spawn(s.templates, d.pick),
                              kills := s.kills + 1);
      } else {
        MonsterTurn(d);
        assert View() == Encounter.MonsterTurn(hit, d);
      }
    }

    /** monsterTurn(): only the player's health and the game-over flag may change. */
    method MonsterTurn(d: Encounter.TurnDraws)
      requires Valid() && d.Valid()
      modifies this`gameOver, currentPlayer.base`health
      ensures View() == Encounter.MonsterTurn(old(View()), d)
    {
      if Encounter.IsCriticalFailure(d.monsterRoll) {
        return;
      }
      var damage := currentMonster.Attack(d.monsterHit);
      currentPlayer.base.TakeDamage(damage);
      if !currentPlayer.base.IsAlive() {
        gameOver := true;
      }
    }

    /** start(), bounded by the draws supplied: 'attack' turns while the
        player is alive and the game is not over. */
    method Start(draws: seq<Encounter.TurnDraws>)
      requires Valid() && !gameOver && Encounter.AllValid(draws)
      modifies this, currentPlayer, currentPlayer.base, currentMonster
      ensures Valid()
      ensures View() == Encounter.Run(old(View()), draws)
      ensures currentMonster == old(currentMonster) || fresh(currentMonster)
    {
      var i := 0;
      while i < |draws| && !gameOver && currentPlayer.base.IsAlive()
        invariant 0 <= i <= |draws|
        invariant Valid()
        invariant currentMonster == old(currentMonster) || fresh(currentMonster)
        invariant Encounter.AllValid(draws[i..])
        invariant Encounter.Run(old(View()), draws) == Encounter.Run(View(), draws[i..])
      {
        assert draws[i..][0] == draws[i] && draws[i..][1..] == draws[i + 1..];
        PlayerTurn(Encounter.Attack, draws[i]);
        i := i + 1;
      }
    }
  }
}
