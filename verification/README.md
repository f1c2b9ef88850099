# Turn-based combat engine, modelled in Dafny

This project models the combat engine of `index.js`. A player character fights
monsters drawn from a template table, one turn at a time. Both sides may fail
critically (10% of turns). Damage is randomized to between 80% and 120% of a base
value. A special attack costs 10 mana. Experience from kills can level the
player up: +20 health, +5 damage, +5 special damage per level.

Every draw of `Math.random()` is an explicit parameter in `[0, 1)`. For a turn,
the draws are grouped in `Encounter.TurnDraws` in the order the program makes them.
With that change the engine is deterministic and its rules can be stated as
contracts.

Files and modules:

- `rules.dfy`, module `Rules`: the rules for one combatant, on values.
  - `Fighter` is the state of a Character or Monster. `Hero` is the state of a
    Player. `Template` is an entry of the monster table.
  - The functions are attack, takeDamage, isAlive, useSpecial, gainExperience,
    levelUp, the monster index draw and the monster copy.
- `encounter.dfy`, module `Encounter`: the rules for a whole game, on values.
  - A `Session` is what a Game holds.
  - `PlayerTurn` and `MonsterTurn` are single turns. `Run` is the `start` loop,
    bounded by the draws supplied.
  - `Inv` is the session invariant. The induction lemmas are about runs.
- `characters.dfy`, module `Characters`: classes `Character` and `Player`, which
  update their fields in place. `Monster` is `Character`. Each method is proved
  to move the object's value (`View()`) by the matching function of `Rules`.
- `game.dfy`, module `Games`: class `Game`. Its methods are proved to move the
  game's value by the matching function of `Encounter`.
- `seed.dfy`, module `Seed`: the program's seed data (Guerrier, Magicien,
  Gobelin, Orc, Dragon) and concrete consequences of the rules for it.

Behaviour of index.js that the model keeps as written:

- With less than 10 mana, `useSpecial` deals 0 and changes nothing (index.js:37-39).
- index.js accepts only the actions `'attack'` and `'special'` (index.js:93-97).
  Any other action leaves `damage` undefined, and the turn then throws at
  `damage.toFixed` (index.js:100). Here the `Action` type has only the two
  accepted actions.

## Model

| member | source | states |
|---|---|---|
| Rules.Scaled | index.js:10-12 | For a draw in [0,1) and a base of 0 or more, the randomized damage lies in [0.8·base, 1.2·base]. It is strictly below 1.2·base when the base is positive, and 0 for a base of 0. |
| Rules.Attack | index.js:10-12 | A basic attack deals the fighter's damage scaled by the ±20% law. That gives the same bounds in terms of the fighter's `damage`. |
| Characters.Character.Attack | index.js:10-12 | `attack()` reads the object and changes nothing. Its result lies in [0.8·damage, 1.2·damage], and strictly below 1.2·damage for positive damage. |
| Rules.IsAlive | index.js:18-20 | A fighter with positive health is alive. One with health 0 or below is dead, so health exactly 0 counts as dead. |
| Characters.Character.IsAlive | index.js:18-20 | `isAlive()` reads the object and is true iff its `health` is strictly positive. |
| Characters.Character.constructor | index.js:3-8 | A new character holds the given name, health, damage and experience. Experience defaults to 0. |
| Rules.TakeDamage | index.js:14-20 | Health drops by exactly the amount, with no clamp, and nothing else changes. The fighter is still alive iff the amount is below the old health, so exactly 0 health is dead. Health goes negative iff the amount exceeds the old health. |
| Characters.Character.TakeDamage | index.js:14-16 | Only `health` may change (frame `this`health`), and the new value is `Rules.TakeDamage` of the old one. |
| Rules.NewHero | index.js:25-31 | A new player's value holds the given name, health, damage, mana and special damage, level 1 and experience 0. |
| Characters.Player.constructor | index.js:25-31 | A new player gets the given name, health, damage, mana and special damage, level 1 and experience 0. Its Character part is a new object. |
| Rules.UseSpecial | index.js:33-41 | With mana >= 10, mana drops by exactly 10, nothing else changes, and for a non-negative special damage the damage lies in [0.8, 1.2]·specialDamage. With mana < 10, the player is unchanged and the damage is exactly 0. Mana never increases and never goes below 0 from a start at 0 or more. |
| Characters.Player.UseSpecial | index.js:33-41 | Only `mana` may change. The new player value and the returned damage are those of `Rules.UseSpecial`. |
| Rules.GainExperience | index.js:43-48 | Experience grows by exactly the award and is never reset. The level goes up by one iff the new total reaches 50 × the level held before the award. The level goes up by at most one per award. Name and mana are unchanged. Without a level-up only the experience changes. With one, the result is `LevelUp` of the credited player: health +20, damage +5, special damage +5. |
| Characters.Player.GainExperience | index.js:43-48 | Only experience, health, damage, level and special damage may change. The new value is `Rules.GainExperience` of the old one. |
| Rules.LevelUp | index.js:50-56 | Level +1, health +20, damage +5, special damage +5. Name, mana and experience are untouched. |
| Characters.Player.LevelUp | index.js:50-56 | Only level, health, damage and special damage may change. The new value is `Rules.LevelUp` of the old one. |
| Rules.MonsterIndex | index.js:77 | For a draw in [0,1) and a non-empty table, floor(draw × length) is a valid index. |
| Rules.Spawn | index.js:76-84 | The new monster is a copy of some template of the table: name, health, damage and experience. |
| Games.Game.GetRandomMonster | index.js:76-84 | Returns a newly allocated Monster equal to the copy of the template at index floor(pick × length). The table is a value and is not changed. |
| Encounter.Start | index.js:68-74 | A new game holds the given player and table, a monster copied from a template, 0 kills, and is not over. |
| Games.Game.constructor | index.js:68-74 | The current player is the first of the list. The current monster is a newly allocated object. The game's value is `Encounter.Start` of the first player, with 0 kills. |
| Encounter.Strike | index.js:92-97 | The action dispatch. `'attack'` leaves the player unchanged, and for a non-negative damage its damage lies in [0.8, 1.2]·damage. `'special'` is exactly `UseSpecial`. Either way only the mana can change, and only by the cost of 10. |
| Encounter.MonsterTurn | index.js:112-126 | On a critical failure nothing changes. Otherwise the player's health drops by exactly the monster's attack, and only that health and the game-over flag change. The game is over iff the player is now dead. A monster with non-negative damage never raises the player's health. |
| Games.Game.MonsterTurn | index.js:112-126 | Only `gameOver` and the player's health may change. The new value is `Encounter.MonsterTurn` of the old one. |
| Encounter.PlayerTurn | index.js:86-110 | A critical failure changes nothing, and the monster does not act. The table is unchanged, and kills grow by 0 or 1. Kills grow iff the turn did not fail and the action's damage left the monster dead. On a kill: the player becomes `GainExperience` of the player after the strike, for the dead monster's reward. So the monster does not strike back, mana changes only by what a special spent, and the level rises exactly when the threshold is reached. Experience grows by exactly the reward, the new monster is the template copy for the pick draw, and the game is not over. On survival: the monster answers by `MonsterTurn`. The level rises only on a kill, by at most one. Experience changes only on a kill. Mana stays non-negative. The game is over only with the player dead. |
| Games.Game.PlayerTurn | index.js:86-110 | The game keeps its validity: the current monster is never the player's own Character part. The new value is `Encounter.PlayerTurn` of the old one. The current monster changes only when a kill is counted, and a kill always replaces it with a newly allocated object. |
| Encounter.Run | index.js:128-133 | The bounded `start` loop never changes the monster table. It does nothing when the game is over or the player is already dead. It ends with the game over only if the player is then dead. |
| Encounter.StartInv | index.js:25-31 | A new game whose new player has non-negative mana, facing a table of non-negative rewards, satisfies the session invariant `Inv`. |
| Encounter.PlayerTurnInv | index.js:86-110 | One player turn keeps `Inv`. Inv: level >= 1; mana >= 0; experience >= 50 × (level - 1); the current monster's reward >= 0; the game is over only with the player dead. |
| Encounter.RunInv | index.js:128-133 | A whole bounded `start` loop keeps `Inv`. |
| Encounter.RunMonotone | index.js:128-133 | Over a bounded `start` loop the monster table is untouched. Kills never decrease and grow by at most one per turn. The level never decreases and grows by at most one per kill. Experience changes only if something was killed. |
| Encounter.RunExperienceGrows | index.js:43-48 | Under `Inv`, experience never decreases over a run. A level-up does not consume it. |
| Games.Game.Start | index.js:128-133 | The loop runs attack turns while the player lives and the game is not over, up to the draws supplied. It ends in the state `Encounter.Run` gives and keeps the game valid. The final current monster is the original object or a newly allocated one. |
| Seed.SeedGameInv | index.js:137-149 | The program's own starting game (Guerrier against any drawn template) satisfies `Inv`. |
| Seed.OneLevelPerAward | index.js:43-56 | A single award of 120 to a new Guerrier crosses the thresholds of levels 1 and 2 but gives level 2 only. The 120 experience is kept. |
| Seed.GobelinThenDragon | index.js:43-56 | Gobelin then Dragon: 20 experience keeps level 1. 70 reaches level 2, and health becomes 120. |
| Seed.MagicienSpecialGate | index.js:33-41 | A Magicien with 0 mana deals 0 and is unchanged. With 10 mana, the special empties the mana. |

## Left out

- Console output (`console.log` and the `toFixed(2)` formatting) is not modelled. It is presentation only.
- `process.exit()` on the player's death is replaced by the `gameOver` flag. `Games.Game.PlayerTurn` requires `!gameOver`, because no turn can follow the exit.
- `Math.random()` is not modelled. Each draw is a parameter in [0,1): the two critical-failure rolls, the two damage multipliers and the monster-table pick. A branch ignores the draws it does not make.
- `start()` loops until the process exits. `Games.Game.Start` and `Encounter.Run` take one turn per supplied draw record, so a run is bounded by the number of records. Nothing is claimed about termination of the unbounded loop.
- Numbers are modelled as exact values: health, damage and special damage are `real`, and mana, level and experience are `int`. IEEE rounding is not modelled.
- Inheritance: `Player` holds its Character part as a `const base: Character` instead of extending Character. `Monster` is a type synonym of `Character`, so the model has no separate Monster class identity.
- Games.Game.GetRandomMonster: a static method that takes the table as a parameter. A constructor cannot call an instance method before all fields are set. The contract is unchanged.
- Games.Game.constructor: requires a non-empty player list and a non-empty monster table. With an empty table, `monsters[0].name` throws. With no player, the first use of `currentPlayer` throws. Neither crash is modelled.
- `Game.players` beyond the first is stored and never used, as in the source.
- Actions other than `'attack'` and `'special'` are not expressible. The source crashes on them.
- `Encounter.Inv` also needs non-negative starting mana and non-negative monster rewards. The source does not check either; the seed data satisfies both.
- Characters.Character.Attack: its contract gives the bounds of the result. The exact value, damage × (0.8 + 0.4u), is the body of `Rules.Scaled`, which it calls.
- Rules.Spawn: its contract says the monster is a copy of some template. The exact index, floor(pick × length), is stated by `Games.Game.GetRandomMonster`.
- The module-level setup (index.js:137-150) is not run. Its values appear only as the constants of module `Seed`.
