# Turn-based fighting game: combat core

This project models the combat core of a two-fighter terminal game. A human plays
"Scorpion" and a random opponent plays "Sub-Zero". The model covers:

- The `Fighter` record and its three moves. An attack rolls a raw damage in
  `[damage // 2, damage]`. A special move deals exactly `2 * damage`. A block banks
  a value in `[1, damage // 3]`.
- How a hit resolves. The target loses the raw damage minus its banked block, so a
  large block can heal. The block is then reset to 0.
- The opponent's turn. It is one of the three moves, chosen at random.
- The game loop. The player's keys are read until one is `a`, `s` or `b`. The
  player's move is applied. The opponent answers only if it is still standing. The
  loop stops as soon as either fighter's health is at most 0. The last step
  classifies the result as a win for either side or a tie.

The model has two layers:
- `fighter.dfy` (module `Fighters`) has the class `Fighter`, with `health` and
  `blockedDamage` changed in place, and the opponent's turn as a method on two
  fighter objects. Each method is specified by pure functions on a `FighterState`
  snapshot: `Hit`, `Blocked` and `Resolve`.
- `turns.dfy` (module `TurnEngine`) has the game loop. `Fight` is a `while` loop
  over two `Fighter` objects, modelled on the game's main loop. `PlayRound` and
  `RunMatch` are pure functions that state what one round and a whole run do.

Randomness is passed in by the caller. Each `random.randint` draw is a parameter,
and a `requires` keeps it in the range the game would draw from. Each
`random.choice` draw is an `Action` parameter. Key presses and draws for a whole
game come from a finite script of `Round` values.

The game itself can wait for ever, for example while no valid key arrives or when
both sides keep blocking. So a run of the model either *finishes*, because the
loop guard failed, or stops unfinished when the script runs out.

The main result is `TieOnlyWhenBothStartDown`. A finished run ends with both
fighters down exactly when both were already down before the first round. A
round's move changes only the health of the side that did not move, and the loop
checks right after each move. So from the default opening, the tie branch at the
end of the game cannot be reached (`NoTieFromStanding`, `Battle`). Health is not
monotone, because a block larger than the hit heals. The proof therefore goes
round by round and does not rely on health only going down.

Python's `//` is floor division. Dafny's `/` on `int` rounds the same way for a
positive divisor, so `damage / 2` and `damage / 3` match the game for every
`damage`.

The game does not check `damage` when a fighter is created, so the constructor
accepts any damage. A block needs `damage >= 3`, because `randint(1, damage // 3)`
(main.py:26) has an empty range below that (`BlockRoll`).

## Model

| member | source | states |
|---|---|---|
| `Fighters.AttackRoll` | main.py:13 | an attack draw lies in `[damage // 2, damage]`, so it is at most `damage`, and for `damage >= 0` at least half of it rounded down. A fitting draw exists only when `damage >= -1` |
| `Fighters.AttackRangeNonEmpty` | main.py:13 | the attack range `[damage // 2, damage]` is non-empty exactly when `damage >= -1` |
| `Fighters.BlockRoll` | main.py:26 | a block draw in `[1, damage // 3]` exists only when `damage >= 3`, and it is at least 1 |
| `Fighters.Hit` | main.py:14-15 | a hit takes raw damage minus the banked block and consumes the block. The target heals exactly when the block exceeds the raw damage, and loses health exactly when the raw damage exceeds the block. Name and damage are unchanged |
| `Fighters.Blocked` | main.py:26 | a block sets the banked value to the new draw whatever was banked before, and leaves health untouched |
| `Fighters.BlockOverwrites` | main.py:25-26 | two blocks in a row leave only the second one banked (blocks do not stack) |
| `Fighters.BlockConsumedOnce` | main.py:14-15 | after one hit, a second hit meets no block: the banked value counts exactly once |
| `Fighters.BlockLargerThanHitHeals` | main.py:14-15 | a block of 15 against a raw hit of 10 raises the target's health by 5 and resets the block to 0 |
| `Fighters.Resolve` | main.py:12-26 | one move never changes the mover's own health. An attack reports a roll in `[damage // 2, damage]` and a special move reports `2 * damage`. A hit leaves the mover unchanged and applies the net-of-block loss to the target, resetting its block. A block leaves the target unchanged and banks a value in `[1, damage // 3]`. The event names the mover |
| `Fighters.Fighter.constructor` | main.py:6-10 | a new fighter has the given name, health and damage, and no block |
| `Fighters.Fighter.Attack` | main.py:12-16 | returns a raw damage in `[damage // 2, damage]`. The target ends with health `old - (raw - old block)` and block 0. When the target is another fighter, the attacker is unchanged, including its own block |
| `Fighters.Fighter.SpecialMove` | main.py:18-23 | returns exactly `2 * damage` with no draw. It updates the target and resets its block exactly as an attack does. When the target is another fighter, the attacker is unchanged |
| `Fighters.Fighter.Block` | main.py:25-26 | needs `damage >= 3`. Sets the fighter's own block to the drawn value in `[1, damage // 3]`, replacing the earlier one, and leaves health untouched |
| `Fighters.OpponentTurn` | main.py:52-64 | applies exactly the chosen action: a hit from the opponent to the player, or a block for the opponent itself. The new states and the event are as `Resolve` gives them. The event names the opponent and, for a hit, the raw damage returned |
| `TurnEngine.KeyAction` | main.py:93-104 | key 97 (`a`) selects an attack, 115 (`s`) a special move, 98 (`b`) a block, and every other key selects nothing |
| `TurnEngine.PollAction` | main.py:91-104 | skips every key that is not `a`, `s` or `b`. Returns the action of the first valid key and its position, or no action when no key is valid |
| `TurnEngine.PlayRound` | main.py:91-120 | a round with no valid key does nothing. If the player's move leaves the opponent at health `<= 0`, the player is unchanged by the round and the downed opponent has no block banked. No round leaves both fighters down |
| `TurnEngine.KnockoutIgnoresOpponentDraws` | main.py:106-107 | once the player's move has put the opponent down, the opponent does not act: any other choice and draw for the opponent give the same round |
| `TurnEngine.ScriptFitsTail` | main.py:79-120 | the draws of the rounds still to play stay within their ranges after each round |
| `TurnEngine.BothStanding` | main.py:79 | the loop guard: the game goes on only while both fighters have health above 0 |
| `TurnEngine.RunMatch` | main.py:79-120 | a run is finished exactly when a fighter is down at its end, which is the loop guard. Names and damages never change |
| `TurnEngine.Classify` | main.py:133-138 | the player wins exactly when the player still stands. The opponent wins exactly when only the opponent stands. It is a tie exactly when both are down |
| `TurnEngine.TieOnlyWhenBothStartDown` | main.py:79-138 | a finished run ends with both fighters down, and so is classified a tie, exactly when both were down before the loop |
| `TurnEngine.NoTieFromStanding` | main.py:133-138 | from two standing fighters, a finished run is never a tie. "Player wins" means only the opponent is down, and "opponent wins" means only the player is down |
| `TurnEngine.KnockoutEndsRound` | main.py:97-107 | a special move taking the opponent from 5 to -35 ends the round. The opponent's block draw is not applied, so the opponent has no block banked |
| `TurnEngine.Opening` | main.py:70-71 | the default match starts with Scorpion (damage 20) against Sub-Zero (damage 18), both at health 100 with no block, so both stand and the loop runs |
| `TurnEngine.Fight` | main.py:79-120 | the game loop on two fighter objects leaves them in the final states of `RunMatch` for the same script, and reports whether the loop finished |
| `TurnEngine.Battle` | main.py:70-138 | the default match (100 health each, damages 20 and 18) gives the result of classifying `RunMatch` from the opening position, and is never a tie |

## Left out

- Terminal rendering and input plumbing are not modelled. This covers screen
  clearing, message boxes, `addstr`/`refresh`/`getch`, the curses wrapper and its
  cursor settings. They are terminal I/O. Key presses are a sequence of key codes
  in the script instead.
- `draw_health_bar` is not modelled, and neither is the maximum health of 100 that
  only it uses. It only draws, and it uses floating-point division.
- The `time.sleep` pauses are not modelled. They have no effect on game state.
- The `random` module is not modelled. Every draw is a caller-supplied value held
  to its range by a `requires`, so uniformity is not modelled.
- Message texts are not modelled character by character. An `Event` records only
  who acted, with which action, against whom, and for how much raw damage.
- Waiting for ever is not modelled. The game waits indefinitely for a valid key
  and can loop without end. The model runs a finite script and gives an
  unfinished run when the script, or a round's keys, run out while both fighters
  stand.
- `Fighters.OpponentTurn`: the new states are stated only when the opponent and
  the player are different objects. The game always passes two distinct fighters.
  The returned event is stated in every case.
- `Fighters.AttackRoll`: an attack with `damage <= -2` is not modelled. There `randint(damage // 2, damage)` (main.py:13) has an empty range and raises `ValueError`. `Fighters.Fighter.Attack`, `Fighters.Resolve` and `Fighters.OpponentTurn` require a draw in the range, so they exclude that error path. The game only uses damages 20 and 18.
- `TurnEngine.Fight` requires its two fighters to be different objects, as the
  game's two fighters are.
- Reassigning `name` or `damage` after creation is not modelled. The game never
  does it, so they are constants.
