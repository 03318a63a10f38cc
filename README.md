# Monty Hall simulator, modelled in Dafny

The program simulates the Monty Hall game. A car hides behind one of `door_count` doors. The
player guesses a door. The host, Monty, opens `door_count - 2` doors that hide goats and are not
the guessed door. The player then sticks or switches to the one door left closed. The program
plays `game_count` such games and counts the wins.

`MontyHall.dfy` (module `MontyHall`) models the deterministic part of that program:

- the host's choice of doors to open (`pick_monty_doors`);
- the switch to the other door (`pick_other_door`);
- one game (`run_game`), with the two random draws given as arguments;
- the win-counting loop (`run_games`), with the draws of every game given as two sequences.

The module-level settings `switch`, `door_count` and `game_count` are parameters. The range
promised by `pick_random_door` is the precondition `IsDoor` on the car door and the guess.

The main result is the postcondition of `RunGame`. For every number of doors, a switching player
wins exactly when the first guess was wrong. A sticking player wins exactly when it was right.
`TallyPartition` lifts this to a run of games: on the same draws, the two strategies win
complementary sets of games.

Where the code and its own docstring differ, the model follows the code:

- The docstring of `pick_monty_doors` (monty_hall.py:85-86) says the host opens "all of the doors
  that hide goats" other than the guess. The code opens only the first `door_count - 2` doors
  that are neither the car nor the guess, in increasing order. After a right guess this leaves
  one goat door closed: the largest door other than the guess (`ClosedDoor`).
- The code has no explicit check on `door_count`. With `door_count <= 0`, `random.randint(0,
  door_count - 1)` (monty_hall.py:77) raises on the first game. The model has no game for that
  case, because no car door satisfies `IsDoor`.
- With `door_count == 1`, `pick_other_door` falls off its loop and returns `None`. With `quiet`
  set, the switching game then returns `False`. With the shipped setting `quiet = False`
  (monty_hall.py:67), the message at monty_hall.py:167 formats `None` as a number and the game
  raises instead. The model follows the `quiet` path: `Option.None`, and the switching player
  loses. The win/lose theorem is therefore stated for every `door_count >= 1`. The facts about
  the number of opened doors and the single closed door are stated for `door_count >= 2`.

## Model

| member | source | states |
|---|---|---|
| `MontyHall.Openable` | monty_hall.py:95-106 | The doors a scan below `d` collects are exactly the doors in `[0, d)` other than the car door and the guess. They are strictly increasing, and there are `d` of them minus the excluded doors that lie below `d`. |
| `MontyHall.OpenablePrefix` | monty_hall.py:95-106 | A scan that stops earlier yields a prefix of a longer scan's doors. This is why the `break` keeps a prefix. |
| `MontyHall.MontyDoors` | monty_hall.py:79-108 | Every door the host opens is in `[0, door_count)` and is neither the car door nor the guess. The opened doors are strictly increasing, so none repeats. With at least two doors there are exactly `door_count - 2` of them. |
| `MontyHall.PickMontyDoors` | monty_hall.py:79-108 | The scan with `break` and `continue` returns exactly the host's doors `MontyDoors`: the first `door_count - 2` openable doors in scan order. |
| `MontyHall.ClosedDoor` | monty_hall.py:93-108 | The door the host leaves closed besides the guess is a real door, is not the guess and is not opened. It is the car door exactly when the guess was wrong, so after a right guess it hides a goat. After a right guess it is the largest door other than the guess. |
| `MontyHall.HostLeavesOneDoorClosed` | monty_hall.py:93-108 | With at least two doors, every unopened door other than the guess is the closed door. When the guess is wrong, the host opens exactly the doors other than the car and the guess. |
| `MontyHall.PickOtherDoor` | monty_hall.py:110-133 | The switch returns the smallest door in `[0, door_count)` that is neither the guess nor opened. It returns `None` exactly when no such door exists. |
| `MontyHall.SwitchFindsClosedDoor` | monty_hall.py:110-133 | After the host's choice, with at least two doors, the switch always finds a door and never returns `None`. The door it finds is the one closed door. |
| `MontyHall.RunGame` | monty_hall.py:135-175 | With the car door and guess drawn from `[0, door_count)`, a switching player wins exactly when the first guess differs from the car door. A sticking player wins exactly when they are equal. This holds for every door count on the `quiet` path; see the `door_count == 1` note above. |
| `MontyHall.Tally` | monty_hall.py:177-186 | The number of games a strategy wins on given draws is at most the number of games. |
| `MontyHall.TallyPartition` | monty_hall.py:177-186 | On the same draws, the games won by switching and the games won by sticking add up to all games. |
| `MontyHall.RunGames` | monty_hall.py:177-186 | The loop ends after exactly `game_count` games. Its win count is at most the number of games and equals the number of games whose outcome was a win. |

## Left out

- `pick_random_door` (monty_hall.py:69-77) calls `random.randint`, a library random source. The
  draws are arguments instead, and the precondition `IsDoor` keeps them in `[0, door_count)`.
- All console output and the `quiet` flag (monty_hall.py:145-173, 188-197). `RunGames` returns
  its counters instead of printing them. The output affects no result, with one exception. When
  `door_count == 1` and the player switches, the message at monty_hall.py:167 raises unless
  `quiet` is set.
- RunGame: follows the `quiet = True` path when `door_count == 1`. With `quiet = False` the
  source raises on a switching game there, and the model returns a loss instead. The model
  does not capture the crash.
- The floating-point win rate `wins / game` (monty_hall.py:196) and the expected rates of 1/3 and
  2/3 (monty_hall.py:44-45). These are floating point and probabilistic convergence. The
  per-game win/lose theorem (`RunGame`) and `TallyPartition` stand in for them.
- The `__main__` entry point (monty_hall.py:199-200). It only calls `run_games`.
