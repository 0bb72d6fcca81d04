# Player grid movement of bb-ds, in Dafny

This project models the discrete movement logic of the player character in a
small handheld-console game. The level is a constant 9 × 10 table of tile
kinds (`Map::Tiles`). The player keeps a logical cell (`tileX`, `tileZ`), a
target cell (`targetX`, `targetZ`), a `facing` direction, a `walking` flag and
a lying-down state. Four operations change that state:

- `HandleInput` turns the console's key-state word into `facing` and `walking`;
- `Move` proposes the neighbouring cell along `facing` and rolls it back when
  the level says it is a wall or outside the level;
- `Update` snaps the logical cell to the target when the player has arrived,
  or only counts frames while lying down;
- `SetLyingDown` enters or leaves the lying-down state and turns the player to
  face down.

Layout:

- `grid.dfy`, module `Grid`: the tile kinds, the level table and the type of
  the tile lookup `GetTileAt`. The lookup's body is not part of this model.
  Movement therefore takes the lookup as a parameter of the total type
  `(int, int) -> Tile`, and every movement result holds for any such lookup.
- `player.dfy`, module `Movement`: directions, the libnds key bits, a
  declarative specification of input resolution, the candidate-cell
  functions, and `class Player`. The class holds the source's mutable fields
  and one method per operation. Each method states its whole new state and
  what it leaves alone, the latter also through a field-precise `modifies`
  frame.
- `scenarios.dfy`, module `Scenarios`: `FrameKeepsGrounded`, which chains
  the three per-frame operations for any lookup, and verified scenarios,
  that is, client methods checked against concrete states. The scenarios
  use `AssumedTileAt`, an ASSUMED reading of the table: `x` is the column,
  `z` the row, and anything outside the table is `Void`. Nothing else in the
  model uses it.

Two invariants of the player are stated as predicates and carried through the
methods:

- `OnCourse`: the target is the current cell or the neighbour along `facing`.
  `HandleInput`, `Move` and `Update` preserve it. `SetLyingDown` preserves it
  only when no step is in progress or the player already faced down.
  `Scenarios.LyingDownMidStep` shows a state where it breaks. After that,
  `Scenarios.DiagonalAfterLyingDown` shows `Move` proposing a diagonal target.
  While lying down the cell is never snapped, so this has no visible effect
  unless the player later stops lying down.
- `Grounded(tileAt)`: the current cell and the target are both `Floor`.
  `Move` preserves it, and establishes it when the player is walking and the
  current cell is floor. `Update` moves the cell only onto the target.
  `Scenarios.FrameKeepsGrounded` proves that a player that starts `Grounded`
  stays `Grounded` through `HandleInput`, `Move` and `Update`, so it is never
  placed on a wall or outside the level. Standing on floor alone is not
  enough: a player that is not walking and whose target is a wall keeps that
  target through `Move`, and `Update` can snap onto it.

Two facts about the code are worth stating:

- `walking == false` does not imply that the cell equals the target.
  Releasing the key mid-step clears `walking` but leaves the target, and
  `Update` still completes the step (`Scenarios.ReleaseMidStep`).
- `source/player.h` does not declare `lyingDown`, `lyingDownFrames`,
  `SetLyingDown` or `DrawShadow`, although `source/player.cpp` uses them. The
  model follows `player.cpp`: `lyingDown` is a `bool` and `lyingDownFrames`
  an `int`.

In the source, `HandleInput` re-reads `facing` after earlier branches may
have changed it. The specification (`Qualifies`) reads the facing on entry
instead. `HandleInput`'s proof shows the two readings agree.

## Model

| member | source | states |
|---|---|---|
| Grid.TableShape | source/map.h:21-30 | The level table has exactly 9 rows of 10 entries each. |
| Grid.TableEdgeRows | source/map.h:22-30 | Row 0 is entirely `Floor` and row 8 is entirely `Wall`. |
| Grid.TableSideWalls | source/map.h:23-29 | Rows 1 to 7 have `Wall` at column 0 and at column 9. |
| Movement.LastSatisfying | source/player.cpp:171-191 | The reading of a last-writer-wins if-chain: returns None exactly when no element satisfies the test, otherwise an index whose element satisfies it, with no satisfying element after it. |
| Movement.InputWalking | source/player.cpp:170-191 | The `walking` flag input handling produces is true iff some direction is held and either no step is in progress or it is the current facing. |
| Movement.InputFacing | source/player.cpp:170-191 | The resulting facing qualifies and no qualifying direction comes later in the order Left, Down, Right, Up. With nothing qualifying, the facing is unchanged. Mid-step, the facing is never changed. |
| Movement.ChoiceByPriority | source/player.cpp:172-191 | The declarative choice equals the tests taken as a priority list from Up back to Left (the last test of the chain has the highest priority), and `walking` is the disjunction of the four tests. |
| Movement.MidStepContinues | source/player.cpp:170-191 | While a step is in progress, input keeps `walking` iff the key of the current facing is held, and never changes the facing. |
| Movement.NoDirectionHeld | source/player.cpp:171-191 | With no direction bit set, input handling clears `walking` and keeps the facing. |
| Movement.DirectionBitsOnly | source/player.cpp:172-187 | Two key words with the same four direction bits produce the same facing and walking flag; other keys are ignored. |
| Movement.LastSatisfyingAgree | source/player.cpp:172-191 | Two tests that agree on every scanned direction select the same one. |
| Movement.HeldThroughMask | source/player.cpp:172-187 | Whether a direction is held depends only on the direction bits of the key word. |
| Movement.Neighbour | source/player.cpp:56-70 | The cell one step along a direction is at Manhattan distance 1, and it lies on the same z row iff the direction is Left or Right. |
| Movement.Propose | source/player.cpp:56-70 | Move's candidate sets the coordinate along `facing` to the current cell's ±1 and keeps the other target coordinate. When the target is the current cell or already the neighbour ahead, the candidate is exactly that neighbour. |
| Movement.Player.constructor | source/player.h:25-27 | A new player has `canMove`, faces Down and is not walking. The cell, the target and the lying-down fields are left unspecified, as the source leaves them uninitialised. |
| Movement.Player.HandleInput | source/player.cpp:168-192 | `facing` and `walking` become `InputFacing` and `InputWalking` of the key word, the entry facing and whether a step was in progress. Mid-step the facing is unchanged. Cell and target are unchanged, and `OnCourse` is preserved. |
| Movement.Player.Move | source/player.cpp:51-81 | Not walking: nothing changes. Walking: the target becomes `Propose`'s candidate if the lookup gives Floor there. On Wall or Void it reverts to the current cell and `walking` is cleared. The cell and facing are untouched. `OnCourse` and `Grounded` are preserved, and `Grounded` is established when the player was walking and the current cell is floor. |
| Movement.Player.Update | source/player.cpp:93-129 | Lying down: `lyingDownFrames` goes up by one and the cell stays. Otherwise the cell snaps to the target if arrived and stays if not. The new cell is always the old cell or the target. The target is unchanged and `OnCourse` is preserved. |
| Movement.Player.GetPlayerTile | source/player.cpp:140-143 | The lookup at the player's cell. For a grounded player it is `Floor`. |
| Movement.Player.SetLyingDown | source/player.cpp:160-166 | `lyingDown` takes the argument and `facing` becomes Down. Cell and target are unchanged. `OnCourse` survives when no step is in progress or the player already faced Down. |

## Left out

- Movement.Player.Update: the continuous part is not modelled. That covers the float world position, the per-frame translation by `SPEED`, the arrival tolerance `TILE_SIZE`, the sinusoidal bob and the rotation easing (source/player.cpp:85-124). Arrival comes in as the boolean `arrived`. So the model does not say when arrival happens, only what the snap does.
- `SPEED` and `TILE_SIZE` (source/player.h:18-19) appear only in that continuous part. They are `const` in the source and no modelled method could change them.
- Movement.Player.Move: the rumble on a rejected step (`setRumble(rand() % 2 == 0)`) is a hardware side effect with randomness and is not modelled. Only the rollback is.
- Movement.Player.SetLyingDown: the position offset (`Translate`) and the model rotation are float and engine calls and are not modelled.
- The body of `Map::GetTileAt` (map.cpp) is not part of this model. That includes its out-of-bounds rule and the mapping from x/z to row/column. Movement holds for every lookup. Only the scenarios use an assumed one.
- `Load`, `Unload`, `Draw`, `DrawShadow`, `DrawTriangle`, `PrintCoords` and `Translate`: asset loading, rendering and text output through the console's engine libraries. `Load` also resets `lyingDown` to false and the position and rotation; with `Load` out, the lying-down fields are unspecified after construction.
- `canMove` is declared with its default but no shown code reads or writes it.
- Movement.Player.Move: the cell and target coordinates `tileX`, `tileZ`, `targetX`, `targetZ` are C `int`s in the source but unbounded integers here. The overflow of `tileX - 1`, `tileX + 1`, `tileZ - 1` and `tileZ + 1` at the ends of the `int` range is undefined behaviour in C++ and is not modelled.
- `lyingDownFrames` is an unbounded integer; overflow of the C `int` after 2^31 frames is not modelled.
- The valve minigame (source/minigames.h) is declarations only; its behaviour is in a file that is not part of this model.
- The key-bit values `KEY_RIGHT`, `KEY_LEFT`, `KEY_UP`, `KEY_DOWN` (bits 4 to 7) are those of the libnds input header, which is not part of this model.
