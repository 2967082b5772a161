# eel: tile-grid frame simulation

This project models the simple game simulation in `src/lib.rs` and the
standalone vector type in `src/vector.rs`.

A world `State` holds a sequence of entities and a wall/floor `Grid`. Each
entity has a position and a pending move, `delta_position`. One frame,
`game_loop(input, state)`, works in two steps:

1. It runs `State::process`. This is an input pass over every entity, which
   copies `input` into the pending move. Then comes a movement pass over
   every entity. That pass commits the move only when the target tile exists
   and is not a wall, and it always clears the pending move. Each pass
   collects its results into a fresh sequence and stores the grid handed
   back by each component.
2. It returns the state together with `State::draw`. That is the grid's draw
   calls followed by one green call per entity. Each draw call is five
   integers, `[colour, x, y, width, height]`.

Modules:

- `Ints` (`ints.dfy`) models Rust's `i32` and `u32` and the wrapping
  `as u32` cast.
- `Vector` (`vector.dfy`) models `src/vector.rs`.
- `Game` (`game.dfy`) models `src/lib.rs`. Value types are datatypes:
  `Vector2`, `Tile`, `Grid` and `Entity`. `State` is a class whose `Process`
  method reassigns its `entities` and `grid` fields in loops, as the source
  does. `Grid.Draw` and `State.Draw` are methods with the source's loops.
  Each method is proved equal to a specification function: `Processed`,
  `Grid.GridCalls` or `StateCalls`. Lemmas prove the properties of those
  functions.

Integer behaviour is that of a debug build. An `i32` or `u32` `+` or `*`
that overflows panics, so the model states each one as a precondition:

- `Add` and `AddAssign` require `CanAdd`.
- `Grid.GetTile` requires `CanLookUp`.
- `Grid.Draw` requires `Drawable`.
- `State.Draw` requires `EntityDrawable` for every entity.

The cast `x as u32` never panics. It is written out as `x % 2^32` in
`Ints.AsU32`.

Behaviour kept exactly as the code has it:

- `get_tile` computes the offset `x * width + y` and compares only that
  offset with the number of tiles. It never compares `x` with `width` or `y`
  with `height`. So a position outside the map can read a tile inside it.
  `Game.UncheckedLookupLeavesMap` shows that input (-1, 5) moves the player
  of `init_state` from (1, 1) to (0, 6), below the 5 x 5 map.
- The offset scales `x` by `width`, not by `height`. On a square grid with
  `width * height` tiles, every in-map position finds its tile
  (`Game.SquareGridLookup`). On a wider-than-tall grid, `draw` would index
  past the tiles. `Grid.Drawable` is the exact condition under which `draw`
  does not panic.
- Entities are drawn at `(x as u32) * 20`. A negative coordinate therefore
  overflows and panics (`Game.EntityDrawableIffOnScreen`).
- The test `one_by_one_grid` expects a tile size of 10. The code emits
  `TILE_SIZE` = 20, and the model follows the code (`Game.OneByOneGridDraw`).

In a debug build, a negative coordinate either makes the `u32` multiply or
add in `get_tile` overflow, which panics (`Grid.CanLookUp`), or gives an
offset above `i32::MAX`, which misses any map with fewer tiles
(`Game.NegativeLookupMisses`). The one exception is width 0, where `x` is
multiplied away and `(x, y)` reads `tiles[y]` (`Game.ZeroWidthNegativeLookup`).
A release build would wrap instead (see "## Left out").

## Model

| member | source | states |
|---|---|---|
| `Ints.AsU32` | src/lib.rs:67 | `x as u32` keeps a non-negative `i32` as it is and maps a negative one to `x + 2^32`, which is above `i32::MAX` |
| `Vector.New` | src/vector.rs:7-9 | `Vector2::new(x, y)` has components `x` and `y` |
| `Vector.Add` | src/vector.rs:12-19 | defined only when both component sums fit in `i32`, and then it is the componentwise sum |
| `Vector.AddAssign` | src/vector.rs:21-28 | `+=` leaves the target equal to `self + other`, componentwise, under the same no-overflow precondition |
| `Vector.AddCommutes` | src/vector.rs:12-19 | `a + b == b + a` whenever one side is defined |
| `Vector.AddZero` | src/vector.rs:12-19 | adding (0, 0) never overflows and changes nothing |
| `Vector.AddVecZeros` | src/vector.rs:33-36 | (0,0) + (0,0) == (0,0) |
| `Vector.AddVecOnes` | src/vector.rs:37-39 | (1,1) + (1,1) == (2,2) |
| `Vector.AddVecAssignExample` | src/vector.rs:42-47 | starting from (0,0), `+= (1,1)` gives (1,1) |
| `Game.NewVector2` | src/lib.rs:21-25 | `Vector2::new(x, y)` has components `x` and `y` |
| `Game.Add` | src/lib.rs:26-34 | defined only when both component sums fit in `i32`, and then it is the componentwise sum |
| `Game.AddAssign` | src/lib.rs:35-41 | `+=` leaves the target equal to `self + other`, componentwise; the movement component's `position += delta_position` is therefore written as `Add` |
| `Game.AddZero` | src/lib.rs:26-34 | adding (0, 0) never overflows and changes nothing |
| `Game.Tile.Color` | src/lib.rs:43-50 | the colour is 0x191919 exactly for `Floor` and 0x033499 exactly for `Wall` |
| `Game.NewGrid` | src/lib.rs:59-65 | `Grid::new` stores width, height and tiles as given, with no size check |
| `Game.Grid.GetTile` | src/lib.rs:66-72 | returns a tile exactly when the wrapped offset `(x as u32) * width + (y as u32)` is below the number of tiles, and then it is the tile at that offset; `x`, `y` are not checked against `width`, `height` |
| `Game.SquareGridLookup` | src/lib.rs:66-72 | on a square grid with `width * height` tiles, every in-map position finds `tiles[x * width + y]` |
| `Game.NegativeLookupMisses` | src/lib.rs:66-72 | a negative `y`, or a negative `x` on a grid of non-zero width, that does not overflow gives an offset above `i32::MAX`, so `get_tile` finds nothing in a map of at most 2^31 tiles |
| `Game.ZeroWidthNegativeLookup` | src/lib.rs:59-72 | `Grid::new(0, 0, [Floor, Wall])` is accepted, and on it position (-1, 1) reads `Some(Wall)` |
| `Game.UncheckedLookupLeavesMap` | src/lib.rs:66-72 | position (0, 6), below the 5 x 5 initial map, reads as floor, and one frame with input (-1, 5) moves the player there |
| `Game.IndexInRange` | src/lib.rs:75-83 | under `Drawable`, every offset `x * width + y` that `draw` reads is in the tiles and fits in `u32`, and so do `x * 20` and `y * 20` |
| `Game.Grid.Draw` | src/lib.rs:73-87 | the nested x-outer, y-inner loops produce `GridCalls(width)`, which has `5 * width * height` integers |
| `Game.GridCallsLength` | src/lib.rs:73-87 | the first n columns of the grid's draw calls hold exactly `5 * n * height` integers |
| `Game.GridCallsAt` | src/lib.rs:75-83 | block `x * height + y` of the grid's draw calls is `[colour of tiles[x * width + y], x * 20, y * 20, 20, 20]` |
| `Game.EmptyGridDrawsNothing` | src/lib.rs:248-252 | a 0 x 0 grid with no tiles can be drawn and draws nothing |
| `Game.OneByOneGridDraw` | src/lib.rs:254-257 | a 1 x 1 wall grid draws `[0x033499, 0, 0, 20, 20]` |
| `Game.NewEntity` | src/lib.rs:139-146 | a new entity stands at the given position with no pending move |
| `Game.InputApply` | src/lib.rs:155-161 | the input becomes the pending move; the position and the grid are unchanged |
| `Game.GridApply` | src/lib.rs:166-180 | the grid is unchanged and the pending move is cleared; the entity moves to `position + delta` when that tile exists and is floor, and stays put otherwise (wall or no tile) |
| `Game.GridApplyLandsOnFloor` | src/lib.rs:168-175 | after the movement component an entity is where it was or on a floor tile |
| `Game.InputPass` | src/lib.rs:98-104 | the input loop keeps the number and order of entities, hands back the grid unchanged, and entity i becomes `InputApply` of entity i |
| `Game.GridPass` | src/lib.rs:105-111 | the movement loop keeps the number and order of entities, hands back the grid unchanged, and entity i becomes `GridApply` of entity i |
| `Game.Processed` | src/lib.rs:97-112 | processing keeps the number and order of entities and the grid; entity i becomes `GridApply(InputApply(entity i, input))` |
| `Game.ProcessedEntity` | src/lib.rs:97-112 | after a frame every pending move is zero, and entity i is at `position + input` if that tile is floor and at its old position otherwise |
| `Game.ProcessKeepsOnFloor` | src/lib.rs:97-112 | an entity standing on a floor tile before a frame stands on a floor tile after it |
| `Game.ZeroInputKeepsPositions` | src/lib.rs:97-112 | a frame with input (0, 0) moves nobody and only clears pending moves |
| `Game.State.constructor` | src/lib.rs:89-95 | a state holds the given entities and grid |
| `Game.State.Process` | src/lib.rs:97-112 | the two loops leave `entities` and `grid` equal to `Processed` of the old ones |
| `Game.State.GetTile` | src/lib.rs:113-116 | the state's lookup is the grid's: a tile exactly when the wrapped offset is below the number of tiles |
| `Game.State.GetEntities` | src/lib.rs:124-127 | returns the state's entity sequence |
| `Game.EntityDrawableIffOnScreen` | src/lib.rs:120 | an entity can be drawn without overflow exactly when both coordinates are non-negative and their products with 20 fit in `u32` |
| `Game.EntityCallsLayout` | src/lib.rs:119-121 | the entity loop emits five integers per entity, and block i is entity i's call |
| `Game.StateCallsLayout` | src/lib.rs:117-123 | `State::draw` has `5 * width * height + 5 * entities` integers; after the grid's calls, block i is `[0x00ff00, x * 20, y * 20, 20, 20]` for entity i |
| `Game.State.Draw` | src/lib.rs:117-123 | the loop produces `StateCalls`: the grid's calls followed by one call per entity, `5 * width * height + 5 * entities` integers in all |
| `Game.GameLoop` | src/lib.rs:191-200 | the returned state is the processed state, and the returned draw calls are that state's `StateCalls`, `5 * width * height + 5 * entities` integers |
| `Game.InitialGrid` | src/lib.rs:205-235 | the initial map is 5 x 5 with 25 tiles |
| `Game.InitialGridLayout` | src/lib.rs:205-235 | in the initial map, (x, y) is a wall exactly on the border and floor in the 3 x 3 interior |
| `Game.InitialEntities` | src/lib.rs:204 | there is one entity, at (1, 1), with no pending move |
| `Game.InitState` | src/lib.rs:202-239 | `init_state` builds a fresh state from the initial entities and map |
| `Game.RunFrame` | src/lib.rs:259-262 | a zero-input frame on the initial state meets every no-panic condition of `game_loop` (it can be processed, the map can be drawn and so can the processed entities), and it leaves the player where it was, on floor |
| `Game.RunFrameTest` | src/lib.rs:259-262 | `game_loop((0, 0), init_state())` runs to completion, emits 130 integers (25 tiles and one entity) and leaves the player at (1, 1) |
| `Game.RunFrameInput` | src/lib.rs:280-287 | input (1, 0) moves the initial player to (2, 1), which is floor, and the resulting state can be drawn |
| `Game.RunFrameInputTest` | src/lib.rs:280-287 | after `InitState` and one `GameLoop` with input (1, 0), `get_tile((2,1))` is floor and the first entity is at (2, 1) |

## Left out

- The host boundary, because it is foreign calls and marshalling: `game_loop_js`, `init_state_js`, the serde derives and their `unwrap`s, and the `wee_alloc` global allocator (src/lib.rs:7-9, 181-189, 240-243).
- The `Component` trait and the empty `InputComponent`/`GridComponent` values stored in `State`, because they carry no data. The two components are the plain functions `InputApply` and `GridApply`. `GridApply` drops the unused `_input` argument.
- Release-build wrap-around on overflow, because the model follows debug-build semantics (a panic, stated as a precondition). The `u32 -> usize` conversion in `get_tile` and `draw` is lossless and is not modelled separately.
- `.clone()` calls and the `PartialEq`/`Debug` derives, because values are immutable and have structural equality in Dafny.
- src/index.js (canvas drawing, keyboard listeners, an async sleep loop and floating-point movement), because it is browser I/O that never calls the Rust code.
- rust/src/lib.rs, because it holds only an external `alert` binding and a `greet` wrapper, with no logic.
- The tests in src/vector.rs never compile (`#[cfg(tests)]`). They are modelled as statements of intent only (`Vector.AddVecZeros`, `Vector.AddVecOnes`, `Vector.AddVecAssignExample`).
