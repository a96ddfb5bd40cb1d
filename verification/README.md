# Platformer movement, collision and tile grid

A Dafny model of the simulation core of a small Java side-scrolling platformer.
It covers two classes:

- **TileMap** (`tile_map.dfy`, module `TileGrid`). A level is described by text lines. Lines starting with `#` are comments and are dropped. The kept lines are stored in order. The grid width is the length of the longest kept line and the height is the number of kept lines. A `height × width` grid is then filled: `'A'` becomes tile `A`, `'B'` becomes tile `B`, and any other character becomes `Empty` (Java `null`). Cells are read and overwritten by (row, column), with the row as the first index, as in `tiles[x][y]`.
- **Entity** (`entity.dfy`, module `Kinematics`). An entity has a real-valued position `(x, y)`, a velocity `(dx, dy)` in units per second, a sprite size, and integer bounding edges. One tick of `move(delta)` runs these steps in order:
  1. It recomputes the edges from the current position by `(int)` truncation.
  2. It zeroes `dx` through an ordered cascade: the world bounds (`x < 0`, `x > 950`), then the left and right tile probes.
  3. It zeroes `dy` when the entity is blocked above. In that case it also tells the game controller to stop the jump. Otherwise it zeroes `dy` when there is a tile below and the controller is not jumping.
  4. It integrates `x += delta*dx/1000` and `y += delta*dy/1000`.

  `collidesWith` is rectangle intersection on the truncated positions and the sprite sizes.

The Java `TileMap` constructor is modelled in two parts:

- The Dafny `TileMap` constructor reads the lines and allocates the grid.
- `FillMap` fills the grid.

`Load` runs both. It returns an error when `charAt` would throw on a short row.

`Move` is proved against the pure functions `ClampHorizontal`, `ClampVertical` and `Integrate`. The properties of the tick are stated about those functions.

Inputs that the source gets from code outside this core:

- **Tile probes.** The four `isTile*` probes are abstract in the source. They are a parameter `TileContact` of four functions from the edges to `bool`. `Move` applies them to the edges it has just recomputed.
- **Game controller.** It is reduced to the `jumping` input of `Move`. The `stopJumping()` notification becomes `Move`'s `stoppedJumping` result.
- **Sprite sizes.** They are constructor parameters (natural numbers).
- **Map resource.** It is given as the sequence of lines it contains.

Three points where a reader might expect other behaviour than the code has:

- **Short rows.** One might expect short rows to be padded with empty cells. The code reads `line.charAt(x)` for every `x < width`, so a kept line shorter than the longest one throws. `FillMap` and `Load` model this as a `RowTooShort` error, and `RowsFullIffRectangular` shows that loading succeeds only when all kept lines have the same length.
- **Bounding edges.** One might expect the edges to equal `floor(x)` of the position after a tick. The code computes them with `(int)` truncation toward zero, before the position is integrated. `Move` states `left == Trunc(old(x))`, and `TruncVersusFloor` says where truncation and flooring differ.
- **Index order.** The code's `getTile(x, y)` returns `tiles[x][y]`, where the first index is the row, although its parameter names suggest (column, row). The model names the parameters `row` and `col`.

## Model

| member | source | states |
|---|---|---|
| `TileGrid.Retained` | TileMap.java:99-102 | The kept lines are never more than the input lines, and none of them starts with `#`. |
| `TileGrid.RetainedConcat` | TileMap.java:99-102 | Filtering out comment lines distributes over concatenation, so the kept lines keep their relative order. |
| `TileGrid.RetainedMembers` | TileMap.java:99-102 | A line is kept if and only if it occurs in the input and does not start with `#`. |
| `TileGrid.MaxWidth` | TileMap.java:104 | The width is at least every row's length, equals some row's length, and is 0 when there are no rows. |
| `TileGrid.ReadMap` | TileMap.java:90-109 | The read loop keeps exactly the non-comment lines in order. Its running `Math.max` ends at the longest kept line's length. The height is the number of kept lines. |
| `TileGrid.RowsFullIffRectangular` | TileMap.java:48-51 | Every kept line is long enough for `charAt(x)`, for all `x < width`, if and only if every kept line has length exactly `width`. |
| `TileGrid.TileOf` | TileMap.java:54-63 | The character maps to tile `A` iff it is `'A'`, to `B` iff it is `'B'`, and to `Empty` iff it is neither. |
| `TileGrid.ExampleDescription` | TileMap.java:99-109 | `["AAB", "# comment", " B "]` keeps two rows, and its width is 3. |
| `TileGrid.TileMap.constructor` | TileMap.java:13-25 | The configuration is the kept lines. The width is their maximum length and the height is their count. A fresh `height × width` grid of empty cells is allocated. |
| `TileGrid.TileMap.GetWidth` | TileMap.java:27-29 | Returns the grid's column count, which is the longest kept line's length. |
| `TileGrid.TileMap.GetHeight` | TileMap.java:31-33 | Returns the grid's row count, which is the number of kept lines. |
| `TileGrid.TileMap.GetTile` | TileMap.java:37-39 | Returns the cell at (row, col). It succeeds iff `0 <= row < height` and `0 <= col < width`, and otherwise gives an index error. |
| `TileGrid.TileMap.SetTile` | TileMap.java:41-43 | Inside the grid, the method changes exactly that one cell, and `GetTile` then returns the new tile. Outside the grid, it fails and changes nothing. |
| `TileGrid.TileMap.FillMap` | TileMap.java:46-68 | The fill succeeds iff every kept line is at least `width` long. Every cell it has written holds `TileOf` of the corresponding character. On failure it reports the first short line and the column `charAt` failed at. Cells it did not reach keep their old contents. |
| `TileGrid.Load` | TileMap.java:13-25 | Construction succeeds iff all kept lines are long enough. Each cell (y, x) of the new map then reads `TileOf(kept[y][x])`. Otherwise the error names the first short line. |
| `Kinematics.Trunc` | Entity.java:53-55 | An `(int)` cast truncates toward zero: for `r >= 0` the result is the largest integer `<= r`, and for `r < 0` the smallest integer `>= r`. |
| `Kinematics.TruncVersusFloor` | Entity.java:53-55 | Truncation equals flooring iff the value is non-negative or an integer. |
| `Kinematics.ClampHorizontal` | Entity.java:57-65 | The result is either 0 or the old `dx`. It is 0 exactly when `dx` is 0, or `dx` moves left with `x < 0` or a tile to the left, or `dx` moves right with `x > 950` or a tile to the right. The order of the cascade therefore does not matter. |
| `Kinematics.RightBoundStops` | Entity.java:59-60 | An entity past `x = 950` that moves right gets `dx = 0`, whatever the tile probes say. |
| `Kinematics.ClampVertical` | Entity.java:66-71 | The jump-stop signal is raised iff `dy < 0` and there is a tile above. The result is either 0 or the old `dy`. It is 0 exactly when `dy` is 0, or the entity is blocked above while moving up, or there is a tile below and the controller is not jumping. |
| `Kinematics.Integrate` | Entity.java:74-75 | A zero velocity or a zero delta leaves the coordinate unchanged. With a non-negative delta, the coordinate moves in the direction of the velocity. |
| `Kinematics.IntegrateSplit` | Entity.java:74-75 | At constant velocity, a tick of `t1` ms followed by a tick of `t2` ms lands on the same position as one tick of `t1 + t2` ms. |
| `Kinematics.IntersectsIffCommonCell` | Entity.java:133-138 | Two rectangles with the documented intersection semantics intersect iff some unit cell lies in both. Empty rectangles and rectangles that only touch never intersect. |
| `Kinematics.Entity.constructor` | Entity.java:38-42 | A new entity sits at the given integer position, with zero velocity and the given sprite size. |
| `Kinematics.Entity.Move` | Entity.java:50-76 | The edges are the truncated pre-move position plus the sprite size. `dx` and `dy` (with the jump-stop signal) are the clamps applied to the probes at those edges. The position is integrated with the clamped velocities. |
| `Kinematics.Entity.SetHorizontalMovement` | Entity.java:79-81 | `GetHorizontalMovement` then returns the value set. Only `dx` changes. |
| `Kinematics.Entity.SetVerticalMovement` | Entity.java:83-85 | `GetVerticalMovement` then returns the value set. Only `dy` changes. |
| `Kinematics.Entity.GetHorizontalMovement` | Entity.java:87-89 | Returns the horizontal velocity `dx`. After `SetHorizontalMovement(v)` it returns `v`. |
| `Kinematics.Entity.GetVerticalMovement` | Entity.java:91-93 | Returns the vertical velocity `dy`. After `SetVerticalMovement(v)` it returns `v`. |
| `Kinematics.Entity.GetX` | Entity.java:96-98 | Returns `x` truncated toward zero, as characterised by `Trunc`. |
| `Kinematics.Entity.GetY` | Entity.java:100-102 | Returns `y` truncated toward zero, as characterised by `Trunc`. |
| `Kinematics.Entity.CollidesWith` | Entity.java:133-138 | Two entities collide iff their integer-position, sprite-size rectangles share a unit cell. As a function it changes no state. |
| `Kinematics.CollidesWithSymmetric` | Entity.java:133-138 | `a.CollidesWith(b) == b.CollidesWith(a)`. |

## Left out

- Opening the map resource, reading it with `BufferedReader`, and the exception handler that swallows read failures (TileMap.java:74-112) are I/O. The model starts from the list of lines. An unreadable resource therefore corresponds to the empty list, which gives width and height 0. A read that fails part-way, which can leave `width` set while `height` stays 0, is not modelled.
- The console echo of each tile in `fillMap` is output only.
- Loading the tile and entity sprites from the sprite store is a foreign call. Tiles are the values `A`, `B` and `Empty`, and sprite sizes are constructor parameters. `Entity.getHeight` only returns the sprite's height, which is the field `spriteHeight` here.
- `draw` is rendering, `doLogic` is an empty hook, and `collidedWith` is an abstract notification with no behaviour.
- The concrete `isTileAbove/Below/Left/Right` probes are not part of this model. They are abstract in the core and come in as the `TileContact` functions.
- The game controller is not part of this model. Only its jump state (an input) and the `stopJumping` notification (an output) appear. What `stopJumping` does to the controller is not modelled.
- Coordinates and velocities are mathematical reals. IEEE double rounding, saturation of `(int)` casts on huge values, and 32-bit overflow in `left + width` and in the rectangle sums (including the overflow branch of the library's rectangle test) are not modelled.
- `Kinematics.Entity.Move`: the tile probes are treated as side-effect free. Evaluating them lazily, only when their branch is reached as in Java, therefore gives the same result.
- `TileGrid.Load`, `TileGrid.TileMap.FillMap`, `TileGrid.MaxWidth`: line lengths and column indices count Unicode scalar values, not the UTF-16 code units that `String.length()` and `charAt` count. A character outside the Basic Multilingual Plane counts once here and twice in Java. Such a character can change `width`, and it can turn a load that succeeds in Java into `RowTooShort`: `["AAA", "A😀"]` has width 3 and loads in Java, but fails here. Only descriptions without such characters are modelled exactly.
