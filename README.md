# Grid wall (anti-strobe colours): a Dafny model

This project models the logic of a p5.js sketch, `sketch.js`. The sketch draws a wall of square tiles. Each tile shows one procedural pattern, called a module, and cross-fades to a newly made module from time to time. The model covers five parts:

- **Noise and random stand-ins** (`random.dfy`, module `NoiseRandom`). p5's `noise` is any deterministic function into `[0, 1]`. Each call to `random` is the value it returned, passed in by the caller and bounded to p5's half-open range. The module also holds p5's `map` over the unit interval, `constrain`, and the sketch's helpers `rndi` and `pick`.
- **Colours** (`colors.dfy`, module `Colors`). The tile backgrounds, the two constant colours of the pink-dots module, a non-empty palette, and the stable picker `pickStableColor`.
- **Module factories** (`factories.dfy`, module `Factories`). The six pattern kinds. Each `Instance` is a kind tag plus the parameters its factory fixed from the seed. `Render` gives what one `draw(s, t)` call paints: the fixed colours plus the time-varying counts and sizes.
- **Tiles** (`cells.dfy`, module `Cells`). The `createCell` closure, modelled as class `Tile`, whose methods update `phase`, `t0`, `curr` and `next` in place. Each method is proved against a pure specification: `Spawn` for creation, `Switch` for `shouldSwitch`, and `View` for what `drawCell` paints. `Crossfade` gives the two opacities. `Run` applies `Switch` once per frame over a sequence of frames.
- **Grid** (`grid.dfy`, module `Wall`). The globals `cols`, `rows` and `cells`, modelled as class `Grid`. `initGrid` empties `cells` and fills it row by row with new tiles.

Time is the integer `frameCount`, passed as a parameter. Real-valued quantities such as sizes, opacities and noise samples are exact Dafny `real`s.

The model follows the sketch's code in these details, which are easy to misread:

- A new tile's start offset is `rndi(0, 100)`. That covers `[0, 100]` with both ends included.
- The hold jitter `rndi(-10, 10)` is drawn again at every frame while the tile holds. It is not fixed once per hold.
- A fade ends when `frameCount - t0 > FADE_FRAMES`, a strict test. A fade that starts at frame 101 therefore ends at frame 152, not 151 (`HoldFadeHoldScenario`).
- When a fade ends, `next` is left equal to the new `curr`. It is not cleared.
- The sketch's tile side is 204 pixels.

## Model

| member | source | states |
|---|---|---|
| NoiseRandom.MapUnit | sketch.js:75 | p5 `map(v, 0, 1, lo, hi)` returns `lo` at 0 and `hi` at 1, and stays within `[lo, hi]` for every unit sample |
| NoiseRandom.Constrain | sketch.js:247-248 | `constrain(n, low, high)` lies in `[low, high]`, leaves values already in range unchanged, and saturates at either end |
| NoiseRandom.Rndi | sketch.js:17 | `rndi(a, b)` is an integer in `[a, b]`, both ends included, and is the floor of the underlying draw |
| NoiseRandom.PickIndex | sketch.js:18 | the index `pick` reads is below the length of the list and is the floor of the draw |
| NoiseRandom.Pick | sketch.js:18 | `pick(a)` returns an element of `a` |
| Colors.StableIndex | sketch.js:22 | `floor(v * n) % n` is in `[0, n)`; it is the bucket containing `v` for `v < 1`, and 0 for `v == 1` |
| Colors.PickStableColor | sketch.js:21-24 | the stable picker always returns a palette entry |
| Colors.PickStableColorIsStable | sketch.js:21-24 | the picked colour depends only on the noise sample at `seed * 1.371 + k`, so the same seed and salt always give the same colour |
| Factories.Make | sketch.js:67-197 | a factory makes an instance of its own kind with the given seed; pink dots keep `isLight`; every other colour is the stable pick for its factory's salt (11 plus, 23 stripes, 37 checker, 51 block, 71 and 83 disc), hence a palette entry; the stripes are horizontal exactly when `noise(seed + 3) < 0.5` |
| Factories.MakeIsStable | sketch.js:95-197 | two noise fields that agree at the stable-pick points `seed * 1.371 + salt` and at `seed + 3` make the same instance, so a factory's choices never depend on when it runs |
| Factories.FlooredMap | sketch.js:75 | `floor(map(v, 0, 1, lo, hi))` stays in `[lo, hi]` and reaches `hi` exactly when the noise sample is 1; the dot columns (line 75, `[3, 6]`), the stripe count (line 117, `[3, 9]`) and the checker count (line 140, `[3, 6]`) are this count |
| Factories.Render | sketch.js:72-186 | a draw paints the instance's kind with exactly the colours fixed at creation, keeps the stripe orientation, and keeps every counted or sized parameter in its range (plus thickness in `[0.12s, 0.32s]`, block width in `[0.45s, 0.95s]` and offset in `[-0.2s, 0.2s]`) |
| Factories.RenderKeepsFixedParameters | sketch.js:96-136 | two draws of one instance at any two times use the same colours and the same stripe orientation (no flicker) |
| Factories.DotColumnsAtHalf | sketch.js:75 | a pink-dots draw whose density sample `noise(seed, t * 0.3)` is 0.5 lays out 4 dot columns |
| Cells.MakeInstance | sketch.js:206-209 | `makeInstance` keeps the factory seed, its kind is `MODULE_FACTORIES` at the drawn index, and the instance is exactly what that factory makes from the seed, palette and shade |
| Cells.Spawn | sketch.js:203-214 | a new cell holds, has `t0` in `[frameCount, frameCount + HOLD_FRAMES]`, has `curr` equal to `makeInstance(seed)` and `next` equal to `makeInstance(seed + 77)` with their own draws, and starts paced |
| Cells.Switch | sketch.js:216-226 | Hold turns into Fade exactly when `frameCount - t0 > HOLD_FRAMES + jitter`, keeping `curr` and making a new `next` from `seed + frameCount + 123`; Fade turns into Hold exactly when `frameCount - t0 > FADE_FRAMES`, with `curr := next`; a transition sets `t0 := frameCount`; without a transition nothing changes |
| Cells.SwitchOncePerFrame | sketch.js:216-226 | after a transition, a second check in the same frame changes nothing, whatever it draws: at most one transition per frame |
| Cells.Crossfade | sketch.js:246-248 | `aCurr + aNext == 1` with both in `[0, 1]`; holding gives `aNext == 0`; fading, `aNext > 0` exactly after the first fade frame, `aNext == 1` exactly from `FADE_FRAMES` on, and `aNext` is the elapsed fraction in between |
| Cells.View | sketch.js:228-263 | a drawn cell has its fixed background and a rotation within `PI/8` of zero; `curr` is drawn at the `Crossfade` opacity `aCurr` as `Render` gives it at time `frameCount / 60`; `next` is drawn on top, rendered at the same time at opacity `aNext`, exactly while fading after the first frame; both paint their fixed colours |
| Cells.SwitchKeepsPace | sketch.js:216-226 | one check per frame keeps the pacing invariant: a hold has lasted at most `HOLD_FRAMES + 10` frames, a fade between 0 and `FADE_FRAMES` frames |
| Cells.RunKeepsPace | sketch.js:216-226 | a paced tile that is checked once per frame stays paced over any number of frames |
| Cells.PacedFadeIsUnclamped | sketch.js:246-248 | in a paced fade the weight is exactly `(frameCount - t0) / FADE_FRAMES`, so the clamp never cuts it |
| Cells.SwitchesAreSeamless | sketch.js:216-248 | a fade starts with the new `next` invisible, and ends only after a frame that showed `next` at full opacity, which then stays on as `curr` at full opacity |
| Cells.RunAppend | sketch.js:216-226 | checking over two runs of frames one after the other is the same as checking over their concatenation |
| Cells.QuietHold | sketch.js:217-220 | a hold that no check's jittered limit ends leaves the tile unchanged |
| Cells.QuietFade | sketch.js:221-225 | a fade checked at most `FADE_FRAMES` frames after it began leaves the tile unchanged |
| Cells.HoldFadeHoldScenario | sketch.js:216-226 | a tile holding since frame 0 and checked once per frame from frame 1 with jitter 0 is unchanged through frame 100, fades at frame 101 with a new `next`, is unchanged through frame 151 with `next` fully visible, and holds again at 152 with that `next` as `curr` |
| Cells.Tile.constructor | sketch.js:203-214 | `createCell` fixes the position, size, shade and seed, and starts in the state `Spawn` gives |
| Cells.Tile.ShouldSwitch | sketch.js:216-226 | updates the tile's mutable state in place exactly as `Switch` prescribes |
| Cells.Tile.DrawCell | sketch.js:228-263 | checks for a switch first, then returns what `View` paints for the updated state |
| Cells.Tile.Paint | sketch.js:231-262 | the painting part of `drawCell` returns exactly what `View` gives for the tile's current state, changing nothing |
| Wall.CeilDiv | sketch.js:47-48 | `ceil(a / b)` is the least count of `b`-pixel cells that covers `a` pixels |
| Wall.LayoutAt | sketch.js:51-58 | the row-major layout has `cols * rows` positions, with `(i, j)` at index `j * cols + i` |
| Wall.BuiltLayoutAt | sketch.js:51-58 | tiles built along the row-major layout put tile `(i, j)` at index `j * cols + i` |
| Wall.Grid.constructor | sketch.js:11-13 | before the first `initGrid` there are no tiles |
| Wall.Grid.InitGrid | sketch.js:46-60 | sets `cols = ceil(width / CELL)` and `rows = ceil(height / CELL)`; replaces all tiles with `max(cols, 0) * max(rows, 0)` new, distinct tiles; puts tile `(i, j)` at index `j * cols + i`, at `(i * CELL, j * CELL)`, light exactly when `noise(i * 0.08, j * 0.08) > 0.6`; starts each tile as `Spawn` gives |
| Wall.Grid.PushRow | sketch.js:52-57 | the inner loop appends row `j` to the tiles already built, leaving each of them in place and adding only new tiles |
| Wall.Grid.PushTile | sketch.js:53-56 | one step of the inner loop creates the tile for `(i, j)` from the next draw and appends it as a new tile, leaving the earlier tiles unchanged |
| Wall.GridScenario | sketch.js:47-48 | a 1000 by 600 canvas gets 5 columns, 3 rows and 15 tiles |

## Left out

- Drawing primitives and transforms are not modelled: `push`/`pop`, `rect`, `circle`, `line`, `translate`, `rotate`, `rectMode`, `strokeWeight`, `drawingContext.globalAlpha`, and `background`, including the `background(BG_DARK)` at the end of `initGrid`. They are rendering calls with no result. Of their arguments, the model keeps the colours and their drawing order, the dot, stripe and checker counts, the two opacities, the rotation, the plus thickness, and the block width and offset.
- Floating-point geometry is not modelled: the dot positions and radius, the stripe and checker line positions, the stroke weight, the disc diameters and the corner radii (sketch.js:76-89, 122-128, 141-149, 181-183). The model uses exact reals.
- Sizes and positions passed to the primitives are not modelled: the tile's background square `rect(x, y, s + 1, s + 1)` with its one-pixel overlap (sketch.js:236), the `translate(x + s / 2, y + s / 2)` to the tile centre (sketch.js:241), the plus arm length `s * 0.84` (sketch.js:104-105) and the `s * 0.98` extents of the dot plate, the stripes and the block (sketch.js:81, 124, 128, 166). They are fixed arithmetic on the tile size that the sketch passes straight to drawing calls.
- The rotation is expressed in multiples of `PI`, because Dafny has no real constant `PI`.
- Canvas and window plumbing is not modelled: `setup`, `createCanvas`, `pixelDensity`, `windowResized`/`resizeCanvas`, and the `draw` main loop that calls every cell's `draw` once per frame. These are host I/O. A resize or a reshuffle is a call to `Grid.InitGrid`.
- `keyPressed` and `saveCanvas` are not modelled. They are user input and file output.
- The implementations of p5's `noise` and `random` are not modelled. They appear only through their ranges. That a draw is uniform cannot be stated, so `Cells.MakeInstance` says which factory a draw selects, not how likely each one is.
- The literal palette values are not modelled (sketch.js:30-37). The palette is any non-empty sequence of colours.
- Canvas dimensions are integers, as browser windows report them. A negative dimension, which p5 never produces, gives a negative `cols` or `rows` exactly as `ceil` does. The tile count is then `max(cols, 0) * max(rows, 0)`.
