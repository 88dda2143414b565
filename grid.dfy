/**
 * The wall of tiles, `initGrid` (sketch.js lines 46-60): the global `cols`,
 * `rows` and `cells`, rebuilt from scratch on start-up, on every resize and
 * on the reshuffle key.
 */
module Wall {
  import opened NoiseRandom
  import opened Colors
  import opened Cells

  /** Side of a tile in pixels, `CELL`. */
  const CELL := 204
  /** Scale of the grid coordinates fed to the noise field, `NOISE_SCALE`. */
  const NOISE_SCALE: real := 0.08
  /** A tile is light when its noise sample exceeds this threshold. */
  const LIGHT_THRESHOLD: real := 0.6

  /**
   * `ceil(a / b)` for a positive divisor: the least `c` with `a <= c * b`,
   * so `c` cells of side `b` cover `a` pixels and `c - 1` do not.
   */
  function CeilDiv(a: int, b: int): (c: int)
    requires b > 0
    ensures (c - 1) * b < a <= c * b
  {
    var q := (-a) / b;
    assert -a == q * b + (-a) % b;
    -q
  }

  function Max0(n: int): nat
  {
    if n < 0 then 0 else n
  }

  /** The grid position of a tile. */
  datatype Spot = Spot(i: int, j: int)

  /** Row `j`: its `cols` positions from left to right. */
  function Row(cols: nat, j: int): (r: seq<Spot>)
    ensures |r| == cols
    ensures forall i :: 0 <= i < cols ==> r[i] == Spot(i, j)
  {
    seq(cols, i => Spot(i, j))
  }

  /** The positions of `rows` rows of `cols` tiles, in row-major order. */
  function Layout(cols: nat, rows: nat): seq<Spot>
  {
    if rows == 0 then [] else Layout(cols, rows - 1) + Row(cols, rows - 1)
  }

  /** The row-major index of the tile at column `i`, row `j`. */
  function Index(cols: int, i: int, j: int): int
  {
    j * cols + i
  }

  /** The row-major layout holds `cols * rows` positions, `(i, j)` at index `j * cols + i`. */
  lemma {:induction false} LayoutAt(cols: nat, rows: nat)
    ensures |Layout(cols, rows)| == cols * rows
    ensures forall i, j :: 0 <= i < cols && 0 <= j < rows ==>
              0 <= Index(cols, i, j) < |Layout(cols, rows)| && Layout(cols, rows)[Index(cols, i, j)] == Spot(i, j)
  {
    if rows > 0 {
      LayoutAt(cols, rows - 1);
      var prev := Layout(cols, rows - 1);
      assert |Layout(cols, rows)| == cols * (rows - 1) + cols == cols * rows;
      forall i, j | 0 <= i < cols && 0 <= j < rows
        ensures 0 <= Index(cols, i, j) < |Layout(cols, rows)| && Layout(cols, rows)[Index(cols, i, j)] == Spot(i, j)
      {
        if j == rows - 1 {
          assert Index(cols, i, j) == |prev| + i;
        }
      }
    }
  }

  /** `noise(i * NOISE_SCALE, j * NOISE_SCALE) > 0.6`: whether tile `(i, j)` is light. */
  predicate IsLightAt(noise: Noise, i: int, j: int)
  {
    noise(i as real * NOISE_SCALE, j as real * NOISE_SCALE) > LIGHT_THRESHOLD
  }

  /** A tile sits at the pixel position of grid position `p`, with that position's shade. */
  predicate Placed(t: Tile, p: Spot, noise: Noise)
  {
    t.x == p.i * CELL && t.y == p.j * CELL && t.size == CELL && t.isLight == IsLightAt(noise, p.i, p.j)
  }

  /** The tiles were created, in order, at the positions `spots`, the `k`-th from draw `rng(k)`. */
  ghost predicate Built(cells: seq<Tile>, spots: seq<Spot>, frameCount: int, pal: Palette, noise: Noise,
                        rng: nat -> Draws)
    requires forall n :: ValidDraws(rng(n))
    reads cells
  {
    |cells| == |spots| &&
    forall k :: 0 <= k < |cells| ==>
      Placed(cells[k], spots[k], noise) && cells[k].seed == rng(k).seed &&
      cells[k].State() == Spawn(rng(k), frameCount, cells[k].isLight, pal, noise)
  }

  /** Pushing a tile created at `p` from the next draw extends what was built. */
  lemma BuiltPush(cells: seq<Tile>, spots: seq<Spot>, cell: Tile, p: Spot, frameCount: int, pal: Palette,
                  noise: Noise, rng: nat -> Draws)
    requires forall n :: ValidDraws(rng(n))
    requires Built(cells, spots, frameCount, pal, noise, rng)
    requires Placed(cell, p, noise) && cell.seed == rng(|cells|).seed
    requires cell.State() == Spawn(rng(|cells|), frameCount, cell.isLight, pal, noise)
    ensures Built(cells + [cell], spots + [p], frameCount, pal, noise, rng)
  {
  }

  /** No tile occurs twice. */
  predicate Distinct(cells: seq<Tile>)
  {
    forall a, b :: 0 <= a < b < |cells| ==> cells[a] != cells[b]
  }

  /** A grid built in row-major order holds tile `(i, j)` at index `j * cols + i`. */
  lemma BuiltLayoutAt(cells: seq<Tile>, cols: int, rows: int, frameCount: int, pal: Palette, noise: Noise,
                      rng: nat -> Draws)
    requires forall n :: ValidDraws(rng(n))
    requires Built(cells, Layout(Max0(cols), Max0(rows)), frameCount, pal, noise, rng)
    ensures |cells| == Max0(cols) * Max0(rows)
    ensures forall i, j :: 0 <= i < cols && 0 <= j < rows ==>
              0 <= Index(cols, i, j) < |cells| && Placed(cells[Index(cols, i, j)], Spot(i, j), noise)
  {
    LayoutAt(Max0(cols), Max0(rows));
  }

  /** The sketch's global grid: `cols`, `rows` and the array `cells`. */
  class Grid {
    var cols: int
    var rows: int
    var cells: seq<Tile>

    /** The globals before the first `initGrid`: no tiles yet. */
    constructor ()
      ensures cells == []
    {
      cols, rows, cells := 0, 0, [];
    }

    /**
     * `initGrid()` on a canvas of `width` by `height` pixels at frame
     * `frameCount`; `rng(k)` holds the `random` draws of the `k`-th cell.
     * The previous tiles are all dropped: every tile afterwards is new.
     */
    method InitGrid(width: int, height: int, frameCount: int, pal: Palette, noise: Noise, rng: nat -> Draws)
      requires forall n :: ValidDraws(rng(n))
      modifies this
      ensures cols == CeilDiv(width, CELL) && rows == CeilDiv(height, CELL)
      ensures |cells| == Max0(cols) * Max0(rows)
      ensures forall i, j :: 0 <= i < cols && 0 <= j < rows ==>
                0 <= Index(cols, i, j) < |cells| && Placed(cells[Index(cols, i, j)], Spot(i, j), noise)
      ensures Built(cells, Layout(Max0(cols), Max0(rows)), frameCount, pal, noise, rng)
      ensures forall k :: 0 <= k < |cells| ==> fresh(cells[k])
      ensures Distinct(cells)
    {
      cols := CeilDiv(width, CELL);
      rows := CeilDiv(height, CELL);
      cells := [];
      var j := 0;
      while j < rows
        invariant cols == CeilDiv(width, CELL) && rows == CeilDiv(height, CELL)
        invariant 0 <= j <= Max0(rows)
        invariant Built(cells, Layout(Max0(cols), j), frameCount, pal, noise, rng)
        invariant forall k :: 0 <= k < |cells| ==> fresh(cells[k])
        invariant Distinct(cells)
      {
        PushRow(j, frameCount, pal, noise, rng);
        j := j + 1;
      }
      assert j == Max0(rows);
      BuiltLayoutAt(cells, cols, rows, frameCount, pal, noise, rng);
    }

    /** The inner loop of `initGrid`: pushes the tiles of row `j`, left to right. */
    method PushRow(j: int, frameCount: int, pal: Palette, noise: Noise, rng: nat -> Draws)
      requires forall n :: ValidDraws(rng(n))
      requires 0 <= j
      requires Built(cells, Layout(Max0(cols), j), frameCount, pal, noise, rng)
      requires Distinct(cells)
      modifies this
      ensures cols == old(cols) && rows == old(rows)
      ensures Built(cells, Layout(Max0(cols), j + 1), frameCount, pal, noise, rng)
      ensures |old(cells)| <= |cells| && forall k :: 0 <= k < |old(cells)| ==> cells[k] == old(cells)[k]
      ensures forall k :: |old(cells)| <= k < |cells| ==> fresh(cells[k])
      ensures Distinct(cells)
    {
      ghost var c := Max0(cols);
      ghost var spots := Layout(c, j);
      var i := 0;
      while i < cols
        invariant cols == old(cols) && rows == old(rows)
        invariant 0 <= i <= c
        invariant spots == Layout(c, j) + Row(c, j)[..i]
        invariant Built(cells, spots, frameCount, pal, noise, rng)
        invariant |old(cells)| <= |cells| && forall k :: 0 <= k < |old(cells)| ==> cells[k] == old(cells)[k]
        invariant forall k :: |old(cells)| <= k < |cells| ==> fresh(cells[k])
        invariant Distinct(cells)
      {
        assert Row(c, j)[..i + 1] == Row(c, j)[..i] + [Spot(i, j)];
        PushTile(i, j, spots, frameCount, pal, noise, rng);
        spots := spots + [Spot(i, j)];
        i := i + 1;
      }
      assert Row(c, j)[..i] == Row(c, j);
    }

    /** One step of the inner loop of `initGrid`: creates tile `(i, j)` and pushes it. */
    method PushTile(i: int, j: int, ghost spots: seq<Spot>, frameCount: int, pal: Palette, noise: Noise,
                    rng: nat -> Draws)
      requires forall n :: ValidDraws(rng(n))
      requires Built(cells, spots, frameCount, pal, noise, rng)
      requires Distinct(cells)
      modifies this
      ensures cols == old(cols) && rows == old(rows)
      ensures |cells| == |old(cells)| + 1 && cells == old(cells) + [cells[|old(cells)|]] && fresh(cells[|old(cells)|])
      ensures Built(cells, spots + [Spot(i, j)], frameCount, pal, noise, rng)
      ensures Distinct(cells)
    {
      var isLight := noise(i as real * NOISE_SCALE, j as real * NOISE_SCALE) > LIGHT_THRESHOLD;
      var cell := new Tile(i * CELL, j * CELL, CELL, isLight, rng(|cells|), frameCount, pal, noise);
      BuiltPush(cells, spots, cell, Spot(i, j), frameCount, pal, noise, rng);
      cells := cells + [cell];
    }
  }

  /** A 1000 by 600 canvas holds 5 columns and 3 rows of tiles. */
  lemma GridScenario()
    ensures CeilDiv(1000, CELL) == 5 && CeilDiv(600, CELL) == 3
    ensures Max0(CeilDiv(1000, CELL)) * Max0(CeilDiv(600, CELL)) == 15
  {
  }
}
