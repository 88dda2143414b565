/**
 * The six module factories (sketch.js lines 62-197). A factory fixes an
 * instance's colours and options once, from its seed; the instance's `draw`
 * then varies only its "continuous" parameters with time, each read from the
 * noise field and mapped into a fixed range.
 *
 * An instance is a value of `Instance`: its kind and its fixed parameters.
 * `Render` gives the parameters one `draw(s, t)` call hands to p5's drawing
 * primitives; the primitives themselves are not modelled.
 */
module Factories {
  import opened NoiseRandom
  import opened Colors

  datatype Kind = PinkDots | Plus | Stripes | Checker | SolidBlock | Disc

  /** `MODULE_FACTORIES`, in the sketch's order. */
  const FACTORIES: seq<Kind> := [PinkDots, Plus, Stripes, Checker, SolidBlock, Disc]

  /** The salts each factory adds to its seed when it picks a stable colour. */
  const PLUS_SALT := 11
  const STRIPES_SALT := 23
  const CHECKER_SALT := 37
  const BLOCK_SALT := 51
  const DISC_OUTER_SALT := 71
  const DISC_INNER_SALT := 83

  /** A module instance: its seed and the parameters fixed when it was made. */
  datatype Instance =
    | DotsModule(seed: real, isLight: bool)
    | PlusModule(seed: real, color: Rgb)
    | StripesModule(seed: real, color: Rgb, horiz: bool)
    | CheckerModule(seed: real, color: Rgb)
    | BlockModule(seed: real, color: Rgb)
    | DiscModule(seed: real, outer: Rgb, inner: Rgb)

  function KindOf(m: Instance): Kind
  {
    match m
    case DotsModule(_, _) => PinkDots
    case PlusModule(_, _) => Plus
    case StripesModule(_, _, _) => Stripes
    case CheckerModule(_, _) => Checker
    case BlockModule(_, _) => SolidBlock
    case DiscModule(_, _, _) => Disc
  }

  /** The colours an instance paints with, in drawing order. */
  function FixedColors(m: Instance): seq<Rgb>
  {
    match m
    case DotsModule(_, isLight) => if isLight then [PINK] else [PLATE, PINK]
    case PlusModule(_, c) => [c]
    case StripesModule(_, c, _) => [c]
    case CheckerModule(_, c) => [c]
    case BlockModule(_, c) => [c]
    case DiscModule(_, outer, inner) => [outer, inner]
  }

  /**
   * The factory of `kind` applied to `(seed, pal, isLight)`. Only the pink
   * dots read `isLight` (a dark tile gets a light plate behind the dots);
   * every other factory picks its colours from the palette with the stable
   * picker, and the stripes fix their orientation from `noise(seed + 3)`.
   */
  function Make(kind: Kind, seed: real, pal: Palette, isLight: bool, noise: Noise): (m: Instance)
    ensures KindOf(m) == kind && m.seed == seed
    ensures kind == PinkDots ==> m == DotsModule(seed, isLight)
    ensures kind != PinkDots ==> forall c | c in FixedColors(m) :: c in pal
    ensures m.StripesModule? ==> (m.horiz <==> Noise1(noise, seed + 3.0) < 0.5)
    ensures m.PlusModule? ==> m.color == PickStableColor(pal, seed, PLUS_SALT, noise)
    ensures m.StripesModule? ==> m.color == PickStableColor(pal, seed, STRIPES_SALT, noise)
    ensures m.CheckerModule? ==> m.color == PickStableColor(pal, seed, CHECKER_SALT, noise)
    ensures m.BlockModule? ==> m.color == PickStableColor(pal, seed, BLOCK_SALT, noise)
    ensures m.DiscModule? ==>
              m.outer == PickStableColor(pal, seed, DISC_OUTER_SALT, noise) &&
              m.inner == PickStableColor(pal, seed, DISC_INNER_SALT, noise)
  {
    match kind
    case PinkDots => DotsModule(seed, isLight)
    case Plus => PlusModule(seed, PickStableColor(pal, seed, PLUS_SALT, noise))
    case Stripes =>
      StripesModule(seed, PickStableColor(pal, seed, STRIPES_SALT, noise), Noise1(noise, seed + 3.0) < 0.5)
    case Checker => CheckerModule(seed, PickStableColor(pal, seed, CHECKER_SALT, noise))
    case SolidBlock => BlockModule(seed, PickStableColor(pal, seed, BLOCK_SALT, noise))
    case Disc =>
      DiscModule(seed, PickStableColor(pal, seed, DISC_OUTER_SALT, noise),
                 PickStableColor(pal, seed, DISC_INNER_SALT, noise))
  }

  /** Whether two noise fields agree at the one-argument sample `noise(x)`. */
  predicate AgreeAt(noise: Noise, noise': Noise, x: real)
  {
    Noise1(noise, x) == Noise1(noise', x)
  }

  /**
   * Factories are stable: an instance depends on the noise field only at the
   * stable picker's points `seed * 1.371 + salt` and at the stripes'
   * orientation sample `seed + 3`, so two fields that agree there make the
   * same instance, whenever and in whatever order the factory runs.
   */
  lemma MakeIsStable(kind: Kind, seed: real, pal: Palette, isLight: bool, noise: Noise, noise': Noise)
    requires AgreeAt(noise, noise', seed * STABLE_SCALE + PLUS_SALT as real)
    requires AgreeAt(noise, noise', seed * STABLE_SCALE + STRIPES_SALT as real)
    requires AgreeAt(noise, noise', seed * STABLE_SCALE + CHECKER_SALT as real)
    requires AgreeAt(noise, noise', seed * STABLE_SCALE + BLOCK_SALT as real)
    requires AgreeAt(noise, noise', seed * STABLE_SCALE + DISC_OUTER_SALT as real)
    requires AgreeAt(noise, noise', seed * STABLE_SCALE + DISC_INNER_SALT as real)
    requires AgreeAt(noise, noise', seed + 3.0)
    ensures Make(kind, seed, pal, isLight, noise) == Make(kind, seed, pal, isLight, noise')
  {
    match kind
    case PinkDots =>
    case Plus =>
      PickStableColorIsStable(pal, seed, PLUS_SALT, noise, noise');
    case Stripes =>
      PickStableColorIsStable(pal, seed, STRIPES_SALT, noise, noise');
    case Checker =>
      PickStableColorIsStable(pal, seed, CHECKER_SALT, noise, noise');
    case SolidBlock =>
      PickStableColorIsStable(pal, seed, BLOCK_SALT, noise, noise');
    case Disc =>
      PickStableColorIsStable(pal, seed, DISC_OUTER_SALT, noise, noise');
      PickStableColorIsStable(pal, seed, DISC_INNER_SALT, noise, noise');
  }

  /** What one `draw(s, t)` call of an instance paints. */
  datatype Frame =
    | DotsFrame(plate: bool, dot: Rgb, cols: int)
    | PlusFrame(color: Rgb, thick: real)
    | StripesFrame(color: Rgb, horiz: bool, bands: int)
    | CheckerFrame(color: Rgb, cellsPerSide: int)
    | BlockFrame(color: Rgb, width: real, offset: real)
    | DiscFrame(outer: Rgb, inner: Rgb)

  function FrameKind(f: Frame): Kind
  {
    match f
    case DotsFrame(_, _, _) => PinkDots
    case PlusFrame(_, _) => Plus
    case StripesFrame(_, _, _) => Stripes
    case CheckerFrame(_, _) => Checker
    case BlockFrame(_, _, _) => SolidBlock
    case DiscFrame(_, _) => Disc
  }

  /** The colours a frame paints with, in drawing order. */
  function FrameColors(f: Frame): seq<Rgb>
  {
    match f
    case DotsFrame(plate, dot, _) => if plate then [PLATE, dot] else [dot]
    case PlusFrame(c, _) => [c]
    case StripesFrame(c, _, _) => [c]
    case CheckerFrame(c, _) => [c]
    case BlockFrame(c, _, _) => [c]
    case DiscFrame(outer, inner) => [outer, inner]
  }

  /**
   * `floor(map(v, 0, 1, lo, hi))`, the integer form of a time-varying count:
   * it stays in `[lo, hi]` and reaches `hi` only for a noise sample of 1.
   */
  function FlooredMap(v: Unit, lo: int, hi: int): (n: int)
    requires lo < hi
    ensures lo <= n <= hi
    ensures n == hi <==> v == 1.0
  {
    MapUnit(v, lo as real, hi as real).Floor
  }

  /** Range of the dot grid's column count (sketch.js line 75). */
  const DOT_COLS_MIN := 3
  const DOT_COLS_MAX := 6
  /** Range of the stripe count (sketch.js line 117). */
  const STRIPES_MIN := 3
  const STRIPES_MAX := 9
  /** Range of the checker's cell count per side (sketch.js line 140). */
  const CHECKER_MIN := 3
  const CHECKER_MAX := 6

  /**
   * `draw(s, t)` of an instance: the colours are the ones fixed at creation,
   * whatever the time, and every time-varying parameter stays in its range.
   */
  function Render(m: Instance, s: real, t: real, noise: Noise): (f: Frame)
    ensures FrameKind(f) == KindOf(m)
    ensures FrameColors(f) == FixedColors(m)
    ensures f.DotsFrame? ==> DOT_COLS_MIN <= f.cols <= DOT_COLS_MAX
    ensures f.StripesFrame? ==> STRIPES_MIN <= f.bands <= STRIPES_MAX && f.horiz == m.horiz
    ensures f.CheckerFrame? ==> CHECKER_MIN <= f.cellsPerSide <= CHECKER_MAX
    ensures f.PlusFrame? && 0.0 <= s ==> 0.12 * s <= f.thick <= 0.32 * s
    ensures f.BlockFrame? && 0.0 <= s ==>
              0.45 * s <= f.width <= 0.95 * s && -0.2 * s <= f.offset <= 0.2 * s
  {
    match m
    case DotsModule(seed, isLight) =>
      DotsFrame(!isLight, PINK, FlooredMap(noise(seed, t * 0.3), DOT_COLS_MIN, DOT_COLS_MAX))
    case PlusModule(seed, c) =>
      PlusFrame(c, MapUnit(noise(seed + 1.0, t * 0.25), s * 0.12, s * 0.32))
    case StripesModule(seed, c, horiz) =>
      StripesFrame(c, horiz, FlooredMap(noise(seed + 2.0, t * 0.15), STRIPES_MIN, STRIPES_MAX))
    case CheckerModule(seed, c) =>
      CheckerFrame(c, FlooredMap(noise(seed + 4.0, t * 0.2), CHECKER_MIN, CHECKER_MAX))
    case BlockModule(seed, c) =>
      BlockFrame(c, MapUnit(noise(seed + 5.0, t * 0.18), s * 0.45, s * 0.95),
                 MapUnit(noise(seed + 6.0, t * 0.1), -s * 0.2, s * 0.2))
    case DiscModule(_, outer, inner) =>
      DiscFrame(outer, inner)
  }

  /**
   * No flicker: two draws of one instance at any two times paint with the
   * same colours, and the stripes keep their orientation.
   */
  lemma RenderKeepsFixedParameters(m: Instance, s: real, t: real, t': real, noise: Noise)
    ensures FrameColors(Render(m, s, t, noise)) == FrameColors(Render(m, s, t', noise))
    ensures m.StripesModule? ==> Render(m, s, t, noise).horiz == Render(m, s, t', noise).horiz
  {
  }

  /**
   * A pink-dots draw whose density sample `noise(seed, t * 0.3)` is one half
   * lays out `floor(0.5 * 3 + 3) == 4` columns of dots.
   */
  lemma DotColumnsAtHalf(seed: real, isLight: bool, s: real, t: real, noise: Noise)
    requires noise(seed, t * 0.3) == 0.5
    ensures Render(DotsModule(seed, isLight), s, t, noise).cols == 4
  {
  }
}
