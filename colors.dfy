/**
 * Colours of the grid wall: the tile backgrounds, the two colours the dot
 * module fixes, the palette, and the noise-based stable colour picker
 * `pickStableColor` (sketch.js lines 8-9, 21-24, 67-70).
 */
module Colors {
  import opened NoiseRandom

  type Channel = c: int | 0 <= c < 256

  datatype Rgb = Rgb(r: Channel, g: Channel, b: Channel)

  /** The palette is read-only and never empty; its literal values are not modelled. */
  type Palette = p: seq<Rgb> | |p| > 0 witness [Rgb(0, 0, 0)]

  /** Background of a light tile, `#f5f5f5`. */
  const BG_LIGHT := Rgb(0xf5, 0xf5, 0xf5)
  /** Background of a dark tile, `#000000`. */
  const BG_DARK := Rgb(0x00, 0x00, 0x00)
  /** The plate behind the pink dots on a dark tile, `#f1f1f1`. */
  const PLATE := Rgb(0xf1, 0xf1, 0xf1)
  /** The colour of the pink dots, `#ff3ea5`. */
  const PINK := Rgb(0xff, 0x3e, 0xa5)

  /** The factor the stable picker scales a seed by before adding its salt. */
  const STABLE_SCALE: real := 1.371

  /**
   * `floor(v * n) % n`: the bucket of `n` equal buckets of the unit interval
   * that `v` falls in; the closed right end `v == 1` wraps to bucket 0.
   */
  function StableIndex(v: Unit, n: nat): (i: nat)
    requires n > 0
    ensures i < n
    ensures v < 1.0 ==> i as real <= v * n as real < (i + 1) as real
    ensures v == 1.0 ==> i == 0
  {
    var scaled := v * n as real;
    ScaleWithin(n as real, v);
    assert v < 1.0 ==> scaled < n as real by {
      if v < 1.0 {
        MulPositive(n as real, 1.0 - v);
      }
    }
    scaled.Floor % n
  }

  /**
   * `pickStableColor(pal, seed, k)`: a palette entry chosen by the noise
   * sample at `seed * 1.371 + k`, so that the same seed and salt always give
   * the same colour.
   */
  function PickStableColor(pal: Palette, seed: real, k: int, noise: Noise): (c: Rgb)
    ensures c in pal
  {
    pal[StableIndex(Noise1(noise, seed * STABLE_SCALE + k as real), |pal|)]
  }

  /**
   * The picker is stable: it reads the noise field at one point only, so two
   * noise fields that agree there (in particular the same field, queried at
   * any time and in any order) give the same colour.
   */
  lemma PickStableColorIsStable(pal: Palette, seed: real, k: int, noise: Noise, noise': Noise)
    requires Noise1(noise, seed * STABLE_SCALE + k as real) == Noise1(noise', seed * STABLE_SCALE + k as real)
    ensures PickStableColor(pal, seed, k, noise) == PickStableColor(pal, seed, k, noise')
  {
  }
}
