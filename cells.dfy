/**
 * One tile of the wall, `createCell` (sketch.js lines 199-266): a stable seed,
 * a hold/fade phase started at frame `t0`, and two module instances, `curr`
 * (shown) and `next` (faded in during a fade).
 *
 * The pure part is the transition function `Switch`, the crossfade weights
 * and the view a frame paints; the class `Tile` holds the closure's mutable
 * variables and its methods update them in place as the source does.
 */
module Cells {
  import opened NoiseRandom
  import opened Colors
  import opened Factories

  /** Frames a crossfade lasts, `FADE_FRAMES`. */
  const FADE_FRAMES := 50
  /** Frames a tile holds before it may change, `HOLD_FRAMES`. */
  const HOLD_FRAMES := 100
  /** Bound of the per-check jitter `rndi(-10, 10)` on the hold time. */
  const JITTER := 10
  /** The seed a tile draws is `random(10000)`. */
  const SEED_RANGE: real := 10000.0
  /** Offsets added to the tile seed for the initial `next` and for later ones. */
  const NEXT_SALT: real := 77.0
  const SWITCH_SALT: real := 123.0

  datatype Phase = Hold | Fade

  /** The closure's mutable variables `phase`, `t0`, `curr` and `next`. */
  datatype TileState = TileState(phase: Phase, t0: int, curr: Instance, next: Instance)

  /** The values of the `random` calls made while a cell is created. */
  datatype Draws = Draws(seed: real, currPick: real, nextPick: real, start: real)

  predicate ValidDraws(d: Draws)
  {
    0.0 <= d.seed < SEED_RANGE &&
    0.0 <= d.currPick < |FACTORIES| as real &&
    0.0 <= d.nextPick < |FACTORIES| as real &&
    0.0 <= d.start < (HOLD_FRAMES + 1) as real
  }

  /**
   * The values of the `random` calls one `shouldSwitch` may make: `jitter` for
   * `rndi(-10, 10)` (read only while holding) and `pick` for the choice of
   * factory (read only on a switch to fading).
   */
  datatype Tick = Tick(jitter: real, pick: real)

  predicate ValidTick(d: Tick)
  {
    -JITTER as real <= d.jitter < (JITTER + 1) as real &&
    0.0 <= d.pick < |FACTORIES| as real
  }

  /** `makeInstance(factorySeed)`: a factory picked uniformly, applied to the seed. */
  function MakeInstance(factorySeed: real, pick: real, pal: Palette, isLight: bool, noise: Noise): (m: Instance)
    requires 0.0 <= pick < |FACTORIES| as real
    ensures m.seed == factorySeed
    ensures KindOf(m) == FACTORIES[PickIndex(|FACTORIES|, pick)]
    ensures m == Make(KindOf(m), factorySeed, pal, isLight, noise)
  {
    Make(Pick(FACTORIES, pick), factorySeed, pal, isLight, noise)
  }

  /**
   * The state of a new cell created at `frameCount`: holding, with its start
   * frame pushed up to `HOLD_FRAMES` into the future so that tiles do not
   * switch together, `curr` made from the seed and `next` from `seed + 77`.
   */
  function Spawn(d: Draws, frameCount: int, isLight: bool, pal: Palette, noise: Noise): (st: TileState)
    requires ValidDraws(d)
    ensures st.phase == Hold
    ensures frameCount <= st.t0 <= frameCount + HOLD_FRAMES
    ensures st.curr.seed == d.seed && st.next.seed == d.seed + NEXT_SALT
    ensures st.curr == MakeInstance(d.seed, d.currPick, pal, isLight, noise)
    ensures st.next == MakeInstance(d.seed + NEXT_SALT, d.nextPick, pal, isLight, noise)
    ensures Paced(st, frameCount)
  {
    TileState(Hold, frameCount + Rndi(0, HOLD_FRAMES, d.start),
              MakeInstance(d.seed, d.currPick, pal, isLight, noise),
              MakeInstance(d.seed + NEXT_SALT, d.nextPick, pal, isLight, noise))
  }

  /**
   * `shouldSwitch()` at frame `f`. Holding, it starts a fade once more than
   * `HOLD_FRAMES` plus a fresh jitter have passed, and makes a new `next`;
   * fading, it returns to holding once more than `FADE_FRAMES` have passed,
   * and the faded-in instance becomes `curr`. Otherwise nothing changes.
   */
  function Switch(st: TileState, seed: real, isLight: bool, f: int, d: Tick, pal: Palette, noise: Noise): (r: TileState)
    requires ValidTick(d)
    ensures r.phase == st.phase ==> r == st
    ensures r.phase != st.phase ==> r.t0 == f
    ensures st.phase == Hold ==>
              (r.phase == Fade <==> f - st.t0 > HOLD_FRAMES + Rndi(-JITTER, JITTER, d.jitter))
    ensures st.phase == Fade ==> (r.phase == Hold <==> f - st.t0 > FADE_FRAMES)
    ensures st.phase == Hold && r.phase == Fade ==>
              r.curr == st.curr &&
              r.next == MakeInstance(seed + f as real + SWITCH_SALT, d.pick, pal, isLight, noise)
    ensures st.phase == Fade && r.phase == Hold ==> r.curr == st.next && r.next == st.next
  {
    if st.phase == Hold && f - st.t0 > HOLD_FRAMES + Rndi(-JITTER, JITTER, d.jitter) then
      TileState(Fade, f, st.curr, MakeInstance(seed + f as real + SWITCH_SALT, d.pick, pal, isLight, noise))
    else if st.phase == Fade && f - st.t0 > FADE_FRAMES then
      TileState(Hold, f, st.next, st.next)
    else
      st
  }

  /**
   * At most one transition per frame: once a check has made a transition, a
   * second check in the same frame, whatever it draws, changes nothing,
   * because the transition restarted the clock and neither guard holds at
   * zero elapsed frames.
   */
  lemma SwitchOncePerFrame(st: TileState, seed: real, isLight: bool, f: int, d: Tick, d': Tick,
                           pal: Palette, noise: Noise)
    requires ValidTick(d) && ValidTick(d')
    requires Switch(st, seed, isLight, f, d, pal, noise).phase != st.phase
    ensures var r := Switch(st, seed, isLight, f, d, pal, noise);
            Switch(r, seed, isLight, f, d', pal, noise) == r
  {
  }

  /** The opacities of `curr` and `next` in one frame. */
  datatype Weights = Weights(aCurr: real, aNext: real)

  /**
   * `k = (frameCount - t0) / FADE_FRAMES` while fading (0 while holding),
   * `aCurr = 1 - constrain(k, 0, 1)` and `aNext = constrain(k, 0, 1)`.
   */
  function Crossfade(phase: Phase, f: int, t0: int): (w: Weights)
    ensures w.aCurr + w.aNext == 1.0
    ensures 0.0 <= w.aCurr <= 1.0 && 0.0 <= w.aNext <= 1.0
    ensures phase == Hold ==> w.aNext == 0.0
    ensures phase == Fade ==> (w.aNext > 0.0 <==> f > t0)
    ensures phase == Fade ==> (w.aNext == 1.0 <==> f - t0 >= FADE_FRAMES)
    ensures phase == Fade && 0 <= f - t0 <= FADE_FRAMES ==>
              w.aNext * FADE_FRAMES as real == (f - t0) as real
  {
    var k := if phase == Fade then (f - t0) as real / FADE_FRAMES as real else 0.0;
    var a := Constrain(k, 0.0, 1.0);
    Weights(1.0 - a, a)
  }

  /** The top layer of a cell: `next`, drawn only when its opacity is positive. */
  datatype Layer = Hidden | Shown(alpha: real, frame: Frame)

  /** What `drawCell` paints after `shouldSwitch`. */
  datatype CellView = CellView(background: Rgb, rotation: real, currAlpha: real, curr: Frame, next: Layer)

  /** The rotation bound `PI / 8`, written as a multiple of `PI`. */
  const ROTATION_TURNS: real := 0.125

  /**
   * The view of a cell in state `st` at frame `f` (time `t = f / 60`): its
   * fixed background, a rotation in `[-PI/8, PI/8]` (in multiples of `PI`),
   * `curr` at opacity `aCurr`, and `next` on top at `aNext` when positive.
   */
  function View(st: TileState, seed: real, isLight: bool, s: real, f: int, noise: Noise): (v: CellView)
    ensures v.background == if isLight then BG_LIGHT else BG_DARK
    ensures -ROTATION_TURNS <= v.rotation <= ROTATION_TURNS
    ensures 0.0 <= v.currAlpha <= 1.0
    ensures v.next.Shown? <==> st.phase == Fade && f > st.t0
    ensures v.next.Shown? ==> v.currAlpha + v.next.alpha == 1.0 && 0.0 < v.next.alpha <= 1.0
    ensures v.next.Hidden? ==> v.currAlpha == 1.0
    ensures FrameKind(v.curr) == KindOf(st.curr) && FrameColors(v.curr) == FixedColors(st.curr)
    ensures v.next.Shown? ==>
              FrameKind(v.next.frame) == KindOf(st.next) && FrameColors(v.next.frame) == FixedColors(st.next)
    ensures var w := Crossfade(st.phase, f, st.t0);
            v.currAlpha == w.aCurr && (v.next.Shown? ==> v.next.alpha == w.aNext)
    ensures v.curr == Render(st.curr, s, f as real / 60.0, noise)
    ensures v.next.Shown? ==> v.next.frame == Render(st.next, s, f as real / 60.0, noise)
  {
    var t := f as real / 60.0;
    var w := Crossfade(st.phase, f, st.t0);
    CellView(if isLight then BG_LIGHT else BG_DARK,
             MapUnit(noise(seed, t * 0.12), -ROTATION_TURNS, ROTATION_TURNS),
             w.aCurr,
             Render(st.curr, s, t, noise),
             if w.aNext > 0.0 then Shown(w.aNext, Render(st.next, s, t, noise)) else Hidden)
  }

  /**
   * The pacing invariant of a tile drawn once per frame, observed after the
   * check at frame `f`: a hold has lasted at most `HOLD_FRAMES + JITTER`
   * frames and a fade between 0 and `FADE_FRAMES` frames.
   */
  predicate Paced(st: TileState, f: int)
  {
    (st.phase == Hold ==> f - st.t0 <= HOLD_FRAMES + JITTER) &&
    (st.phase == Fade ==> 0 <= f - st.t0 <= FADE_FRAMES)
  }

  /** One check per frame keeps the pacing invariant. */
  lemma SwitchKeepsPace(st: TileState, seed: real, isLight: bool, f: int, d: Tick, pal: Palette, noise: Noise)
    requires ValidTick(d) && Paced(st, f - 1)
    ensures Paced(Switch(st, seed, isLight, f, d, pal, noise), f)
  {
  }

  predicate ValidTicks(ticks: seq<Tick>)
  {
    forall k :: 0 <= k < |ticks| ==> ValidTick(ticks[k])
  }

  /** The state after checks at frames `f`, `f + 1`, ..., one per tick. */
  function Run(st: TileState, seed: real, isLight: bool, f: int, ticks: seq<Tick>,
               pal: Palette, noise: Noise): TileState
    requires ValidTicks(ticks)
    decreases |ticks|
  {
    if ticks == [] then st
    else Run(Switch(st, seed, isLight, f, ticks[0], pal, noise), seed, isLight, f + 1, ticks[1..], pal, noise)
  }

  /**
   * Drawn once per frame, a tile stays paced for ever: no hold lasts more
   * than `HOLD_FRAMES + JITTER + 1` frames, and no fade more than
   * `FADE_FRAMES + 1`.
   */
  lemma {:induction false} RunKeepsPace(st: TileState, seed: real, isLight: bool, f: int, ticks: seq<Tick>,
                                        pal: Palette, noise: Noise)
    requires ValidTicks(ticks) && Paced(st, f - 1)
    ensures Paced(Run(st, seed, isLight, f, ticks, pal, noise), f + |ticks| - 1)
    decreases |ticks|
  {
    if ticks != [] {
      SwitchKeepsPace(st, seed, isLight, f, ticks[0], pal, noise);
      RunKeepsPace(Switch(st, seed, isLight, f, ticks[0], pal, noise), seed, isLight, f + 1, ticks[1..], pal, noise);
    }
  }

  /**
   * A paced fade never needs its clamp: the fade weight is exactly
   * `(f - t0) / FADE_FRAMES`, rising from 0 to 1 over the fade.
   */
  lemma PacedFadeIsUnclamped(st: TileState, f: int)
    requires Paced(st, f) && st.phase == Fade
    ensures Crossfade(st.phase, f, st.t0).aNext == (f - st.t0) as real / FADE_FRAMES as real
  {
  }

  /**
   * Both transitions of a paced tile are seamless: a fade starts with the new
   * `next` at opacity 0, and it ends only after a frame showing `next` at
   * full opacity, which then carries on as `curr` at full opacity.
   */
  lemma SwitchesAreSeamless(st: TileState, seed: real, isLight: bool, f: int, d: Tick, pal: Palette, noise: Noise)
    requires ValidTick(d) && Paced(st, f - 1)
    ensures var r := Switch(st, seed, isLight, f, d, pal, noise);
            st.phase == Hold && r.phase == Fade ==> Crossfade(r.phase, f, r.t0).aNext == 0.0
    ensures var r := Switch(st, seed, isLight, f, d, pal, noise);
            st.phase == Fade && r.phase == Hold ==>
              Crossfade(st.phase, f - 1, st.t0).aNext == 1.0 &&
              r.curr == st.next && Crossfade(r.phase, f, r.t0).aCurr == 1.0
  {
  }

  /** `Run` over two runs of checks, one after the other. */
  lemma {:induction false} RunAppend(st: TileState, seed: real, isLight: bool, f: int, xs: seq<Tick>, ys: seq<Tick>,
                                     pal: Palette, noise: Noise)
    requires ValidTicks(xs) && ValidTicks(ys)
    ensures ValidTicks(xs + ys)
    ensures Run(st, seed, isLight, f, xs + ys, pal, noise) ==
            Run(Run(st, seed, isLight, f, xs, pal, noise), seed, isLight, f + |xs|, ys, pal, noise)
    decreases |xs|
  {
    if xs == [] {
      assert xs + ys == ys;
    } else {
      assert (xs + ys)[0] == xs[0] && (xs + ys)[1..] == xs[1..] + ys;
      RunAppend(Switch(st, seed, isLight, f, xs[0], pal, noise), seed, isLight, f + 1, xs[1..], ys, pal, noise);
    }
  }

  /**
   * A hold that no check's jittered limit ends leaves the tile unchanged:
   * between two switches a tile does not change.
   */
  lemma {:induction false} QuietHold(st: TileState, seed: real, isLight: bool, f: int, ticks: seq<Tick>,
                                     pal: Palette, noise: Noise)
    requires ValidTicks(ticks) && st.phase == Hold
    requires forall k :: 0 <= k < |ticks| ==> f + k - st.t0 <= HOLD_FRAMES + Rndi(-JITTER, JITTER, ticks[k].jitter)
    ensures Run(st, seed, isLight, f, ticks, pal, noise) == st
    decreases |ticks|
  {
    if ticks != [] {
      assert f - st.t0 <= HOLD_FRAMES + Rndi(-JITTER, JITTER, ticks[0].jitter);
      forall k | 0 <= k < |ticks[1..]|
        ensures f + 1 + k - st.t0 <= HOLD_FRAMES + Rndi(-JITTER, JITTER, ticks[1..][k].jitter)
      {
        assert ticks[1..][k] == ticks[k + 1];
      }
      QuietHold(st, seed, isLight, f + 1, ticks[1..], pal, noise);
    }
  }

  /** A fade checked only up to `FADE_FRAMES` frames after it began leaves the tile unchanged. */
  lemma {:induction false} QuietFade(st: TileState, seed: real, isLight: bool, f: int, ticks: seq<Tick>,
                                     pal: Palette, noise: Noise)
    requires ValidTicks(ticks) && st.phase == Fade
    requires f + |ticks| - 1 - st.t0 <= FADE_FRAMES
    ensures Run(st, seed, isLight, f, ticks, pal, noise) == st
    decreases |ticks|
  {
    if ticks != [] {
      QuietFade(st, seed, isLight, f + 1, ticks[1..], pal, noise);
    }
  }

  /**
   * A tile holding since frame 0, checked once per frame from frame 1 with a
   * jitter of 0 each time: it still holds after frame 100, starts to fade at
   * frame 101 with a new `next`, is unchanged through frame 151, where `next`
   * shows at full opacity, and holds again from frame 152 with that instance
   * as `curr`.
   */
  lemma HoldFadeHoldScenario(a: Instance, b: Instance, seed: real, isLight: bool, ticks: seq<Tick>,
                             pal: Palette, noise: Noise)
    requires |ticks| == 152 && ValidTicks(ticks)
    requires forall k :: 0 <= k < |ticks| ==> 0.0 <= ticks[k].jitter < 1.0
    ensures var st := TileState(Hold, 0, a, b);
            var faded := TileState(Fade, 101, a, MakeInstance(seed + 224.0, ticks[100].pick, pal, isLight, noise));
            Run(st, seed, isLight, 1, ticks[..100], pal, noise) == st &&
            Run(st, seed, isLight, 1, ticks[..101], pal, noise) == faded &&
            Run(st, seed, isLight, 1, ticks[..151], pal, noise) == faded &&
            Crossfade(Fade, 151, 101).aNext == 1.0 &&
            Run(st, seed, isLight, 1, ticks, pal, noise) == TileState(Hold, 152, faded.next, faded.next)
  {
    var st := TileState(Hold, 0, a, b);
    var faded := TileState(Fade, 101, a, MakeInstance(seed + 224.0, ticks[100].pick, pal, isLight, noise));
    var hold, fade := ticks[..100], ticks[101..151];
    forall k | 0 <= k < |hold|
      ensures 1 + k - st.t0 <= HOLD_FRAMES + Rndi(-JITTER, JITTER, hold[k].jitter)
    {
      assert Rndi(-JITTER, JITTER, ticks[k].jitter) == 0;
    }
    QuietHold(st, seed, isLight, 1, hold, pal, noise);
    assert Rndi(-JITTER, JITTER, ticks[100].jitter) == 0;
    assert Run(faded, seed, isLight, 102, [], pal, noise) == faded;
    assert Run(st, seed, isLight, 101, [ticks[100]], pal, noise) == faded;
    assert ticks[..101] == hold + [ticks[100]];
    RunAppend(st, seed, isLight, 1, hold, [ticks[100]], pal, noise);
    QuietFade(faded, seed, isLight, 102, fade, pal, noise);
    assert ticks[..151] == ticks[..101] + fade;
    RunAppend(st, seed, isLight, 1, ticks[..101], fade, pal, noise);
    var held := TileState(Hold, 152, faded.next, faded.next);
    assert Run(held, seed, isLight, 153, [], pal, noise) == held;
    assert Run(faded, seed, isLight, 152, [ticks[151]], pal, noise) == held;
    assert ticks == ticks[..151] + [ticks[151]];
    RunAppend(st, seed, isLight, 1, ticks[..151], [ticks[151]], pal, noise);
  }

  /** One tile: its fixed placement and seed, and the closure's mutable state. */
  class Tile {
    const x: int
    const y: int
    const size: int
    const isLight: bool
    const seed: real
    var phase: Phase
    var t0: int
    var curr: Instance
    var next: Instance

    function State(): TileState
      reads this
    {
      TileState(phase, t0, curr, next)
    }

    /** `createCell(x, y, s, isLight)` at frame `frameCount`. */
    constructor (x: int, y: int, s: int, isLight: bool, d: Draws, frameCount: int, pal: Palette, noise: Noise)
      requires ValidDraws(d)
      ensures this.x == x && this.y == y && size == s && this.isLight == isLight && seed == d.seed
      ensures State() == Spawn(d, frameCount, isLight, pal, noise)
    {
      this.x, this.y, size, this.isLight := x, y, s, isLight;
      seed := d.seed;
      curr := MakeInstance(d.seed, d.currPick, pal, isLight, noise);
      next := MakeInstance(d.seed + NEXT_SALT, d.nextPick, pal, isLight, noise);
      t0 := frameCount + Rndi(0, HOLD_FRAMES, d.start);
      phase := Hold;
    }

    /** `shouldSwitch()` at frame `frameCount`. */
    method ShouldSwitch(frameCount: int, d: Tick, pal: Palette, noise: Noise)
      requires ValidTick(d)
      modifies this
      ensures State() == Switch(old(State()), seed, isLight, frameCount, d, pal, noise)
    {
      if phase == Hold && frameCount - t0 > HOLD_FRAMES + Rndi(-JITTER, JITTER, d.jitter) {
        phase := Fade;
        t0 := frameCount;
        next := MakeInstance(seed + frameCount as real + SWITCH_SALT, d.pick, pal, isLight, noise);
      } else if phase == Fade && frameCount - t0 > FADE_FRAMES {
        phase := Hold;
        t0 := frameCount;
        curr := next;
      }
    }

    /** `drawCell(t)` at frame `frameCount`: check for a switch, then paint. */
    method DrawCell(frameCount: int, d: Tick, pal: Palette, noise: Noise) returns (v: CellView)
      requires ValidTick(d)
      modifies this
      ensures State() == Switch(old(State()), seed, isLight, frameCount, d, pal, noise)
      ensures v == View(State(), seed, isLight, size as real, frameCount, noise)
    {
      ShouldSwitch(frameCount, d, pal, noise);
      v := Paint(frameCount, noise);
    }

    /** The painting half of `drawCell(t)`: background, rotation and the two layers. */
    method Paint(frameCount: int, noise: Noise) returns (v: CellView)
      ensures v == View(State(), seed, isLight, size as real, frameCount, noise)
    {
      var t := frameCount as real / 60.0;
      var background := if isLight then BG_LIGHT else BG_DARK;
      var rotation := MapUnit(noise(seed, t * 0.12), -ROTATION_TURNS, ROTATION_TURNS);
      var w := Crossfade(phase, frameCount, t0);
      var top := Hidden;
      if w.aNext > 0.0 {
        top := Shown(w.aNext, Render(next, size as real, t, noise));
      }
      v := CellView(background, rotation, w.aCurr, Render(curr, size as real, t, noise), top);
    }
  }
}
