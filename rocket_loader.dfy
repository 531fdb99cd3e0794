/**
 * The loading screen (RocketLoader.jsx): how the load progress, a number
 * from 0 to 100, moves the rocket and its flame, makes the rocket wobble,
 * hides the smoke and labels the progress bar.
 */
module RocketLoader {
  /** The larger of two numbers (`Math.max`). */
  function Max(a: real, b: real): (m: real)
    ensures m >= a && m >= b && (m == a || m == b)
  {
    if a >= b then a else b
  }

  /** The rocket's vertical offset: it climbs two pixels per percent up to
      100 pixels and leaves the screen (-500) once loading passes 95. */
  function RocketY(progress: real): real
  {
    if progress > 95.0 then -500.0 else Max(-100.0, -progress * 2.0)
  }

  /** The flame's vertical offset: ten pixels below the rocket's bounds. */
  function FlameY(progress: real): real
  {
    if progress > 95.0 then -490.0 else Max(-90.0, -progress * 2.0)
  }

  /** While loading the rocket stays between the pad and 100 pixels up. */
  lemma RocketStaysOnScreen(progress: real)
    requires 0.0 <= progress <= 95.0
    ensures -100.0 <= RocketY(progress) <= 0.0
  {
  }

  /** More progress never moves the rocket down. */
  lemma RocketNeverDescends(p: real, q: real)
    requires p <= q
    ensures RocketY(q) <= RocketY(p)
  {
  }

  /** The flame is never above the rocket: it moves with the rocket up to
      progress 45, and from progress 50 on, launch included, it stays ten
      pixels below it. */
  lemma FlameTrailsRocket(progress: real)
    ensures FlameY(progress) >= RocketY(progress)
    ensures progress <= 45.0 ==> FlameY(progress) == RocketY(progress)
    ensures progress >= 50.0 ==> FlameY(progress) == RocketY(progress) + 10.0
  {
  }

  /** The rocket's rotation: keyframe angles and how often they repeat. */
  datatype Wobble = Wobble(angles: seq<int>, repeats: nat)

  const WobbleKeyframes: seq<int> := [-1, 1, -1, 0]

  /** `rotate` and its `repeat`: the rocket shakes three extra times once
      loading passes 80, and is still before. */
  function RocketWobble(progress: real): (w: Wobble)
    ensures w.repeats > 0 <==> progress > 80.0
    ensures w.repeats > 0 <==> |w.angles| > 1
  {
    if progress > 80.0 then Wobble(WobbleKeyframes, 3) else Wobble([0], 0)
  }

  /** The wobble returns the rocket upright: its last angle is 0. */
  lemma WobbleEndsUpright(progress: real)
    ensures RocketWobble(progress).angles != []
    ensures RocketWobble(progress).angles[|RocketWobble(progress).angles| - 1] == 0
  {
  }

  /** The number of smoke particles. */
  const SmokeCount: nat := 8

  /** The smoke particles' `display`: hidden once the rocket has left. */
  function SmokeHidden(progress: real): (hidden: bool)
    ensures hidden <==> RocketY(progress) == -500.0
  {
    progress > 95.0
  }

  /** Each smoke particle starts 0.2 s after the one before it. */
  function SmokeDelay(i: nat): (delay: real)
    requires i < SmokeCount
    ensures 0.0 <= delay < 1.6
  {
    i as real * 0.2
  }

  /** `Number.prototype.toFixed(0)` read back as a number: the nearest
      integer, halves rounded away from zero. */
  function Percent(progress: real): (n: int)
    ensures -0.5 <= n as real - progress <= 0.5
    ensures progress >= 0.0 ==> n >= 0
  {
    if progress >= 0.0 then (progress + 0.5).Floor else -((-progress + 0.5).Floor)
  }

  /** A progress between 0 and 100 is labelled with a percent in the same
      range, and the labels never go backwards as loading advances. */
  lemma PercentInRange(p: real, q: real)
    requires 0.0 <= p <= q <= 100.0
    ensures 0 <= Percent(p) <= Percent(q) <= 100
  {
  }

  /** What one render of the loader shows for a given progress. */
  datatype Frame = Frame(
    rocketY: real, flameY: real, wobble: Wobble, smokeHidden: bool,
    barPercent: int, labelPercent: int)

  /** One render: every part is computed from the same progress value, and
      the bar and the label from the same rounded percent. */
  function Render(progress: real): (f: Frame)
    ensures f.flameY >= f.rocketY
    ensures f.smokeHidden <==> progress > 95.0
    ensures f.wobble.repeats > 0 <==> progress > 80.0
    ensures f.smokeHidden ==> f.wobble.repeats > 0
    ensures f.barPercent == f.labelPercent
    ensures 0.0 <= progress <= 100.0 ==> 0 <= f.barPercent <= 100
  {
    FlameTrailsRocket(progress);
    var percent := Percent(progress);
    Frame(RocketY(progress), FlameY(progress), RocketWobble(progress),
      SmokeHidden(progress), percent, percent)
  }
}
