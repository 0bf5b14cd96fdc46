/**
 * The player's arithmetic: scroll progress to frame index, the free-running
 * tick, the timer period and the prefetch window. JavaScript doubles are
 * modelled as exact reals.
 */
module Playback {
  import opened Wrappers
  import JsNumber
  import opened SequenceConfig
  import opened NetProfile

  function Min(a: int, b: int): int { if a <= b then a else b }
  function Max(a: int, b: int): int { if a >= b then a else b }

  /** `Math.min(1, Math.max(0, p))`. */
  function Clamp01(p: real): (r: real)
    ensures 0.0 <= r <= 1.0
    ensures 0.0 <= p <= 1.0 ==> r == p
    ensures p < 0.0 ==> r == 0.0
    ensures p > 1.0 ==> r == 1.0
  {
    if p < 0.0 then 0.0 else if p > 1.0 then 1.0 else p
  }

  /** `Math.max(1, Math.floor(loops))`. */
  function TotalLoops(loops: real): (n: int)
    ensures n >= 1
  {
    Max(1, loops.Floor)
  }

  /** `x % 1` for a non-negative `x`: its fractional part. */
  function Frac(x: real): (f: real)
    ensures 0.0 <= f < 1.0
  {
    x - x.Floor as real
  }

  /** `pEff`: the clamped progress, wrapped modulo 1 after scaling when there is more than one loop. */
  function EffectiveProgress(loops: real, p: real): (e: real)
    ensures 0.0 <= e <= 1.0
    ensures TotalLoops(loops) > 1 ==> e < 1.0
  {
    var n := TotalLoops(loops);
    var c := Clamp01(p);
    if n > 1 then Frac(c * n as real) else c
  }

  /** The small bias the source adds before flooring, so that exact frame boundaries round up. */
  const Epsilon: real := 0.00001

  /** The scrubbed frame: `min(count - 1, max(0, floor(pEff * (count - 1) + 0.00001)))`. */
  function ScrubIndex(count: int, loops: real, p: real): (idx: int)
    ensures count >= 1 ==> 0 <= idx <= count - 1
    ensures count <= 0 ==> idx == count - 1
  {
    var e := EffectiveProgress(loops, p);
    Min(count - 1, Max(0, (e * (count - 1) as real + Epsilon).Floor))
  }

  lemma FloorOfIntPlusEpsilon(n: int)
    ensures (n as real + Epsilon).Floor == n
  {
  }

  /** Progress 0 shows the first frame; with a single loop, progress 1 shows the last. */
  lemma ScrubEndpoints(count: int, loops: real, p: real)
    requires count >= 1
    ensures p <= 0.0 ==> ScrubIndex(count, loops, p) == 0
    ensures p >= 1.0 && loops < 2.0 ==> ScrubIndex(count, loops, p) == count - 1
  {
    if p >= 1.0 && loops < 2.0 {
      assert TotalLoops(loops) == 1;
      assert EffectiveProgress(loops, p) == 1.0;
      FloorOfIntPlusEpsilon(count - 1);
    }
    if p <= 0.0 {
      assert Clamp01(p) == 0.0;
      assert EffectiveProgress(loops, p) == 0.0;
    }
  }

  /** With two loops the sequence wraps at mid-scroll and is half-way through at three quarters. */
  lemma ScrubTwoLoops(count: int)
    requires count >= 1
    ensures ScrubIndex(count, 2.0, 0.5) == 0
    ensures ScrubIndex(count, 2.0, 0.75) == (0.5 * (count - 1) as real + Epsilon).Floor
  {
    assert TotalLoops(2.0) == 2;
    assert Frac(1.0) == 0.0;
    assert Frac(1.5) == 0.5;
    assert EffectiveProgress(2.0, 0.75) == 0.5;
    var raw := (0.5 * (count - 1) as real + Epsilon).Floor;
    assert 0 <= raw <= count - 1;
  }

  /** With a single loop, more progress never shows an earlier frame. */
  lemma ScrubMonotone(count: int, loops: real, p: real, q: real)
    requires count >= 1 && loops < 2.0 && p <= q
    ensures ScrubIndex(count, loops, p) <= ScrubIndex(count, loops, q)
  {
    var a := Clamp01(p);
    var b := Clamp01(q);
    assert EffectiveProgress(loops, p) == a && EffectiveProgress(loops, q) == b;
    var m := (count - 1) as real;
    ScaledFloorMonotone(a, b, m);
    var fa := (a * m + Epsilon).Floor;
    var fb := (b * m + Epsilon).Floor;
    assert ScrubIndex(count, loops, p) == Min(count - 1, Max(0, fa));
    assert ScrubIndex(count, loops, q) == Min(count - 1, Max(0, fb));
  }

  /** Scaling by a non-negative factor, biasing and flooring keeps the order of two progress values. */
  lemma ScaledFloorMonotone(a: real, b: real, m: real)
    requires a <= b && m >= 0.0
    ensures (a * m + Epsilon).Floor <= (b * m + Epsilon).Floor
  {
    MulNonNegative(b - a, m);
    assert (b - a) * m == b * m - a * m;
    FloorMonotone(a * m + Epsilon, b * m + Epsilon);
  }

  lemma MulNonNegative(x: real, y: real)
    requires x >= 0.0 && y >= 0.0
    ensures x * y >= 0.0
  {
  }

  lemma FloorMonotone(x: real, y: real)
    requires x <= y
    ensures x.Floor <= y.Floor
  {
  }

  /** The free-running tick: `(floor(time) + 1) % count`. */
  function NextFrame(time: int, count: int): (n: int)
    requires count >= 1
    ensures 0 <= n < count
  {
    (time + 1) % count
  }

  /** Ticks step through the frames one at a time and wrap from the last frame to the first. */
  lemma NextFrameSteps(time: int, count: int)
    requires count >= 1 && 0 <= time < count
    ensures time < count - 1 ==> NextFrame(time, count) == time + 1
    ensures time == count - 1 ==> NextFrame(time, count) == 0
  {
  }

  /** The timer period, `Math.max(1000 / fps, 16)` milliseconds (infinite for `fps == 0`). */
  function IntervalMs(fps: real): (ms: JsNumber.Num)
    ensures ms.Finite? ==> ms.v >= 16.0
    ensures fps > 0.0 && fps <= 62.5 ==> ms == JsNumber.Finite(1000.0 / fps)
    ensures fps < 0.0 || fps >= 62.5 ==> ms == JsNumber.Finite(16.0)
  {
    if fps == 0.0 then JsNumber.PosInf
    else if 1000.0 / fps > 16.0 then JsNumber.Finite(1000.0 / fps)
    else JsNumber.Finite(16.0)
  }

  /** `Math.max(0, Math.min(prefetchWindow ?? WINDOW, count - 1))`. */
  function PrefetchLimit(p: Props, reported: Option<string>): (limit: int)
    ensures 0 <= limit
    ensures p.count >= 1 ==> limit <= p.count - 1
    ensures p.prefetchWindow.Some? ==> limit == Max(0, Min(p.prefetchWindow.value, p.count - 1))
    ensures p.prefetchWindow.None? ==>
              limit == Max(0, Min(GetNetProfile(reported, p.netProfileOverride).window, p.count - 1))
  {
    var desired := p.prefetchWindow.GetOr(GetNetProfile(reported, p.netProfileOverride).window);
    Max(0, Min(desired, p.count - 1))
  }

  /** The frame requested `k` steps ahead of `idx`, held at the last frame. */
  function WindowIndex(p: Props, idx: int, k: int): (n: int)
    ensures n <= p.count - 1
  {
    Min(p.count - 1, idx + k)
  }
}
