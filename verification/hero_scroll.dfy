/**
 * The hero section's scroll-driven arithmetic and state: the content fade
 * driven by the pinned trigger's progress, the clamped environment fractions
 * that place the stats window inside the pin distance, the stats reveal and
 * the show/hide toggle of the stats panel, the trigger settings, and the
 * scroller proxy handed to ScrollTrigger when smooth scrolling is on.
 */
module HeroScroll {
  import opened Wrappers
  import JsNumber
  import opened Text
  import opened Playback

  /** The content starts fading immediately and has faded out by 8% of the pin. */
  const FadeStartP: real := 0.0
  const FadeSpanP: real := 0.08
  const HideGrid: bool := true
  const DefaultRangePct: int := 200
  const DefaultStatsStartPct: real := 0.45
  const DefaultStatsFadePct: real := 0.25

  // ---------------------------------------------------------------------------
  // The pinned trigger's update: content fade
  // ---------------------------------------------------------------------------

  /** `t = (p - FADE_START_P) / FADE_SPAN_P`, cut to [0, 1]. */
  function FadeT(p: real): (t: real)
    ensures 0.0 <= t <= 1.0
    ensures p <= FadeStartP ==> t == 0.0
    ensures p >= FadeStartP + FadeSpanP ==> t == 1.0
    ensures FadeStartP <= p <= FadeStartP + FadeSpanP ==> t == (p - FadeStartP) / FadeSpanP
  {
    var t := (p - FadeStartP) / FadeSpanP;
    if t < 0.0 then 0.0 else if t > 1.0 then 1.0 else t
  }

  function ContentAlpha(p: real): real {
    1.0 - FadeT(p)
  }

  function ContentYPercent(p: real): real {
    -6.0 * FadeT(p)
  }

  datatype PointerEvents = NoPointerEvents | AutoPointerEvents

  /** The content stops taking pointer events once it is less than 95% opaque. */
  function ContentPointerEvents(p: real): (e: PointerEvents)
    ensures e == NoPointerEvents <==> ContentAlpha(p) < 0.95
  {
    if ContentAlpha(p) < 0.95 then NoPointerEvents else AutoPointerEvents
  }

  /** The grid follows the content's alpha unless it is hidden, which it always is. */
  function GridAlpha(p: real): real {
    if HideGrid then 0.0 else ContentAlpha(p)
  }

  /** Everything one update of the pinned trigger writes into the page. */
  datatype ContentStyle = ContentStyle(autoAlpha: real, yPercent: real, gridAlpha: real, pointerEvents: PointerEvents)

  function ContentStyleAt(p: real): ContentStyle {
    ContentStyle(ContentAlpha(p), ContentYPercent(p), GridAlpha(p), ContentPointerEvents(p))
  }

  /**
   * The content is fully visible at the top, gone from 8% on, linear in
   * between, never more visible further down, and rises by up to 6%.
   */
  lemma ContentFade(p: real, q: real)
    ensures ContentAlpha(0.0) == 1.0 && ContentYPercent(0.0) == 0.0
    ensures p >= 0.08 ==> ContentAlpha(p) == 0.0 && ContentYPercent(p) == -6.0
    ensures 0.0 <= p <= 0.08 ==> ContentAlpha(p) == 1.0 - p / 0.08
    ensures 0.0 <= ContentAlpha(p) <= 1.0 && -6.0 <= ContentYPercent(p) <= 0.0
    ensures ContentYPercent(p) == -6.0 * (1.0 - ContentAlpha(p))
    ensures p <= q ==> ContentAlpha(q) <= ContentAlpha(p)
  {
  }

  /** Pointer events are off exactly past 0.4% of the pin (where alpha drops below 0.95); the grid is never shown. */
  lemma PointerEventsThreshold(p: real)
    ensures ContentPointerEvents(p) == NoPointerEvents <==> p > 0.004
    ensures GridAlpha(p) == 0.0
  {
    var t := (p - FadeStartP) / FadeSpanP;
    assert t == p * 12.5;
    if p > 0.004 {
      assert t > 0.05;
      assert FadeT(p) > 0.05;
    } else {
      assert t <= 0.05;
      assert FadeT(p) <= 0.05;
    }
  }

  // ---------------------------------------------------------------------------
  // The stats window
  // ---------------------------------------------------------------------------

  /**
   * `Math.min(0.95, Math.max(lo, Number(env ?? default)))`. `env` is the
   * environment variable after `Number(...)`: absent gives the default, and a
   * value that is not numeric is NaN, which both bounds let through.
   */
  function ClampedFraction(env: Option<JsNumber.Num>, default: real, lo: real): (r: JsNumber.Num)
    requires 0.0 <= lo <= 0.95
    ensures r.NaN? <==> env == Some(JsNumber.NaN)
    ensures !r.NaN? ==> r.Finite? && lo <= r.v <= 0.95
    ensures env.None? && lo <= default <= 0.95 ==> r == JsNumber.Finite(default)
    ensures env.Some? && env.value.Finite? && lo <= env.value.v <= 0.95 ==> r == env.value
    ensures env == Some(JsNumber.PosInf) ==> r == JsNumber.Finite(0.95)
    ensures env == Some(JsNumber.NegInf) ==> r == JsNumber.Finite(lo)
  {
    JsNumber.Min(JsNumber.Finite(0.95), JsNumber.Max(JsNumber.Finite(lo), env.GetOr(JsNumber.Finite(default))))
  }

  function StatsStartPct(env: Option<JsNumber.Num>): JsNumber.Num {
    ClampedFraction(env, DefaultStatsStartPct, 0.0)
  }

  function StatsFadePct(env: Option<JsNumber.Num>): JsNumber.Num {
    ClampedFraction(env, DefaultStatsFadePct, 0.05)
  }

  /** For every numeric setting the start lies in [0, 0.95] and the fade in [0.05, 0.95]; unset, they are 0.45 and 0.25. */
  lemma StatsFractionBounds(startEnv: Option<JsNumber.Num>, fadeEnv: Option<JsNumber.Num>)
    requires startEnv != Some(JsNumber.NaN) && fadeEnv != Some(JsNumber.NaN)
    ensures StatsStartPct(startEnv).Finite? && 0.0 <= StatsStartPct(startEnv).v <= 0.95
    ensures StatsFadePct(fadeEnv).Finite? && 0.05 <= StatsFadePct(fadeEnv).v <= 0.95
    ensures StatsStartPct(None) == JsNumber.Finite(0.45) && StatsFadePct(None) == JsNumber.Finite(0.25)
  {
  }

  /** `window.innerHeight * (rangePct / 100)`: how far the hero stays pinned. */
  function PinDistancePx(innerHeight: real, rangePct: real): real {
    innerHeight * (rangePct / 100.0)
  }

  function StatsStartPx(innerHeight: real, rangePct: real, startPct: real): real {
    PinDistancePx(innerHeight, rangePct) * startPct
  }

  function StatsFadePx(innerHeight: real, rangePct: real, fadePct: real): real {
    PinDistancePx(innerHeight, rangePct) * fadePct
  }

  /**
   * The stats window starts inside the pin and spans between 5% and 95% of
   * it; with the defaults it runs from 45% to 70% of the pin distance.
   */
  lemma StatsWindowInsidePin(innerHeight: real, rangePct: real, startEnv: Option<JsNumber.Num>, fadeEnv: Option<JsNumber.Num>)
    requires innerHeight >= 0.0 && rangePct >= 0.0
    requires StatsStartPct(startEnv).Finite? && StatsFadePct(fadeEnv).Finite?
    ensures var pin := PinDistancePx(innerHeight, rangePct);
            var start := StatsStartPx(innerHeight, rangePct, StatsStartPct(startEnv).v);
            var span := StatsFadePx(innerHeight, rangePct, StatsFadePct(fadeEnv).v);
            0.0 <= start <= 0.95 * pin && 0.05 * pin <= span <= 0.95 * pin &&
            (startEnv.None? && fadeEnv.None? ==> start == 0.45 * pin && start + span == 0.7 * pin)
  {
    var isDefault := startEnv.None? && fadeEnv.None?;
    WindowInsidePin(innerHeight, rangePct, StatsStartPct(startEnv).v, StatsFadePct(fadeEnv).v, isDefault);
  }

  /** The window bounds for given fractions, in pixels of the pin distance. */
  lemma WindowInsidePin(innerHeight: real, rangePct: real, s: real, f: real, isDefault: bool)
    requires innerHeight >= 0.0 && rangePct >= 0.0
    requires 0.0 <= s <= 0.95 && 0.05 <= f <= 0.95
    requires isDefault ==> s == 0.45 && f == 0.25
    ensures 0.0 <= StatsStartPx(innerHeight, rangePct, s) <= 0.95 * PinDistancePx(innerHeight, rangePct)
    ensures 0.05 * PinDistancePx(innerHeight, rangePct) <= StatsFadePx(innerHeight, rangePct, f)
    ensures StatsFadePx(innerHeight, rangePct, f) <= 0.95 * PinDistancePx(innerHeight, rangePct)
    ensures isDefault ==> StatsStartPx(innerHeight, rangePct, s) == 0.45 * PinDistancePx(innerHeight, rangePct)
    ensures isDefault ==> StatsStartPx(innerHeight, rangePct, s) + StatsFadePx(innerHeight, rangePct, f)
                          == 0.7 * PinDistancePx(innerHeight, rangePct)
  {
    PinNonNegative(innerHeight, rangePct);
    WindowScaled(PinDistancePx(innerHeight, rangePct), s, f, isDefault,
                 StatsStartPx(innerHeight, rangePct, s), StatsFadePx(innerHeight, rangePct, f));
  }

  /** Scaling fractions in the allowed bands by a non-negative pin distance keeps them inside the pin. */
  lemma WindowScaled(pin: real, s: real, f: real, isDefault: bool, start: real, span: real)
    requires pin >= 0.0 && 0.0 <= s <= 0.95 && 0.05 <= f <= 0.95
    requires isDefault ==> s == 0.45 && f == 0.25
    requires start == pin * s && span == pin * f
    ensures 0.0 <= start <= 0.95 * pin && 0.05 * pin <= span <= 0.95 * pin
    ensures isDefault ==> start == 0.45 * pin && start + span == 0.7 * pin
  {
    MulNonNegative(pin, s);
    MulNonNegative(pin, 0.95 - s);
    MulNonNegative(pin, f - 0.05);
    MulNonNegative(pin, 0.95 - f);
  }

  lemma PinNonNegative(innerHeight: real, rangePct: real)
    requires innerHeight >= 0.0 && rangePct >= 0.0
    ensures PinDistancePx(innerHeight, rangePct) >= 0.0
  {
    MulNonNegative(innerHeight, rangePct / 100.0);
  }

  /** The stats panel's alpha follows the window's own progress, cut to [0, 1]. */
  function StatsAlpha(prog: real): real {
    Clamp01(prog)
  }

  function StatsYPercent(prog: real): real {
    6.0 * (1.0 - StatsAlpha(prog))
  }

  datatype StatsStyle = StatsStyle(autoAlpha: real, yPercent: real)

  function StatsStyleAt(prog: real): StatsStyle {
    StatsStyle(StatsAlpha(prog), StatsYPercent(prog))
  }

  /** The panel is hidden and 6% low before its window, in place after it, and linear inside. */
  lemma StatsReveal(prog: real)
    ensures 0.0 <= StatsAlpha(prog) <= 1.0 && 0.0 <= StatsYPercent(prog) <= 6.0
    ensures prog <= 0.0 ==> StatsAlpha(prog) == 0.0 && StatsYPercent(prog) == 6.0
    ensures prog >= 1.0 ==> StatsAlpha(prog) == 1.0 && StatsYPercent(prog) == 0.0
    ensures 0.0 <= prog <= 1.0 ==> StatsAlpha(prog) == prog
  {
  }

  /**
   * The stats window's decision whether to call `setShowStats`, given the
   * value the ref last saw: show on positive progress if it was hidden, hide
   * on non-positive progress if it was shown, otherwise nothing.
   */
  function StatsToggle(prog: real, shownRef: bool): (call: Option<bool>)
    ensures call == Some(true) <==> prog > 0.0 && !shownRef
    ensures call == Some(false) <==> prog <= 0.0 && shownRef
    ensures call.Some? ==> call.value != shownRef
  {
    if prog > 0.0 && !shownRef then Some(true)
    else if prog <= 0.0 && shownRef then Some(false)
    else None
  }

  /** `showStats` after an update, with `cur` its value before. */
  function NextShowStats(prog: real, shownRef: bool, cur: bool): bool {
    StatsToggle(prog, shownRef).GetOr(cur)
  }

  /**
   * With the ref in step, the panel is shown exactly when progress is
   * positive, and a second update on the same side does nothing; with a stale
   * ref the state still only ever moves towards `prog > 0`.
   */
  lemma ShowStatsSettles(prog: real, shown: bool, shownRef: bool)
    ensures NextShowStats(prog, shown, shown) == (prog > 0.0)
    ensures StatsToggle(prog, NextShowStats(prog, shown, shown)) == None
    ensures NextShowStats(prog, shownRef, shown) == shown || NextShowStats(prog, shownRef, shown) == (prog > 0.0)
  {
  }

  // ---------------------------------------------------------------------------
  // Trigger settings and the scroller proxy
  // ---------------------------------------------------------------------------

  /** `scrub: true` follows the scroll immediately; a number lags by that many seconds. */
  datatype Scrub = ScrubImmediate | ScrubLag(seconds: real)

  function ScrubSetting(scrubSmooth: real): (s: Scrub)
    ensures s.ScrubImmediate? <==> scrubSmooth == 0.0
    ensures s.ScrubLag? ==> s.seconds == scrubSmooth
  {
    if scrubSmooth == 0.0 then ScrubImmediate else ScrubLag(scrubSmooth)
  }

  /** `RANGE`: the trigger's end, `+=` the range percentage `%`. */
  function Range(rangePct: int): string {
    "+=" + IntToString(rangePct) + "%"
  }

  /** The range reads back as the percentage it was built from; the default is "+=200%". */
  lemma RangeReadsBack(rangePct: nat)
    ensures var r := Range(rangePct);
            StartsWith(r, "+=") && EndsWith(r, "%") && |r| >= 4 &&
            AllDigits(r[2..|r| - 1]) && ParseNat(r[2..|r| - 1]) == rangePct
    ensures Range(DefaultRangePct) == "+=200%"
  {
    var r := Range(rangePct);
    assert r[2..|r| - 1] == NatToString(rangePct);
    ParseNatToString(rangePct);
    assert NatToString(2) == "2";
    assert NatToString(20) == NatToString(2) + [DigitChar(0)];
    assert NatToString(200) == NatToString(20) + [DigitChar(0)];
  }

  /** The value the proxy reports: Lenis's scroll, else the window's, and 0 when that is falsy. */
  function ScrollTopRead(lenisScroll: Option<JsNumber.Num>, scrollY: JsNumber.Num): (r: JsNumber.Num)
    ensures JsNumber.Truthy(lenisScroll.GetOr(scrollY)) ==> r == lenisScroll.GetOr(scrollY)
    ensures !JsNumber.Truthy(lenisScroll.GetOr(scrollY)) ==> r == JsNumber.Finite(0.0)
  {
    var v := lenisScroll.GetOr(scrollY);
    if JsNumber.Truthy(v) then v else JsNumber.Finite(0.0)
  }

  /** The proxy never reports NaN, and reports Lenis's position whenever that is a non-zero number. */
  lemma ScrollTopIsNumber(lenisScroll: Option<JsNumber.Num>, scrollY: JsNumber.Num)
    ensures !ScrollTopRead(lenisScroll, scrollY).NaN?
    ensures lenisScroll.Some? && JsNumber.Truthy(lenisScroll.value) ==> ScrollTopRead(lenisScroll, scrollY) == lenisScroll.value
    ensures lenisScroll.None? && JsNumber.Truthy(scrollY) ==> ScrollTopRead(lenisScroll, scrollY) == scrollY
  {
  }

  /**
   * The smooth scroller, as far as the proxy drives it: the positions it was
   * told to jump to. Where Lenis is after a jump is not modelled: the position
   * the proxy reads back is a parameter, so a read right after an immediate
   * jump need not return the value just written.
   */
  class SmoothScroller {
    var jumps: seq<JsNumber.Num>

    constructor ()
      ensures jumps == []
    {
      jumps := [];
    }

    /** `scrollTop(value)`: jump when given a number, then report the position. */
    method ScrollTop(value: Option<JsNumber.Num>, lenisScroll: Option<JsNumber.Num>, scrollY: JsNumber.Num) returns (r: JsNumber.Num)
      modifies this
      ensures jumps == old(jumps) + (if value.Some? then [value.value] else [])
      ensures r == ScrollTopRead(lenisScroll, scrollY)
    {
      if value.Some? {
        jumps := jumps + [value.value];
      }
      r := ScrollTopRead(lenisScroll, scrollY);
    }
  }

  // ---------------------------------------------------------------------------
  // The component's state
  // ---------------------------------------------------------------------------

  /** The hero's scroll state and the styles its two triggers write. */
  class Hero {
    var scrollP: real
    var showStats: bool
    var showStatsRef: bool
    var content: Option<ContentStyle>
    var stats: Option<StatsStyle>

    constructor ()
      ensures scrollP == 0.0 && !showStats && !showStatsRef && content == None && stats == None
    {
      scrollP, showStats, showStatsRef, content, stats := 0.0, false, false, None, None;
    }

    /** The pinned trigger's `onUpdate`: remember the progress and fade the content. */
    method OnMainUpdate(progress: real)
      modifies this`scrollP, this`content
      ensures scrollP == progress && content == Some(ContentStyleAt(progress))
    {
      scrollP := progress;
      var t := (progress - FadeStartP) / FadeSpanP;
      if t < 0.0 {
        t := 0.0;
      }
      if t > 1.0 {
        t := 1.0;
      }
      var alpha := 1.0 - t;
      var grid := if HideGrid then 0.0 else alpha;
      content := Some(ContentStyle(alpha, -6.0 * t, grid, if alpha < 0.95 then NoPointerEvents else AutoPointerEvents));
    }

    /** The stats trigger's `onUpdate`: reveal the panel and toggle its contents. */
    method OnStatsUpdate(prog: real)
      modifies this`stats, this`showStats
      ensures stats == Some(StatsStyleAt(prog))
      ensures showStats == NextShowStats(prog, showStatsRef, old(showStats))
    {
      var alpha := if 1.0 < (if 0.0 > prog then 0.0 else prog) then 1.0 else (if 0.0 > prog then 0.0 else prog);
      stats := Some(StatsStyle(alpha, 6.0 * (1.0 - alpha)));
      if prog > 0.0 && !showStatsRef {
        showStats := true;
      } else if prog <= 0.0 && showStatsRef {
        showStats := false;
      }
    }

    /** The effect that copies `showStats` into its ref after a render. */
    method SyncShowStatsRef()
      modifies this`showStatsRef
      ensures showStatsRef == showStats
    {
      showStatsRef := showStats;
    }
  }
}
