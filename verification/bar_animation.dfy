/** What one volume bar draws at a given instant and how it advances its own
    timers while doing so, as pure functions of the bar's timers, a snapshot
    of the view's settings, the bar's index, the clock reading `now` and the
    random start delay a new dance cycle would draw. */
module BarAnimation {
  import opened KotlinNumbers
  import opened WaveConfig
  import opened WaveState

  /** The mutable fields of a `VolumeBar`: the target height of the current
      dance cycle, when that cycle starts (after its random delay), the delay
      itself, and when the current idle sweep started (0: none running). */
  datatype BarTimers = BarTimers(height: int, danceStartTime: int, danceStartDelay: int, idleStartTime: int)

  /** A newly created bar. */
  const NewBar := BarTimers(0, 0, 0, 0)

  /** The outer view's fields a bar reads while it draws. */
  datatype Scene = Scene(
    cfg: Config,
    state: State,
    currentVolume: int,
    distribution: seq<real>,
    interpolation: real -> real,
    idleHeight: int -> real,
    density: real)

  /** A bar's timers after a draw and the height it drew (in pixels). */
  datatype BarFrame = BarFrame(timers: BarTimers, height: real)

  /** The delay stands for `random.nextInt(maxDanceDelay)`, drawn only when a
      dance cycle restarts, and then lies in `[0, maxDanceDelay)`. */
  predicate RandomDelayOk(t: BarTimers, sc: Scene, now: int, delay: int) {
    sc.state == Dance && now - t.danceStartTime > sc.cfg.danceDuration ==> 0 <= delay < sc.cfg.maxDanceDelay
  }

  // ---------------------------------------------------------------- idle

  /** How many positions the idle sweep travels in one cycle. */
  function IdleSpan(cfg: Config): int {
    Half(cfg.volumeCount) + cfg.volumeIdleCount + 4
  }

  /** The sweep position `elapsed` milliseconds into an idle cycle, the
      float expression `(1f * elapsed / idleDuration * span).toInt()`. Over
      one cycle it runs from 0 up to at most the span; at the start of a
      cycle it is 0 whatever the duration. With an `idleDuration` of 0 the
      quotient is NaN (for no elapsed time) or infinite: `toInt` maps NaN to
      0 and saturates infinities at the `Int` bounds. */
  function IdleSweep(cfg: Config, elapsed: int): (s: int)
    ensures cfg.idleDuration > 0 && 0 <= elapsed <= cfg.idleDuration && IdleSpan(cfg) >= 0 ==>
              0 <= s <= IdleSpan(cfg)
    ensures elapsed == 0 ==> s == 0
  {
    var span := IdleSpan(cfg);
    if cfg.idleDuration == 0 then
      if elapsed == 0 || span == 0 then 0
      else if (elapsed > 0) == (span > 0) then IntMaxValue
      else IntMinValue
    else
    var ratio := elapsed as real / cfg.idleDuration as real;
    assert 0 <= elapsed <= cfg.idleDuration && span >= 0 ==> 0.0 <= ratio * span as real <= span as real by {
      if 0 <= elapsed <= cfg.idleDuration && span >= 0 {
        assert 0.0 <= ratio <= 1.0;
        NonNegativeProduct(ratio, span as real);
        NonNegativeProduct(1.0 - ratio, span as real);
      }
    }
    Trunc(ratio * span as real)
  }

  /** The bar's position relative to the sweep front. The two branches of the
      source amount to the sweep minus the distance to the middle index, so
      the sweep travels outward from the middle in both directions. */
  function IdleOffset(volumeCount: int, index: int, sweep: int): (x: int)
    ensures x == sweep - Abs(index - Half(volumeCount))
  {
    var mid := Half(volumeCount);
    if index >= mid then mid + sweep - index else index - (mid - sweep)
  }

  /** The argument handed to the idle height shaper for offset `x`, if any:
      `x` on the rising half of the window `[0, volumeIdleCount]`, its mirror
      image on the falling half, nothing outside the window. The argument
      never exceeds half the window. */
  function IdleArg(volumeIdleCount: int, x: int): (a: Option<int>)
    ensures a.Some? ==> 0 <= a.value <= Half(volumeIdleCount)
    ensures volumeIdleCount >= 0 ==> (a.Some? <==> 0 <= x <= volumeIdleCount)
    ensures x < 0 ==> a == None
  {
    var half := Half(volumeIdleCount);
    if 0 <= x <= half then Some(x)
    else if half + 1 <= x <= volumeIdleCount then Some(volumeIdleCount - x)
    else None
  }

  /** The idle height at offset `x`: the shaped height converted to pixels
      inside the window, the minimum bar height outside it. */
  function IdleHeight(sc: Scene, x: int): (h: real)
    ensures x < 0 ==> h == sc.cfg.minVolumeBarHeight as real
    ensures sc.cfg.volumeIdleCount >= 0 && x > sc.cfg.volumeIdleCount ==> h == sc.cfg.minVolumeBarHeight as real
  {
    match IdleArg(sc.cfg.volumeIdleCount, x)
    case Some(a) => Dp2Px(sc.idleHeight(a), sc.density) as real
    case None => sc.cfg.minVolumeBarHeight as real
  }

  /** `drawIdle`: restart the idle cycle once more than `idleDuration` has
      passed since it started, then draw the height for this bar's offset.
      Only the idle clock moves, and afterwards the running sweep is at most
      one cycle old. */
  function IdleStep(t: BarTimers, sc: Scene, index: int, now: int): (r: BarFrame)
    ensures r.timers.(idleStartTime := t.idleStartTime) == t
    ensures r.timers.idleStartTime == t.idleStartTime || r.timers.idleStartTime == now
    ensures sc.cfg.idleDuration >= 0 ==> now - r.timers.idleStartTime <= sc.cfg.idleDuration
  {
    var t' := if now - t.idleStartTime > sc.cfg.idleDuration then t.(idleStartTime := now) else t;
    var sweep := IdleSweep(sc.cfg, now - t'.idleStartTime);
    BarFrame(t', IdleHeight(sc, IdleOffset(sc.cfg.volumeCount, index, sweep)))
  }

  // ---------------------------------------------------------------- dance

  /** The volume clamped into `[minVolume, maxVolume]` (first from below,
      then from above, as the source chains its coercions). */
  function ClampVolume(cfg: Config, v: int): (r: int)
    ensures cfg.minVolume <= cfg.maxVolume ==> cfg.minVolume <= r <= cfg.maxVolume
    ensures cfg.minVolume <= v <= cfg.maxVolume ==> r == v
    ensures cfg.minVolume > cfg.maxVolume ==> r == cfg.maxVolume
  {
    CoerceAtMost(CoerceAtLeast(v, cfg.minVolume), cfg.maxVolume)
  }

  /** The undistributed target height: the clamped volume's place in the
      volume domain mapped linearly onto the bar height range. It always lies
      in that range, at its bottom for the quietest volume and at its top for
      the loudest. */
  function RawHeight(cfg: Config, volume: int): (h: real)
    requires cfg.minVolume != cfg.maxVolume
    ensures cfg.minVolumeBarHeight <= cfg.maxVolumeBarHeight ==>
              cfg.minVolumeBarHeight as real <= h <= cfg.maxVolumeBarHeight as real
    ensures ClampVolume(cfg, volume) == cfg.maxVolume ==> h == cfg.maxVolumeBarHeight as real
    ensures ClampVolume(cfg, volume) == cfg.minVolume ==> h == cfg.minVolumeBarHeight as real
  {
    var v := ClampVolume(cfg, volume);
    var ratio := (v - cfg.minVolume) as real / (cfg.maxVolume - cfg.minVolume) as real;
    var range := (cfg.maxVolumeBarHeight - cfg.minVolumeBarHeight) as real;
    assert 0.0 <= ratio <= 1.0;
    assert range >= 0.0 ==> 0.0 <= ratio * range <= range by {
      if range >= 0.0 {
        NonNegativeProduct(ratio, range);
        NonNegativeProduct(1.0 - ratio, range);
      }
    }
    ratio * range + cfg.minVolumeBarHeight as real
  }

  /** The per-bar multiplier: the distribution entry for an index inside the
      array, 1 for any other index. */
  function Portion(distribution: seq<real>, index: int): (p: real)
    ensures 0 <= index < |distribution| ==> p == distribution[index]
    ensures !(0 <= index < |distribution|) ==> p == 1.0
  {
    if 0 <= index < |distribution| then distribution[index] else 1.0
  }

  /** The target height a new dance cycle fixes: the raw height scaled by the
      bar's multiplier, truncated to an integer. With a multiplier of 1 it
      stays in the bar height range. When `minVolume == maxVolume` the clamped
      volume equals both bounds, the raw height is `0f / 0` scaled, i.e. NaN,
      and `NaN.toInt()` is 0. */
  function DanceTarget(sc: Scene, index: int): (h: int)
    ensures sc.cfg.minVolume != sc.cfg.maxVolume && Portion(sc.distribution, index) == 1.0
            && sc.cfg.minVolumeBarHeight <= sc.cfg.maxVolumeBarHeight ==>
              sc.cfg.minVolumeBarHeight <= h <= sc.cfg.maxVolumeBarHeight
    ensures sc.cfg.minVolume == sc.cfg.maxVolume ==> h == 0
  {
    if sc.cfg.minVolume == sc.cfg.maxVolume then 0
    else Trunc(RawHeight(sc.cfg, sc.currentVolume) * Portion(sc.distribution, index))
  }

  /** The dance height drawn `elapsed` milliseconds after the cycle's start:
      inside the cycle the interpolated target, clamped to the bar height
      range; before the start (during the random delay) or after the end,
      the minimum height. With a `danceDuration` of 0 the fraction is NaN or
      infinite, never in `0f..1f`, so every draw is the minimum height. */
  function DanceHeight(sc: Scene, height: int, elapsed: int): (h: real)
    ensures sc.cfg.minVolumeBarHeight <= sc.cfg.maxVolumeBarHeight ==>
              sc.cfg.minVolumeBarHeight as real <= h <= sc.cfg.maxVolumeBarHeight as real
    ensures sc.cfg.danceDuration >= 0 && !(0 <= elapsed <= sc.cfg.danceDuration) ==>
              h == sc.cfg.minVolumeBarHeight as real
    ensures sc.cfg.danceDuration == 0 ==> h == sc.cfg.minVolumeBarHeight as real
  {
    if sc.cfg.danceDuration == 0 then sc.cfg.minVolumeBarHeight as real
    else
    var fraction := elapsed as real / sc.cfg.danceDuration as real;
    assert sc.cfg.danceDuration > 0 ==> (0.0 <= fraction <= 1.0 <==> 0 <= elapsed <= sc.cfg.danceDuration);
    if 0.0 <= fraction <= 1.0 then
      CoerceAtMostReal(
        CoerceAtLeastReal(sc.interpolation(fraction) * height as real, sc.cfg.minVolumeBarHeight as real),
        sc.cfg.maxVolumeBarHeight as real)
    else
      sc.cfg.minVolumeBarHeight as real
  }

  /** `drawDance`: once more than `danceDuration` has passed since the cycle
      started, start a new one `delay` milliseconds from now with a fresh
      target height; then draw the height for the cycle's progress. The idle
      clock does not move, and the height drawn lies in the bar height
      range. */
  function DanceStep(t: BarTimers, sc: Scene, index: int, now: int, delay: int): (r: BarFrame)
    ensures r.timers.idleStartTime == t.idleStartTime
    ensures r.timers == t || r.timers.danceStartTime == now + delay
    ensures sc.cfg.minVolumeBarHeight <= sc.cfg.maxVolumeBarHeight ==>
              sc.cfg.minVolumeBarHeight as real <= r.height <= sc.cfg.maxVolumeBarHeight as real
  {
    var t' := if now - t.danceStartTime > sc.cfg.danceDuration then
                t.(danceStartDelay := delay, danceStartTime := now + delay, height := DanceTarget(sc, index))
              else t;
    BarFrame(t', DanceHeight(sc, t'.height, now - t'.danceStartTime))
  }

  // ---------------------------------------------------------------- draw

  /** `VolumeBar.draw`: outside `Idle` the idle clock is cleared first; then
      the bar sweeps, dances, or sits at the minimum height (`Init`, `Stop`).
      The dance timers move only in `Dance`, the idle clock is cleared in
      every other state but `Idle`, and `Init` and `Stop` draw the minimum. */
  function BarStep(t: BarTimers, sc: Scene, index: int, now: int, delay: int): (r: BarFrame)
    ensures sc.state != Dance ==>
              r.timers.(idleStartTime := t.idleStartTime) == t
    ensures sc.state != Idle ==> r.timers.idleStartTime == 0
    ensures sc.state == Init || sc.state == Stop ==> r.height == sc.cfg.minVolumeBarHeight as real
  {
    var t0 := if sc.state != Idle then t.(idleStartTime := 0) else t;
    match sc.state
    case Idle => IdleStep(t0, sc, index, now)
    case Dance => DanceStep(t0, sc, index, now, delay)
    case Init => BarFrame(t0, sc.cfg.minVolumeBarHeight as real)
    case Stop => BarFrame(t0, sc.cfg.minVolumeBarHeight as real)
  }

  /** Every bar's timers after one frame, bar `i` drawn at index `i` with
      its own clock reading `nows[i]`. Outside `Dance` no dance timer moves;
      outside `Idle` every idle clock ends cleared. */
  function StepAll(ts: seq<BarTimers>, sc: Scene, nows: seq<int>, delays: seq<int>): (r: seq<BarTimers>)
    requires |nows| == |delays| == |ts|
    ensures |r| == |ts|
    ensures sc.state != Dance ==> forall i :: 0 <= i < |ts| ==> r[i].(idleStartTime := ts[i].idleStartTime) == ts[i]
    ensures sc.state != Idle ==> forall i :: 0 <= i < |ts| ==> r[i].idleStartTime == 0
  {
    seq(|ts|, i requires 0 <= i < |ts| => BarStep(ts[i], sc, i, nows[i], delays[i]).timers)
  }

  /** Every bar's drawn height in one frame, by bar index: one per bar, and
      the minimum height for every bar in `Init` and `Stop`. */
  function Heights(ts: seq<BarTimers>, sc: Scene, nows: seq<int>, delays: seq<int>): (r: seq<real>)
    requires |nows| == |delays| == |ts|
    ensures |r| == |ts|
    ensures sc.state == Init || sc.state == Stop ==>
              forall i :: 0 <= i < |ts| ==> r[i] == sc.cfg.minVolumeBarHeight as real
  {
    seq(|ts|, i requires 0 <= i < |ts| => BarStep(ts[i], sc, i, nows[i], delays[i]).height)
  }

  /** Every bar of a frame read the same clock value. */
  predicate SameReading(nows: seq<int>) {
    forall i :: 0 <= i < |nows| ==> nows[i] == nows[0]
  }

  /** All bars agree on when the current idle sweep started. */
  predicate SharedIdleClock(ts: seq<BarTimers>) {
    forall i :: 0 <= i < |ts| ==> ts[i].idleStartTime == ts[0].idleStartTime
  }

  // ---------------------------------------------------------------- per-bar properties

  /** In `Init` and `Stop` a bar draws exactly the minimum height and changes
      nothing but clearing its idle clock. */
  lemma StoppedBarIsFlat(t: BarTimers, sc: Scene, index: int, now: int, delay: int)
    requires (sc.state == Init || sc.state == Stop)
    ensures BarStep(t, sc, index, now, delay) == BarFrame(t.(idleStartTime := 0), sc.cfg.minVolumeBarHeight as real)
  {
  }

  /** A draw in any state but `Idle` clears the idle clock and leaves the
      dance timers alone unless a dance cycle restarts. */
  lemma NonIdleDrawClearsIdleClock(t: BarTimers, sc: Scene, index: int, now: int, delay: int)
    requires sc.state != Idle
    ensures BarStep(t, sc, index, now, delay).timers.idleStartTime == 0
    ensures !(sc.state == Dance && now - t.danceStartTime > sc.cfg.danceDuration) ==>
              BarStep(t, sc, index, now, delay).timers == t.(idleStartTime := 0)
  {
  }

  /** Because a non-idle draw cleared the idle clock, the first idle draw
      afterwards (at any real clock reading, which exceeds `idleDuration`)
      starts a fresh sweep at `now`, with the sweep front at the middle. */
  lemma IdleRestartsAfterNonIdleDraw(t: BarTimers, sc1: Scene, sc2: Scene, index: int,
                                     now1: int, now2: int, d1: int, d2: int)
    requires sc1.state != Idle
    requires sc2.state == Idle && now2 > sc2.cfg.idleDuration
    ensures var r := BarStep(BarStep(t, sc1, index, now1, d1).timers, sc2, index, now2, d2);
            && r.timers.idleStartTime == now2
            && r.height == IdleHeight(sc2, -(Abs(index - Half(sc2.cfg.volumeCount)) as int))
  {
    var t1 := BarStep(t, sc1, index, now1, d1).timers;
    NonIdleDrawClearsIdleClock(t, sc1, index, now1, d1);
    assert now2 - t1.idleStartTime > sc2.cfg.idleDuration;
    assert IdleSweep(sc2.cfg, 0) == 0;
  }

  /** In `Idle` the sweep restarts exactly when more than `idleDuration` has
      passed since it started; no other timer moves. */
  lemma IdleCycleRule(t: BarTimers, sc: Scene, index: int, now: int, delay: int)
    requires sc.state == Idle
    ensures BarStep(t, sc, index, now, delay).timers ==
              if now - t.idleStartTime > sc.cfg.idleDuration then t.(idleStartTime := now) else t
  {
  }

  /** At one instant two bars whose idle clocks agree draw the same idle
      height when they sit at the same distance on either side of the middle
      index `volumeCount / 2`. */
  lemma IdleHeightsMirror(t1: BarTimers, t2: BarTimers, sc: Scene, i: int, j: int,
                          now: int, d1: int, d2: int)
    requires sc.state == Idle
    requires t1.idleStartTime == t2.idleStartTime
    requires i - Half(sc.cfg.volumeCount) == Half(sc.cfg.volumeCount) - j
    ensures BarStep(t1, sc, i, now, d1).height == BarStep(t2, sc, j, now, d2).height
  {
    assert Abs(i - Half(sc.cfg.volumeCount)) == Abs(j - Half(sc.cfg.volumeCount));
  }

  /** The idle window: outside offsets `[0, volumeIdleCount]` the bar draws
      the minimum height; inside, the shape is mirrored about the window's
      middle, so offsets `x` and `volumeIdleCount - x` draw the same. */
  lemma IdleWindow(sc: Scene, x: int)
    requires sc.cfg.volumeIdleCount >= 0
    ensures !(0 <= x <= sc.cfg.volumeIdleCount) ==> IdleHeight(sc, x) == sc.cfg.minVolumeBarHeight as real
    ensures 0 <= x <= sc.cfg.volumeIdleCount ==> IdleHeight(sc, x) == IdleHeight(sc, sc.cfg.volumeIdleCount - x)
  {
    var c := sc.cfg.volumeIdleCount;
    if 0 <= x <= c {
      var h := Half(c);
      if x <= h && c - x <= h {
        assert x == c - x;
      } else if x <= h {
        assert IdleArg(c, c - x) == Some(x);
      } else if c - x <= h {
        assert IdleArg(c, x) == Some(c - x);
      } else {
        assert false;
      }
    }
  }

  /** In `Dance` a new cycle starts exactly when more than `danceDuration`
      has passed since the current one started. It records the delay, starts
      `delay` milliseconds from now and fixes the new target height; between
      restarts the target height, start time and delay do not change. */
  lemma DanceCycleRule(t: BarTimers, sc: Scene, index: int, now: int, delay: int)
    requires sc.state == Dance
    ensures now - t.danceStartTime > sc.cfg.danceDuration ==>
              BarStep(t, sc, index, now, delay).timers ==
              BarTimers(DanceTarget(sc, index), now + delay, delay, 0)
    ensures !(now - t.danceStartTime > sc.cfg.danceDuration) ==>
              BarStep(t, sc, index, now, delay).timers == t.(idleStartTime := 0)
  {
  }

  /** A restarted cycle starts within the random delay window; while that
      delay has not yet elapsed the bar sits at the minimum height. */
  lemma DanceStagger(t: BarTimers, sc: Scene, index: int, now: int, delay: int)
    requires sc.state == Dance && RandomDelayOk(t, sc, now, delay)
    requires now - t.danceStartTime > sc.cfg.danceDuration
    ensures now <= BarStep(t, sc, index, now, delay).timers.danceStartTime < now + sc.cfg.maxDanceDelay
    ensures delay > 0 && sc.cfg.danceDuration >= 0 ==>
              BarStep(t, sc, index, now, delay).height == sc.cfg.minVolumeBarHeight as real
  {
  }

  /** Whatever the volume, the distribution and the interpolator, a dancing
      bar's drawn height stays in the bar height range. */
  lemma DanceHeightBounded(t: BarTimers, sc: Scene, index: int, now: int, delay: int)
    requires sc.state == Dance
    requires sc.cfg.minVolumeBarHeight <= sc.cfg.maxVolumeBarHeight
    ensures var h := BarStep(t, sc, index, now, delay).height;
            sc.cfg.minVolumeBarHeight as real <= h <= sc.cfg.maxVolumeBarHeight as real
  {
  }

  /** The bar settings of the defaults at density 1 with a flat
      distribution and the loudest volume: a restarted cycle targets the
      maximum height, and at the end of the cycle (fraction 1, where the
      default interpolator gives 1) the bar draws exactly that maximum. */
  lemma LoudDanceReachesMaximum(t: BarTimers, index: int, now: int, delay: int, d2: int)
    requires now - t.danceStartTime > 250 && 0 <= delay < 80
    ensures var cfg := Config(37, 16, 35, 4, 250, 80, 3500, 16, 8, 36, 3, 1);
            var sc := Scene(cfg, Dance, 35, seq(37, _ => 1.0), GetInterpolation, DefaultIdleHeight, 1.0);
            var t1 := BarStep(t, sc, index, now, delay).timers;
            && t1.height == 36
            && BarStep(t1, sc, index, now + delay + 250, d2).height == 36.0
  {
    var cfg := Config(37, 16, 35, 4, 250, 80, 3500, 16, 8, 36, 3, 1);
    var sc := Scene(cfg, Dance, 35, seq(37, _ => 1.0), GetInterpolation, DefaultIdleHeight, 1.0);
    assert Portion(sc.distribution, index) == 1.0;
    assert RawHeight(cfg, 35) == 36.0;
    assert DanceTarget(sc, index) == 36;
    var t1 := BarStep(t, sc, index, now, delay).timers;
    assert t1.danceStartTime == now + delay;
    assert (now + delay + 250 - t1.danceStartTime) as real / 250 as real == 1.0;
    assert GetInterpolation(1.0) == 1.0;
  }

  /** The distribution multiplier scales the whole raw height, the minimum
      included: at the defaults (density 1) a volume at or below `minVolume`
      gives bar 0 (multiplier 0.6) a target of 4 px, below the 8 px minimum
      bar height. */
  lemma QuietTargetUndercutsMinimum(volume: int)
    requires volume <= 4
    ensures var sc := Scene(DefaultConfig(1.0), Dance, volume, DefaultDistribution(), GetInterpolation, DefaultIdleHeight, 1.0);
            && DanceTarget(sc, 0) == 4
            && sc.cfg.minVolumeBarHeight == 8
  {
    var sc := Scene(DefaultConfig(1.0), Dance, volume, DefaultDistribution(), GetInterpolation, DefaultIdleHeight, 1.0);
    assert Dp2Px(8.0, 1.0) == 8;
    assert ClampVolume(sc.cfg, volume) == 4;
    assert RawHeight(sc.cfg, volume) == 8.0;
    assert Portion(sc.distribution, 0) == 0.6;
    assert Trunc(8.0 * 0.6) == 4;
  }

  /** At the first instant of a fresh idle sweep with the default shaper,
      the middle bar draws `idleHeightGetter(0)`, i.e. 4 dp, and every other
      bar the minimum height. */
  lemma IdleSweepStartsAtMiddle(t: BarTimers, sc: Scene, index: int, now: int, delay: int)
    requires sc.state == Idle && sc.cfg.volumeIdleCount >= 0 && t.idleStartTime == 0
    requires now > sc.cfg.idleDuration
    requires forall x :: sc.idleHeight(x) == DefaultIdleHeight(x)
    ensures BarStep(t, sc, index, now, delay).height ==
              if index == Half(sc.cfg.volumeCount) then Dp2Px(4.0, sc.density) as real
              else sc.cfg.minVolumeBarHeight as real
  {
    assert IdleSweep(sc.cfg, 0) == 0;
    if index == Half(sc.cfg.volumeCount) {
      assert IdleArg(sc.cfg.volumeIdleCount, 0) == Some(0);
      assert sc.idleHeight(0) == 4.0;
    }
  }

  /** Idle heights are not clamped to the bar height range: with the
      defaults at density 1 the middle bar draws 4 px at the start of a
      sweep, below the 8 px minimum bar height. */
  lemma IdleHeightCanUndercutMinimum(t: BarTimers, now: int)
    requires t.idleStartTime == 0 && now > 3500
    ensures var sc := Scene(DefaultConfig(1.0), Idle, 0, DefaultDistribution(), GetInterpolation, DefaultIdleHeight, 1.0);
            && BarStep(t, sc, 18, now, 0).height == 4.0
            && sc.cfg.minVolumeBarHeight == 8
  {
    var sc := Scene(DefaultConfig(1.0), Idle, 0, DefaultDistribution(), GetInterpolation, DefaultIdleHeight, 1.0);
    assert Half(37) == 18;
    IdleSweepStartsAtMiddle(t, sc, 18, now, 0);
    assert Dp2Px(4.0, 1.0) == 4;
    assert Dp2Px(8.0, 1.0) == 8;
  }

  /** With an `idleDuration` of 0 (and a clock that does not run behind the
      sweep's start) every idle draw restarts the sweep at `now`, so the
      sweep never leaves the middle: the middle bar draws the idle height
      for offset 0 and every other bar the minimum height. */
  lemma ZeroIdleDurationLightsMiddleOnly(t: BarTimers, sc: Scene, index: int, now: int, delay: int)
    requires sc.state == Idle && sc.cfg.idleDuration == 0 && sc.cfg.volumeIdleCount >= 0
    requires now >= t.idleStartTime
    ensures BarStep(t, sc, index, now, delay).timers.idleStartTime == now
    ensures BarStep(t, sc, index, now, delay).height ==
              if index == Half(sc.cfg.volumeCount) then IdleHeight(sc, 0) else sc.cfg.minVolumeBarHeight as real
  {
    assert IdleSweep(sc.cfg, 0) == 0;
  }

  // ---------------------------------------------------------------- frame properties

  /** Outside `Idle` a frame leaves every idle clock cleared. In `Idle` the
      bars' idle clocks stay in agreement when every bar of the frame read
      the same clock value: all take the same restart decision. */
  lemma {:induction false} SharedIdleClockPreserved(ts: seq<BarTimers>, sc: Scene, nows: seq<int>, delays: seq<int>)
    requires |nows| == |delays| == |ts|
    ensures sc.state != Idle ==> SharedIdleClock(StepAll(ts, sc, nows, delays))
    ensures sc.state != Idle ==> forall i :: 0 <= i < |ts| ==> StepAll(ts, sc, nows, delays)[i].idleStartTime == 0
    ensures SharedIdleClock(ts) && SameReading(nows) ==> SharedIdleClock(StepAll(ts, sc, nows, delays))
  {
    var r := StepAll(ts, sc, nows, delays);
    if sc.state != Idle || (SharedIdleClock(ts) && SameReading(nows)) {
      forall i | 0 <= i < |r|
        ensures r[i].idleStartTime == r[0].idleStartTime
      {
        if sc.state == Idle {
          IdleCycleRule(ts[i], sc, i, nows[i], delays[i]);
          IdleCycleRule(ts[0], sc, 0, nows[0], delays[0]);
        } else {
          NonIdleDrawClearsIdleClock(ts[i], sc, i, nows[i], delays[i]);
          NonIdleDrawClearsIdleClock(ts[0], sc, 0, nows[0], delays[0]);
        }
      }
    }
  }

  /** The bars read the clock one after another, so one frame can split a
      shared idle clock: with the defaults, two bars whose sweep started at
      1000 read 4500 and 4501; the first is exactly `idleDuration` into the
      cycle and keeps it, the second is past it and restarts. */
  lemma IdleClockCanSplit()
    ensures var sc := Scene(DefaultConfig(1.0), Idle, 0, DefaultDistribution(), GetInterpolation, DefaultIdleHeight, 1.0);
            var ts := [BarTimers(0, 0, 0, 1000), BarTimers(0, 0, 0, 1000)];
            var r := StepAll(ts, sc, [4500, 4501], [0, 0]);
            && SharedIdleClock(ts)
            && r[0].idleStartTime == 1000 && r[1].idleStartTime == 4501
  {
    var sc := Scene(DefaultConfig(1.0), Idle, 0, DefaultDistribution(), GetInterpolation, DefaultIdleHeight, 1.0);
    assert sc.cfg.idleDuration == 3500;
  }

  /** In `Init` and `Stop` every bar of a frame draws the minimum height. */
  lemma {:induction false} StoppedFrameIsFlat(ts: seq<BarTimers>, sc: Scene, nows: seq<int>, delays: seq<int>)
    requires |nows| == |delays| == |ts| && (sc.state == Init || sc.state == Stop)
    ensures forall i :: 0 <= i < |ts| ==> Heights(ts, sc, nows, delays)[i] == sc.cfg.minVolumeBarHeight as real
  {
    forall i | 0 <= i < |ts|
      ensures Heights(ts, sc, nows, delays)[i] == sc.cfg.minVolumeBarHeight as real
    {
      StoppedBarIsFlat(ts[i], sc, i, nows[i], delays[i]);
    }
  }

  /** In `Idle`, with the bars' idle clocks in agreement and one clock value
      read by the whole frame, the frame's heights are symmetric about the
      middle index `volumeCount / 2`. */
  lemma {:induction false} IdleFrameIsSymmetric(ts: seq<BarTimers>, sc: Scene, nows: seq<int>, delays: seq<int>)
    requires |nows| == |delays| == |ts| && sc.state == Idle
    requires SharedIdleClock(ts) && SameReading(nows)
    ensures forall i, j :: 0 <= i < |ts| && 0 <= j < |ts| && i - Half(sc.cfg.volumeCount) == Half(sc.cfg.volumeCount) - j ==>
              Heights(ts, sc, nows, delays)[i] == Heights(ts, sc, nows, delays)[j]
  {
    var hs := Heights(ts, sc, nows, delays);
    forall i, j | 0 <= i < |ts| && 0 <= j < |ts| && i - Half(sc.cfg.volumeCount) == Half(sc.cfg.volumeCount) - j
      ensures hs[i] == hs[j]
    {
      IdleHeightsMirror(ts[i], ts[j], sc, i, j, nows[0], delays[i], delays[j]);
    }
  }

  /** In `Dance` every bar of a frame draws a height in the bar height range. */
  lemma {:induction false} DanceFrameIsBounded(ts: seq<BarTimers>, sc: Scene, nows: seq<int>, delays: seq<int>)
    requires |nows| == |delays| == |ts| && sc.state == Dance
    requires sc.cfg.minVolumeBarHeight <= sc.cfg.maxVolumeBarHeight
    ensures forall i :: 0 <= i < |ts| ==>
              sc.cfg.minVolumeBarHeight as real <= Heights(ts, sc, nows, delays)[i] <= sc.cfg.maxVolumeBarHeight as real
  {
    forall i | 0 <= i < |ts|
      ensures sc.cfg.minVolumeBarHeight as real <= Heights(ts, sc, nows, delays)[i] <= sc.cfg.maxVolumeBarHeight as real
    {
      DanceHeightBounded(ts[i], sc, i, nows[i], delays[i]);
    }
  }
}
