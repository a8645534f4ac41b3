/** The `SoundWaveView` widget and its inner `VolumeBar` class: the state the
    view keeps, the operations that change it and the per-frame draw that
    advances every bar's timers. */
module SoundWave {
  import opened KotlinNumbers
  import opened WaveConfig
  import opened WaveState
  import opened BarAnimation
  import opened Layout

  /** `View.VISIBLE`, `View.INVISIBLE`, `View.GONE`. */
  datatype Visibility = Visible | Invisible | Gone

  /** The padding `onMeasure` adds around the bars. */
  datatype Padding = Padding(start: int, end: int, top: int, bottom: int)

  /** The size `onMeasure` settles on. */
  datatype Dimension = Dimension(width: int, height: int)

  /** One column of the wave. Its timers advance lazily, whenever it draws. */
  class VolumeBar {
    var height: int
    var danceStartTime: int
    var danceStartDelay: int
    var idleStartTime: int

    function Timers(): BarTimers
      reads this
    {
      BarTimers(height, danceStartTime, danceStartDelay, idleStartTime)
    }

    constructor ()
      ensures Timers() == NewBar
    {
      height, danceStartTime, danceStartDelay, idleStartTime := 0, 0, 0, 0;
    }

    /** `draw`: clears the idle clock outside `Idle`, then draws for the
        current state and returns the height drawn. */
    method Draw(sc: Scene, index: int, now: int, delay: int) returns (drawn: real)
      requires RandomDelayOk(Timers(), sc, now, delay)
      modifies this
      ensures BarFrame(Timers(), drawn) == BarStep(old(Timers()), sc, index, now, delay)
    {
      if sc.state != Idle {
        idleStartTime := 0;
      }
      match sc.state {
        case Idle =>
          drawn := DrawIdle(sc, index, now);
        case Dance =>
          drawn := DrawDance(sc, index, now, delay);
        case Init =>
          drawn := sc.cfg.minVolumeBarHeight as real;
        case Stop =>
          drawn := sc.cfg.minVolumeBarHeight as real;
      }
    }

    /** `drawIdle` */
    method DrawIdle(sc: Scene, index: int, now: int) returns (drawn: real)
      modifies this`idleStartTime
      ensures BarFrame(Timers(), drawn) == IdleStep(old(Timers()), sc, index, now)
    {
      if now - idleStartTime > sc.cfg.idleDuration {
        idleStartTime := now;
      }
      var idleStart := IdleSweep(sc.cfg, now - idleStartTime);
      var mid := Half(sc.cfg.volumeCount);
      var x := if index >= mid then mid + idleStart - index else index - (mid - idleStart);
      var half := Half(sc.cfg.volumeIdleCount);
      if 0 <= x <= half {
        drawn := Dp2Px(sc.idleHeight(x), sc.density) as real;
      } else if half + 1 <= x <= sc.cfg.volumeIdleCount {
        drawn := Dp2Px(sc.idleHeight(sc.cfg.volumeIdleCount - x), sc.density) as real;
      } else {
        drawn := sc.cfg.minVolumeBarHeight as real;
      }
    }

    /** `drawDance` */
    method DrawDance(sc: Scene, index: int, now: int, delay: int) returns (drawn: real)
      requires now - danceStartTime > sc.cfg.danceDuration ==> 0 <= delay < sc.cfg.maxDanceDelay
      modifies this`danceStartDelay, this`danceStartTime, this`height
      ensures BarFrame(Timers(), drawn) == DanceStep(old(Timers()), sc, index, now, delay)
    {
      if now - danceStartTime > sc.cfg.danceDuration {
        danceStartDelay := delay;
        danceStartTime := now + delay;
        height := DanceTarget(sc, index);
      }
      drawn := DanceHeight(sc, height, now - danceStartTime);
    }
  }

  class SoundWaveView {
    /** Display density used by `dp2px`. */
    const density: real
    /** `volumeBarList`: one bar per column, created once. */
    const bars: seq<VolumeBar>

    var cfg: Config
    var distribution: seq<real>
    var state: State
    var currentVolume: int
    var interpolation: real -> real
    var idleHeight: int -> real
    var smoother: (int, int) -> int
    var enableIdle: bool

    /** The bars are distinct objects. */
    predicate DistinctBars() {
      forall i, j :: 0 <= i < j < |bars| ==> bars[i] != bars[j]
    }

    ghost function AllTimers(): seq<BarTimers>
      reads bars
    {
      seq(|bars|, i requires 0 <= i < |bars| reads bars => bars[i].Timers())
    }

    /** The view's fields a bar reads while drawing. */
    function CurrentScene(): Scene
      reads this
    {
      Scene(cfg, state, currentVolume, distribution, interpolation, idleHeight, density)
    }

    /** The state and volume a sample changes. */
    function CurrentMachine(): Machine
      reads this
    {
      Machine(state, currentVolume)
    }

    /** Construction (`init`): the given settings (the field initialisers,
        or the styled attributes), state `Init`, volume unset, the default
        curves and smoother, idle mode on, and `volumeCount` fresh bars. */
    constructor (config: Config, displayDensity: real)
      ensures DistinctBars() && SharedIdleClock(AllTimers())
      ensures cfg == config && density == displayDensity
      ensures CurrentMachine() == Initial && enableIdle
      ensures distribution == DefaultDistribution()
      ensures forall t :: interpolation(t) == GetInterpolation(t)
      ensures forall x :: idleHeight(x) == DefaultIdleHeight(x)
      ensures forall c, n :: smoother(c, n) == DefaultSmoother(c, n)
      ensures |bars| == CoerceAtLeast(config.volumeCount, 0)
      ensures forall i :: 0 <= i < |bars| ==> fresh(bars[i]) && bars[i].Timers() == NewBar
    {
      var list: seq<VolumeBar> := [];
      while |list| < config.volumeCount
        invariant |list| <= CoerceAtLeast(config.volumeCount, 0)
        invariant forall i :: 0 <= i < |list| ==> fresh(list[i]) && list[i].Timers() == NewBar
        invariant forall i, j :: 0 <= i < j < |list| ==> list[i] != list[j]
        decreases config.volumeCount - |list|
      {
        var bar := new VolumeBar();
        list := list + [bar];
      }
      bars := list;
      density := displayDensity;
      cfg := config;
      distribution := DefaultDistribution();
      state := Init;
      currentVolume := -1;
      interpolation := GetInterpolation;
      idleHeight := DefaultIdleHeight;
      smoother := DefaultSmoother;
      enableIdle := true;
      new;
      assert forall i :: 0 <= i < |bars| ==> AllTimers()[i] == NewBar;
    }

    /** `handleVolume`, with the one-line `smoothVolumeChange` (a call of the
        installed smoother) written in place. */
    method HandleVolume(newVolume: int)
      modifies this`currentVolume, this`state
      ensures CurrentMachine() == OnVolume(old(CurrentMachine()), newVolume, cfg.minVolume, enableIdle, smoother)
    {
      if currentVolume < 0 {
        currentVolume := newVolume;
        return;
      }
      currentVolume := smoother(currentVolume, newVolume);
      state := if currentVolume < cfg.minVolume && enableIdle then Idle else Dance;
    }

    /** `setVolumeChangeSmoother` */
    method SetVolumeChangeSmoother(f: (int, int) -> int)
      modifies this`smoother
      ensures forall c, n :: smoother(c, n) == f(c, n)
    {
      smoother := f;
    }

    /** `setIdleHeightGetter` */
    method SetIdleHeightGetter(f: int -> real)
      modifies this`idleHeight
      ensures forall x :: idleHeight(x) == f(x)
    {
      idleHeight := f;
    }

    /** `setDistribution` */
    method SetDistribution(d: seq<real>)
      modifies this`distribution
      ensures distribution == d
    {
      distribution := d;
    }

    /** `setInterpolator` */
    method SetInterpolator(f: real -> real)
      modifies this`interpolation
      ensures forall t :: interpolation(t) == f(t)
    {
      interpolation := f;
    }

    /** `enableIdle` */
    method EnableIdle(enable: bool)
      modifies this`enableIdle
      ensures enableIdle == enable
    {
      enableIdle := enable;
    }

    /** Assigning the public tunable properties. The bar list keeps the
        length it was created with. */
    method SetConfig(c: Config)
      modifies this`cfg
      ensures cfg == c
    {
      cfg := c;
    }

    /** `stopDance`: every later frame is flat until a sample arrives while
        a volume is recorded (a sample while the volume is unset keeps
        `Stop`), or until the view becomes visible again, which gives the
        equally flat `Init`. */
    method StopDance()
      modifies this`state
      ensures state == Stop && IsStop()
      ensures currentVolume == old(currentVolume)
    {
      state := Stop;
    }

    /** `isStop` */
    function IsStop(): (r: bool)
      reads this
      ensures r <==> CurrentMachine().state == Stop
    {
      state == Stop
    }

    /** `onVisibilityChanged`, state part: becoming visible resets the state
        to `Init`; becoming invisible or gone changes nothing here. Neither
        touches the volume or any bar. */
    method OnVisibilityChanged(visibility: Visibility)
      modifies this`state
      ensures state == if visibility == Visible then Init else old(state)
      ensures currentVolume == old(currentVolume)
      ensures AllTimers() == old(AllTimers())
    {
      if visibility == Visible {
        state := Init;
      }
    }

    /** `getWaveAreaWidth`: the span from the left edge of the leftmost bar
        to the right edge of the rightmost bar as `onDraw` lays them out. */
    function GetWaveAreaWidth(): (w: int)
      reads this
      ensures |bars| >= 1 ==>
                w == (BarCenter(|bars| - 1, DrawMid(|bars|), cfg.volumeBarHalfWidth, cfg.volumeBarMargin) + cfg.volumeBarHalfWidth)
                     - (BarCenter(0, DrawMid(|bars|), cfg.volumeBarHalfWidth, cfg.volumeBarMargin) - cfg.volumeBarHalfWidth)
    {
      var size := |bars|;
      if size >= 1 then
        WaveAreaSpansAllBars(size, DrawMid(size), cfg.volumeBarHalfWidth, cfg.volumeBarMargin);
        WaveAreaWidth(size, cfg.volumeBarHalfWidth, cfg.volumeBarMargin)
      else
        WaveAreaWidth(size, cfg.volumeBarHalfWidth, cfg.volumeBarMargin)
    }

    /** `onMeasure`: each dimension follows its measure mode. The desired
        width is the horizontal padding plus the wave area of `volumeCount`
        bars, the desired height the vertical padding plus the tallest bar;
        `EXACTLY` takes the parent's size, `AT_MOST` the smaller of the two,
        anything else the desired size. While the bar list still has
        `volumeCount` bars, that wave area is `getWaveAreaWidth()`. */
    function OnMeasure(widthMode: MeasureMode, widthSize: int, heightMode: MeasureMode, heightSize: int,
                       padding: Padding): (d: Dimension)
      reads this
      ensures var w := padding.start + padding.end + WaveAreaWidth(cfg.volumeCount, cfg.volumeBarHalfWidth, cfg.volumeBarMargin);
              && (widthMode == Exactly ==> d.width == widthSize)
              && (widthMode == AtMost ==> d.width == if w < widthSize then w else widthSize)
              && (widthMode == Unspecified ==> d.width == w)
      ensures var h := cfg.maxVolumeBarHeight + padding.top + padding.bottom;
              && (heightMode == Exactly ==> d.height == heightSize)
              && (heightMode == AtMost ==> d.height == if h < heightSize then h else heightSize)
              && (heightMode == Unspecified ==> d.height == h)
      ensures |bars| == cfg.volumeCount ==>
                GetWaveAreaWidth() == WaveAreaWidth(cfg.volumeCount, cfg.volumeBarHalfWidth, cfg.volumeBarMargin)
    {
      Dimension(
        Resolve(widthMode, widthSize,
                DesiredWidth(cfg.volumeCount, cfg.volumeBarHalfWidth, cfg.volumeBarMargin, padding.start, padding.end)),
        Resolve(heightMode, heightSize, cfg.maxVolumeBarHeight + padding.top + padding.bottom))
    }

    /** `onDraw`, heights only: visits the bars in draw order and returns the
        visited indices with the heights drawn. Each bar reads the clock
        itself while it draws, so bar `i` draws at its own reading `nows[i]`
        (with `delays[i]` as its random delay). Every bar's timers advance
        exactly as its own draw says. Outside `Idle` the idle clocks end up
        shared (all cleared); in `Idle` a shared idle clock stays shared when
        the whole frame read one clock value. */
    method OnDraw(nows: seq<int>, delays: seq<int>) returns (order: seq<int>, drawn: seq<real>)
      requires DistinctBars()
      requires |nows| == |delays| == |bars|
      requires forall i :: 0 <= i < |bars| ==> RandomDelayOk(bars[i].Timers(), CurrentScene(), nows[i], delays[i])
      modifies bars
      ensures order == DrawOrder(|bars|)
      ensures AllTimers() == StepAll(old(AllTimers()), CurrentScene(), nows, delays)
      ensures |drawn| == |order|
      ensures forall k :: 0 <= k < |order| ==>
                drawn[k] == Heights(old(AllTimers()), CurrentScene(), nows, delays)[order[k]]
      ensures state != Idle ==> SharedIdleClock(AllTimers())
      ensures state != Idle ==> forall i :: 0 <= i < |bars| ==> bars[i].Timers().idleStartTime == 0
      ensures SharedIdleClock(old(AllTimers())) && SameReading(nows) ==> SharedIdleClock(AllTimers())
    {
      var sc := CurrentScene();
      ghost var pre := AllTimers();
      order, drawn := DrawFrame(sc, nows, delays, pre);
      assert AllTimers() == StepAll(pre, sc, nows, delays);
      SharedIdleClockPreserved(pre, sc, nows, delays);
    }

    /** The body of `onDraw` over bars whose timers are `pre`: the middle bar,
        then the right-hand loop, then the left-hand loop. */
    method DrawFrame(sc: Scene, nows: seq<int>, delays: seq<int>, ghost pre: seq<BarTimers>)
      returns (order: seq<int>, drawn: seq<real>)
      requires DistinctBars()
      requires |nows| == |delays| == |bars| == |pre|
      requires forall j :: 0 <= j < |bars| ==> bars[j].Timers() == pre[j]
      requires forall j :: 0 <= j < |bars| ==> RandomDelayOk(pre[j], sc, nows[j], delays[j])
      modifies bars
      ensures order == DrawOrder(|bars|) && |drawn| == |order|
      ensures forall j :: 0 <= j < |bars| ==> bars[j].Timers() == StepAll(pre, sc, nows, delays)[j]
      ensures forall k :: 0 <= k < |order| ==> drawn[k] == Heights(pre, sc, nows, delays)[order[k]]
    {
      ghost var hs := Heights(pre, sc, nows, delays);
      var n := |bars|;
      if n == 0 {
        order, drawn := [], [];
        return;
      }
      var mid := (n - 1) / 2;
      var h := DrawBar(sc, mid, nows, delays, pre);
      var right := DrawRight(sc, mid, nows, delays, pre);
      var left := DrawLeft(sc, mid, nows, delays, pre);
      order, drawn := DrawOrder(n), [h] + right + left;
      assert |hs| == n && DrawMid(n) == mid;
      SplicedHeights(hs, mid, h, right, left);
    }

    /** One bar of the frame draws, at its own clock reading and random
        delay, from its timers in `pre`. */
    method DrawBar(sc: Scene, i: int, nows: seq<int>, delays: seq<int>, ghost pre: seq<BarTimers>)
      returns (h: real)
      requires DistinctBars() && |nows| == |delays| == |bars| == |pre| && 0 <= i < |bars|
      requires bars[i].Timers() == pre[i] && RandomDelayOk(pre[i], sc, nows[i], delays[i])
      modifies bars[i]
      ensures forall j :: 0 <= j < |bars| && j != i ==> bars[j].Timers() == old(bars[j].Timers())
      ensures bars[i].Timers() == StepAll(pre, sc, nows, delays)[i]
      ensures h == Heights(pre, sc, nows, delays)[i]
    {
      h := bars[i].Draw(sc, i, nows[i], delays[i]);
    }

    /** The heights of the middle bar, the right-hand loop and the left-hand
        loop, concatenated, are the frame's heights listed in draw order. */
    static lemma SplicedHeights(hs: seq<real>, mid: int, h: real, right: seq<real>, left: seq<real>)
      requires |hs| > 0 && mid == DrawMid(|hs|) && h == hs[mid]
      requires |right| == |hs| - mid - 1
      requires forall k :: 0 <= k < |right| ==> right[k] == hs[mid + 1 + k]
      requires |left| == mid
      requires forall k :: 0 <= k < |left| ==> left[k] == hs[mid - 1 - k]
      ensures |[h] + right + left| == |DrawOrder(|hs|)|
      ensures forall k :: 0 <= k < |hs| ==> ([h] + right + left)[k] == hs[DrawOrder(|hs|)[k]]
    {
      var drawn := [h] + right + left;
      var order := DrawOrder(|hs|);
      var up := Ascending(mid + 1, |hs|);
      forall k | 0 <= k < |hs| ensures drawn[k] == hs[order[k]] {
        if k == 0 {
        } else if k <= |right| {
          assert drawn[k] == right[k - 1];
          assert order[k] == up[k - 1];
        } else {
          assert drawn[k] == left[k - 1 - |right|];
        }
      }
    }

    /** The right-hand loop of `onDraw`: bars `mid + 1` up to the last, left
        to right, each advancing from its timers in `pre`. */
    method DrawRight(sc: Scene, mid: int, nows: seq<int>, delays: seq<int>, ghost pre: seq<BarTimers>)
      returns (drawn: seq<real>)
      requires DistinctBars() && |nows| == |delays| == |bars| == |pre| && 0 <= mid < |bars|
      requires forall j :: mid < j < |bars| ==> bars[j].Timers() == pre[j]
      requires forall j :: mid < j < |bars| ==> RandomDelayOk(pre[j], sc, nows[j], delays[j])
      modifies bars
      ensures |drawn| == |bars| - mid - 1
      ensures forall j :: 0 <= j <= mid ==> bars[j].Timers() == old(bars[j].Timers())
      ensures forall j :: mid < j < |bars| ==> bars[j].Timers() == StepAll(pre, sc, nows, delays)[j]
      ensures forall k :: 0 <= k < |drawn| ==> drawn[k] == Heights(pre, sc, nows, delays)[mid + 1 + k]
    {
      ghost var post := StepAll(pre, sc, nows, delays);
      ghost var hs := Heights(pre, sc, nows, delays);
      drawn := [];
      var i := mid + 1;
      while i < |bars|
        invariant mid + 1 <= i <= |bars| && |drawn| == i - mid - 1
        invariant forall j :: 0 <= j <= mid ==> bars[j].Timers() == old(bars[j].Timers())
        invariant forall j :: mid < j < i ==> bars[j].Timers() == post[j]
        invariant forall j :: i <= j < |bars| ==> bars[j].Timers() == pre[j]
        invariant forall k :: 0 <= k < |drawn| ==> drawn[k] == hs[mid + 1 + k]
      {
        var h := DrawBar(sc, i, nows, delays, pre);
        drawn := drawn + [h];
        i := i + 1;
      }
    }

    /** The left-hand loop of `onDraw`: bars `mid - 1` down to 0, right to
        left (drawn on the half-turned canvas), each advancing from its timers
        in `pre`. */
    method DrawLeft(sc: Scene, mid: int, nows: seq<int>, delays: seq<int>, ghost pre: seq<BarTimers>)
      returns (drawn: seq<real>)
      requires DistinctBars() && |nows| == |delays| == |bars| == |pre| && 0 <= mid < |bars|
      requires forall j :: 0 <= j < mid ==> bars[j].Timers() == pre[j]
      requires forall j :: 0 <= j < mid ==> RandomDelayOk(pre[j], sc, nows[j], delays[j])
      modifies bars
      ensures |drawn| == mid
      ensures forall j :: mid <= j < |bars| ==> bars[j].Timers() == old(bars[j].Timers())
      ensures forall j :: 0 <= j < mid ==> bars[j].Timers() == StepAll(pre, sc, nows, delays)[j]
      ensures forall k :: 0 <= k < |drawn| ==> drawn[k] == Heights(pre, sc, nows, delays)[mid - 1 - k]
    {
      ghost var post := StepAll(pre, sc, nows, delays);
      ghost var hs := Heights(pre, sc, nows, delays);
      drawn := [];
      var i := mid - 1;
      while i >= 0
        invariant -1 <= i <= mid - 1 && |drawn| == mid - 1 - i
        invariant forall j :: mid <= j < |bars| ==> bars[j].Timers() == old(bars[j].Timers())
        invariant forall j :: i < j < mid ==> bars[j].Timers() == post[j]
        invariant forall j :: 0 <= j <= i ==> bars[j].Timers() == pre[j]
        invariant forall k :: 0 <= k < |drawn| ==> drawn[k] == hs[mid - 1 - k]
      {
        var h := DrawBar(sc, i, nows, delays, pre);
        drawn := drawn + [h];
        i := i - 1;
      }
    }
  }
}
