# SoundView volume-bar engine in Dafny

SoundView is an Android widget library. Its `SoundWaveView` draws a row of
vertical bars that animate in one of three ways, driven by live audio volume:

- an idle sweep that runs outward from the middle bar;
- a volume-driven dance, where every bar bounces toward a target height on
  its own staggered cycle;
- a flat stop.

This project models the engine behind that widget, together with the peak
bucketing of the demo app's `WaveformView`. It proves properties of the
model. The modelled parts are:

- **State and volume** (`wave_state.dfy`, `sound_wave_view.dfy`). These cover:
  - the four `State` constants;
  - `handleVolume`, which adopts a sample unsmoothed and without a
    transition while `currentVolume` is negative (at first, and again
    whenever the smoothed volume drops below 0), and otherwise smooths it
    with the pluggable smoother (by default `(c + n) / 2`);
  - the Idle/Dance transition;
  - `stopDance` and `isStop`;
  - the setters;
  - the state part of `onVisibilityChanged`.
- **Bar animation** (`bar_animation.dfy`, `sound_wave_view.dfy`). Each
  `VolumeBar` is a class whose four timer fields change in place when it
  draws. The methods `Draw`, `DrawIdle` and `DrawDance` are proved against
  pure step functions over a `BarTimers` value and a `Scene` snapshot of the
  view's settings. The properties of the animation are proved about those
  step functions.
- **Frame** (`sound_wave_view.dfy`). `onDraw` draws the middle bar, then the
  bars to its right, then the bars to its left. Each bar reads the clock
  itself while it draws, so a frame takes one clock reading per bar,
  `nows[i]` for bar `i`. The method returns the visited indices with the
  heights drawn. It is proved to:
  - visit the bars in `DrawOrder`;
  - advance every bar as its own step says, at its own reading;
  - leave every idle clock cleared outside `Idle`, and keep a shared idle
    clock shared in `Idle` when all bars of the frame read the same value.

  Readings that differ within a frame can split a shared idle clock
  (`IdleClockCanSplit`), after which the mirrored bars of the idle sweep
  can be one step apart.
- **Layout** (`layout.dfy`). This covers the draw order, `getWaveAreaWidth`
  and the three measure modes of `onMeasure`.
- **Numbers and defaults** (`kotlin_numbers.dfy`, `wave_config.dfy`). These
  spell out Kotlin's arithmetic:
  - `Int / 2` truncates toward zero;
  - `Float.toInt()` truncates toward zero;
  - the `coerceAtLeast` and `coerceAtMost` clamps.

  They also hold the field defaults, the styled-attribute defaults, the
  height distribution and the dance interpolator.
- **Waveform** (`waveform_view.dfy`). `updateData` stores the caller's array.
  `onDraw` splits it into 50 buckets and scans each bucket for its peak
  magnitude with nested loops. The body of the outer loop is the method
  `ScanBucket`, so that each loop is proved on its own.

The clock (`System.currentTimeMillis()`) is the parameter `now` of a bar's
draw, and the sequence `nows` of a frame. The random
start delay of a new dance cycle (`random.nextInt(maxDanceDelay)`) is the
parameter `delay`. It must lie in `[0, maxDanceDelay)` only when a cycle
actually restarts. `dp2px` is truncation of `dp * density`, and the display
density is a constructor parameter. Float arithmetic is exact `real`
arithmetic.

Some behaviour of the code is easy to miss when reading it, so the model
states it as lemmas:

- **A sample ends `Stop`.** While the current volume is non-negative,
  `handleVolume` (SoundWaveView.kt:247-252) re-evaluates the state on every
  sample, so `Stop` lasts only until the next such sample
  (`SampleLeavesStop`).
- **A sample while the volume is negative changes no state.** It only sets
  the volume. This holds for the first sample (`BootstrapThenRepeat`), after
  a negative first sample (`NegativeSampleKeepsBootstrap`), and again after
  a smoothed volume drops below 0. In that last case the view keeps
  whatever state the smoothing step chose, even `Idle` at a volume above
  `minVolume` (`NegativeSmoothedVolumeRebootstraps`, `RebootstrapExample`).
- **The multiplier scales the minimum too.** The distribution multiplier
  scales the whole raw height, the minimum bar height included
  (SoundWaveView.kt:136-142). At the defaults at density 1 a quiet volume gives bar 0 a
  target of 4 px, below the 8 px minimum (`QuietTargetUndercutsMinimum`).
- **Idle heights are not clamped.** Only dance heights are clamped to the
  bar height range (SoundWaveView.kt:144-148). With the defaults at density 1, the middle
  bar starts an idle sweep at 4 px, below the 8 px minimum
  (`IdleHeightCanUndercutMinimum`).
- **Degenerate settings draw finite heights.** `NaN.toInt()` is 0, and
  `fraction in 0f..1f` is false for NaN and the infinities. So a
  `danceDuration` of 0 draws every dance frame at the minimum height
  (`DanceHeight`), `minVolume == maxVolume` gives every new target 0
  (`DanceTarget`), and an `idleDuration` of 0 lights only the middle bar
  (`ZeroIdleDurationLightsMiddleOnly`).

## Model

| member | source | states |
|---|---|---|
| KotlinNumbers.Half | soundwavelib/src/main/java/com/soundwave/lib/SoundWaveView.kt:101 | Kotlin `Int / 2` truncates toward zero: for a >= 0 the result is the floor half, for a < 0 the ceiling half |
| KotlinNumbers.Trunc | soundwavelib/src/main/java/com/soundwave/lib/SoundWaveView.kt:142 | `Float.toInt()` rounds toward zero: the result is within 1 of x on x's side of 0 |
| WaveConfig.Dp2Px | soundwavelib/src/main/java/com/soundwave/lib/SoundWaveView.kt:238-240 | a non-negative scaled dimension converts to the largest whole pixel count not above it |
| WaveConfig.DefaultConfig | soundwavelib/src/main/java/com/soundwave/lib/SoundWaveView.kt:167-180 | the field defaults give a non-empty volume domain (4 < 35), positive durations and delay bound, one bar per distribution entry, and ordered bar heights on any non-negative density |
| WaveConfig.StyledDefaults | soundwavelib/src/main/java/com/soundwave/lib/SoundWaveView.kt:215-226 | the styled-attribute fallbacks equal the field defaults except that `maxVolume` is 50 instead of 35 |
| WaveConfig.DefaultDistribution | soundwavelib/src/main/java/com/soundwave/lib/SoundWaveView.kt:181-186 | 37 multipliers, each within [0.6, 1.5] |
| WaveConfig.DefaultIdleHeight | soundwavelib/src/main/java/com/soundwave/lib/SoundWaveView.kt:196-198 | the default shaper gives 4 dp at the sweep front and at least 4 dp for every non-negative argument |
| WaveConfig.GetInterpolation | soundwavelib/src/main/java/com/soundwave/lib/SoundWaveView.kt:20-26 | f(0) = 0, f(1) = 1, on [0, 1] the value stays in [0, 1.3), and it never exceeds its peak 361/280 |
| WaveState.Code | soundwavelib/src/main/java/com/soundwave/lib/SoundWaveView.kt:29-38 | every state's constant lies in -1..2 |
| WaveState.FromCode | soundwavelib/src/main/java/com/soundwave/lib/SoundWaveView.kt:29-38 | exactly the integers -1..2 are states, and each reads back to its own constant |
| WaveState.CodeRoundTrip | soundwavelib/src/main/java/com/soundwave/lib/SoundWaveView.kt:33-36 | the four constants are distinct and each round-trips |
| WaveState.DefaultSmoother | soundwavelib/src/main/java/com/soundwave/lib/SoundWaveView.kt:199-201 | the default smoothed volume lies between the current and the new volume, and a repeated volume is a fixed point |
| WaveState.OnVolume | soundwavelib/src/main/java/com/soundwave/lib/SoundWaveView.kt:242-253 | an unset (negative) volume adopts the sample verbatim with the state untouched; otherwise the volume becomes smoother(current, sample), and the state becomes Idle iff that is below `minVolume` with idle enabled, Dance iff not |
| WaveState.FeedAll | soundwavelib/src/main/java/com/soundwave/lib/SoundWaveView.kt:242-253 | no samples change nothing; once a volume is recorded, any sample leaves the machine in Idle or Dance and no later sample takes it out |
| WaveState.BootstrapThenRepeat | soundwavelib/src/main/java/com/soundwave/lib/SoundWaveView.kt:242-253 | with the default smoother, one sample only sets the volume; a second, equal sample keeps it and selects Idle or Dance for it |
| WaveState.NegativeSampleKeepsBootstrap | soundwavelib/src/main/java/com/soundwave/lib/SoundWaveView.kt:243-246 | a negative sample while unset leaves the volume unset and the state unchanged |
| WaveState.NegativeSmoothedVolumeRebootstraps | soundwavelib/src/main/java/com/soundwave/lib/SoundWaveView.kt:242-253 | a smoothed volume below 0 makes the next sample be adopted verbatim, keeping the state the smoothing step chose; with idle on and a positive `minVolume` that is Idle, whatever the new volume |
| WaveState.RebootstrapExample | soundwavelib/src/main/java/com/soundwave/lib/SoundWaveView.kt:242-253 | from Dance at 0 with the default smoother and `minVolume` 4, sample -10 gives Idle at -5, and sample 20 then gives Idle at 20 |
| WaveState.SmootherStep | soundwavelib/src/main/java/com/soundwave/lib/SoundWaveView.kt:199-201 | the default smoother moves a volume toward the sample: strictly down from above, and from below at most to one less than the sample |
| WaveState.SteadySampleSettles | soundwavelib/src/main/java/com/soundwave/lib/SoundWaveView.kt:247-252 | after at least one and at least the distance many samples of the same v, the volume is v (from above) or v - 1 (from below), and the state matches it |
| WaveState.QuietSamplesStayIdle | soundwavelib/src/main/java/com/soundwave/lib/SoundWaveView.kt:247-252 | from a volume below `minVolume` with idle enabled, samples no louder than `minVolume` keep the volume below it and the state Idle |
| WaveState.SampleLeavesStop | soundwavelib/src/main/java/com/soundwave/lib/SoundWaveView.kt:247-252 | a sample keeps Stop exactly when no volume has been recorded yet |
| BarAnimation.IdleSweep | soundwavelib/src/main/java/com/soundwave/lib/SoundWaveView.kt:100 | within one idle cycle the sweep position runs from 0 (at the cycle's start, for any duration) up to at most `volumeCount / 2 + volumeIdleCount + 4` |
| BarAnimation.IdleOffset | soundwavelib/src/main/java/com/soundwave/lib/SoundWaveView.kt:101-106 | both branches equal sweep minus abs(index - volumeCount / 2) |
| BarAnimation.IdleHeight | soundwavelib/src/main/java/com/soundwave/lib/SoundWaveView.kt:107-113 | a negative offset, or one past `volumeIdleCount`, draws minH |
| BarAnimation.IdleStep | soundwavelib/src/main/java/com/soundwave/lib/SoundWaveView.kt:93-113 | a `drawIdle` moves only the idle clock, either keeping it or restarting it at `now`, and leaves the sweep at most one cycle old |
| BarAnimation.IdleArg | soundwavelib/src/main/java/com/soundwave/lib/SoundWaveView.kt:107-113 | the shaper argument always lies in [0, volumeIdleCount / 2]; an argument exists iff the offset lies in [0, volumeIdleCount]; negative offsets have none |
| BarAnimation.ClampVolume | soundwavelib/src/main/java/com/soundwave/lib/SoundWaveView.kt:135 | the clamped volume lies in [minVolume, maxVolume], equals an in-range volume, and is `maxVolume` when the bounds cross |
| BarAnimation.RawHeight | soundwavelib/src/main/java/com/soundwave/lib/SoundWaveView.kt:136 | for distinct volume bounds the raw height lies in [minH, maxH]; it is maxH for the loudest clamped volume and minH for the quietest |
| BarAnimation.Portion | soundwavelib/src/main/java/com/soundwave/lib/SoundWaveView.kt:137-141 | an index inside the distribution takes its entry, any other index 1 |
| BarAnimation.DanceTarget | soundwavelib/src/main/java/com/soundwave/lib/SoundWaveView.kt:142 | with multiplier 1 and distinct volume bounds the new target height stays within [minH, maxH]; equal volume bounds give the NaN target 0 |
| BarAnimation.DanceHeight | soundwavelib/src/main/java/com/soundwave/lib/SoundWaveView.kt:144-151 | the dance height lies in [minH, maxH] whatever the interpolator and target; with a non-negative duration it is exactly minH outside the cycle window, and always minH for duration 0 |
| BarAnimation.DanceStep | soundwavelib/src/main/java/com/soundwave/lib/SoundWaveView.kt:128-151 | a `drawDance` leaves the idle clock alone, either keeps the dance timers or starts the cycle at now + delay, and draws within [minH, maxH] |
| BarAnimation.BarStep | soundwavelib/src/main/java/com/soundwave/lib/SoundWaveView.kt:53-76 | a bar's draw moves the dance timers only in Dance, clears the idle clock in every state but Idle, and draws minH in Init and Stop |
| BarAnimation.StepAll | soundwavelib/src/main/java/com/soundwave/lib/SoundWaveView.kt:376-396 | one frame's new timers, one per bar: outside Dance no dance timer moves, outside Idle every idle clock ends cleared |
| BarAnimation.Heights | soundwavelib/src/main/java/com/soundwave/lib/SoundWaveView.kt:376-396 | one frame's heights, one per bar; all minH in Init and Stop |
| BarAnimation.StoppedBarIsFlat | soundwavelib/src/main/java/com/soundwave/lib/SoundWaveView.kt:62-75 | in Init and Stop a bar draws exactly minH and only clears its idle clock |
| BarAnimation.NonIdleDrawClearsIdleClock | soundwavelib/src/main/java/com/soundwave/lib/SoundWaveView.kt:62-64 | any non-Idle draw leaves the idle clock at 0, and changes nothing else unless a dance cycle restarts |
| BarAnimation.IdleRestartsAfterNonIdleDraw | soundwavelib/src/main/java/com/soundwave/lib/SoundWaveView.kt:96-99 | the first Idle draw after a non-Idle draw starts a fresh sweep at `now`, with the sweep front at the middle bar |
| BarAnimation.IdleCycleRule | soundwavelib/src/main/java/com/soundwave/lib/SoundWaveView.kt:96-99 | in Idle the sweep restarts at `now` exactly when more than `idleDuration` has passed; no other timer moves |
| BarAnimation.IdleHeightsMirror | soundwavelib/src/main/java/com/soundwave/lib/SoundWaveView.kt:100-113 | bars at the same distance either side of `volumeCount / 2` with the same idle clock draw the same idle height |
| BarAnimation.IdleWindow | soundwavelib/src/main/java/com/soundwave/lib/SoundWaveView.kt:107-113 | offsets outside [0, volumeIdleCount] draw minH; inside, offsets x and volumeIdleCount - x draw the same |
| BarAnimation.DanceCycleRule | soundwavelib/src/main/java/com/soundwave/lib/SoundWaveView.kt:131-143 | in Dance a cycle restarts exactly when more than `danceDuration` has passed, recording the delay, starting at now + delay with the new target; otherwise target, start and delay stay |
| BarAnimation.DanceStagger | soundwavelib/src/main/java/com/soundwave/lib/SoundWaveView.kt:133-134 | a restarted cycle starts in [now, now + maxDanceDelay), and with a non-negative duration the bar draws minH during a positive delay |
| BarAnimation.DanceHeightBounded | soundwavelib/src/main/java/com/soundwave/lib/SoundWaveView.kt:144-151 | a dancing bar's drawn height stays in [minH, maxH] |
| BarAnimation.LoudDanceReachesMaximum | soundwavelib/src/main/java/com/soundwave/lib/SoundWaveView.kt:131-151 | defaults at density 1, flat distribution, volume 35: the restarted target is 36 and at the end of the cycle the bar draws exactly 36 |
| BarAnimation.QuietTargetUndercutsMinimum | soundwavelib/src/main/java/com/soundwave/lib/SoundWaveView.kt:136-142 | at the defaults at density 1 a quiet volume gives bar 0 a target of 4 px, below the 8 px minimum, because the multiplier scales the minimum too |
| BarAnimation.IdleSweepStartsAtMiddle | soundwavelib/src/main/java/com/soundwave/lib/SoundWaveView.kt:96-113 | at the first instant of a fresh sweep with the default shaper, the middle bar draws dp2px(4) and every other bar minH |
| BarAnimation.IdleHeightCanUndercutMinimum | soundwavelib/src/main/java/com/soundwave/lib/SoundWaveView.kt:107-113 | with the defaults at density 1 the middle bar draws 4 px at a sweep's start while minH is 8 px: idle heights are not clamped |
| BarAnimation.ZeroIdleDurationLightsMiddleOnly | soundwavelib/src/main/java/com/soundwave/lib/SoundWaveView.kt:96-113 | with `idleDuration` 0 every idle draw restarts the sweep at `now`; the middle bar draws the idle height for offset 0 and every other bar minH |
| BarAnimation.SharedIdleClockPreserved | soundwavelib/src/main/java/com/soundwave/lib/SoundWaveView.kt:62-64 | outside Idle a frame leaves every idle clock cleared; in Idle, bars sharing an idle clock keep sharing it when the whole frame read one clock value |
| BarAnimation.IdleClockCanSplit | soundwavelib/src/main/java/com/soundwave/lib/SoundWaveView.kt:95-99 | two bars sharing an idle clock that read the clock at 4500 and 4501 end the frame with different idle clocks |
| BarAnimation.StoppedFrameIsFlat | soundwavelib/src/main/java/com/soundwave/lib/SoundWaveView.kt:72-74 | in Init and Stop every bar of a frame draws minH |
| BarAnimation.IdleFrameIsSymmetric | soundwavelib/src/main/java/com/soundwave/lib/SoundWaveView.kt:101-106 | in Idle with a shared idle clock and one clock value for the whole frame, a frame's heights are symmetric about `volumeCount / 2` |
| BarAnimation.DanceFrameIsBounded | soundwavelib/src/main/java/com/soundwave/lib/SoundWaveView.kt:144-151 | in Dance every bar of a frame draws within [minH, maxH] |
| Layout.Ascending | soundwavelib/src/main/java/com/soundwave/lib/SoundWaveView.kt:385 | `lo until hi` lists lo, lo + 1, ... below hi, empty when lo >= hi |
| Layout.Descending | soundwavelib/src/main/java/com/soundwave/lib/SoundWaveView.kt:393 | `hi downTo lo` lists hi, hi - 1, ... down to lo, empty when lo > hi |
| Layout.DrawOrder | soundwavelib/src/main/java/com/soundwave/lib/SoundWaveView.kt:379-396 | the draw order has one entry per bar, each a valid index |
| Layout.DrawOrderVisitsEachBarOnce | soundwavelib/src/main/java/com/soundwave/lib/SoundWaveView.kt:379-396 | no index repeats, and every bar index appears, at its computed position |
| Layout.WaveAreaWidth | soundwavelib/src/main/java/com/soundwave/lib/SoundWaveView.kt:318-321 | the width is one bar plus one pitch `margin + 2 * halfWidth` per further bar, for every bar count |
| Layout.BarCenter | soundwavelib/src/main/java/com/soundwave/lib/SoundWaveView.kt:376-396 | the middle bar's centre is the canvas centre; with a non-negative pitch, bars right of the middle lie right of it and bars left of it lie left |
| Layout.WaveAreaSpansAllBars | soundwavelib/src/main/java/com/soundwave/lib/SoundWaveView.kt:318-321 | the wave area width equals the distance from the first bar's left edge to the last bar's right edge as `onDraw` places them |
| Layout.Resolve | soundwavelib/src/main/java/com/soundwave/lib/SoundWaveView.kt:328-347 | EXACTLY gives the parent's size; AT_MOST gives the smaller of desired and limit; otherwise the desired size |
| Layout.DesiredWidth | soundwavelib/src/main/java/com/soundwave/lib/SoundWaveView.kt:333-335 | the desired width is the horizontal padding plus the wave area width for `volumeCount` bars |
| SoundWave.VolumeBar.constructor | soundwavelib/src/main/java/com/soundwave/lib/SoundWaveView.kt:46-51 | a new bar has all timers and its height at 0 |
| SoundWave.VolumeBar.Draw | soundwavelib/src/main/java/com/soundwave/lib/SoundWaveView.kt:53-76 | the new timers and the drawn height are exactly the bar step for the state |
| SoundWave.VolumeBar.DrawIdle | soundwavelib/src/main/java/com/soundwave/lib/SoundWaveView.kt:93-113 | the new idle clock and the drawn height are exactly the idle step |
| SoundWave.VolumeBar.DrawDance | soundwavelib/src/main/java/com/soundwave/lib/SoundWaveView.kt:128-151 | the new dance timers and the drawn height are exactly the dance step |
| SoundWave.SoundWaveView.constructor | soundwavelib/src/main/java/com/soundwave/lib/SoundWaveView.kt:189-236 | the given settings, state Init, volume unset, default curves and smoother, idle on, and max(volumeCount, 0) distinct fresh bars with a shared idle clock |
| SoundWave.SoundWaveView.HandleVolume | soundwavelib/src/main/java/com/soundwave/lib/SoundWaveView.kt:242-253 | state and volume move exactly as `OnVolume` says |
| SoundWave.SoundWaveView.SetVolumeChangeSmoother | soundwavelib/src/main/java/com/soundwave/lib/SoundWaveView.kt:268-270 | the smoother is replaced |
| SoundWave.SoundWaveView.SetIdleHeightGetter | soundwavelib/src/main/java/com/soundwave/lib/SoundWaveView.kt:275-277 | the idle height shaper is replaced |
| SoundWave.SoundWaveView.SetDistribution | soundwavelib/src/main/java/com/soundwave/lib/SoundWaveView.kt:282-284 | the distribution is replaced |
| SoundWave.SoundWaveView.SetInterpolator | soundwavelib/src/main/java/com/soundwave/lib/SoundWaveView.kt:289-291 | the interpolator is replaced |
| SoundWave.SoundWaveView.EnableIdle | soundwavelib/src/main/java/com/soundwave/lib/SoundWaveView.kt:296-298 | the idle flag is set as given |
| SoundWave.SoundWaveView.SetConfig | soundwavelib/src/main/java/com/soundwave/lib/SoundWaveView.kt:167-180 | the public settings are replaced; the bar list keeps its length |
| SoundWave.SoundWaveView.StopDance | soundwavelib/src/main/java/com/soundwave/lib/SoundWaveView.kt:303-305 | the state becomes Stop, so `isStop` holds, and the volume is unchanged |
| SoundWave.SoundWaveView.IsStop | soundwavelib/src/main/java/com/soundwave/lib/SoundWaveView.kt:314-316 | holds exactly while the state is Stop |
| SoundWave.SoundWaveView.OnVisibilityChanged | soundwavelib/src/main/java/com/soundwave/lib/SoundWaveView.kt:405-415 | becoming visible sets Init; invisible or gone changes no state; neither touches the volume or any bar |
| SoundWave.SoundWaveView.GetWaveAreaWidth | soundwavelib/src/main/java/com/soundwave/lib/SoundWaveView.kt:318-321 | for a non-empty list, the width is the span from the leftmost bar's left edge to the rightmost bar's right edge |
| SoundWave.SoundWaveView.OnMeasure | soundwavelib/src/main/java/com/soundwave/lib/SoundWaveView.kt:323-367 | EXACTLY gives the spec size; AT_MOST the smaller of desired and spec size; otherwise the desired size. Desired width: padding plus the wave area of `volumeCount` bars, which is `getWaveAreaWidth()` while the list has `volumeCount` bars. Desired height: padding plus maxH |
| SoundWave.SoundWaveView.OnDraw | soundwavelib/src/main/java/com/soundwave/lib/SoundWaveView.kt:369-398 | bars are visited in `DrawOrder`; bar i's timers advance by its own step at its reading `nows[i]`; the k-th height drawn is the step height of the k-th visited bar; idle clocks end cleared outside Idle, and a shared one stays shared in Idle when every bar read the same value |
| SoundWave.SoundWaveView.DrawFrame | soundwavelib/src/main/java/com/soundwave/lib/SoundWaveView.kt:379-396 | the middle bar and both loops together advance every bar by its step and list the heights in draw order |
| SoundWave.SoundWaveView.DrawBar | soundwavelib/src/main/java/com/soundwave/lib/SoundWaveView.kt:379-381 | one bar draws at its own reading and delay and ends with its frame step's timers and height; no other bar changes |
| SoundWave.SoundWaveView.SplicedHeights | soundwavelib/src/main/java/com/soundwave/lib/SoundWaveView.kt:379-396 | the middle height, the right loop's heights and the left loop's heights, in that order, are the frame heights in draw order |
| SoundWave.SoundWaveView.DrawRight | soundwavelib/src/main/java/com/soundwave/lib/SoundWaveView.kt:385-388 | bars right of the middle advance by their steps in ascending order; the others are untouched |
| SoundWave.SoundWaveView.DrawLeft | soundwavelib/src/main/java/com/soundwave/lib/SoundWaveView.kt:393-396 | bars left of the middle advance by their steps in descending order; the others are untouched |
| Waveform.MaxAbs | app/src/main/java/com/taobao/android/soundwave/WaveformView.kt:48-53 | the peak magnitude is at most 32768, at least every sample's magnitude, 0 for no samples, and attained by some sample otherwise |
| Waveform.MaxAbsSnoc | app/src/main/java/com/taobao/android/soundwave/WaveformView.kt:49-53 | one more sample: the peak becomes its magnitude when that is strictly larger, and is kept otherwise |
| Waveform.MaxAbsOfPrefix | app/src/main/java/com/taobao/android/soundwave/WaveformView.kt:48-53 | the accumulator never decreases: a prefix's peak is at most the whole run's |
| Waveform.SamplesPerBar | app/src/main/java/com/taobao/android/soundwave/WaveformView.kt:40 | the bucket size is the largest count of which 50 buckets fit in the buffer |
| Waveform.BucketBounds | app/src/main/java/com/taobao/android/soundwave/WaveformView.kt:44-46 | bucket i ends no later than 50 buckets do, which fits in the buffer |
| Waveform.BucketStart | app/src/main/java/com/taobao/android/soundwave/WaveformView.kt:45 | bucket i starts at `i * samplesPerBar`, and its end stays inside the bucketed prefix and the buffer |
| Waveform.BucketEnd | app/src/main/java/com/taobao/android/soundwave/WaveformView.kt:45-46 | bucket i ends `samplesPerBar` samples after its start |
| Waveform.Bucket | app/src/main/java/com/taobao/android/soundwave/WaveformView.kt:45-49 | a bucket holds `samplesPerBar` consecutive samples from its start |
| Waveform.Peaks | app/src/main/java/com/taobao/android/soundwave/WaveformView.kt:44-53 | the peaks of the first n buckets: n values, the k-th being the peak of bucket k |
| Waveform.Render | app/src/main/java/com/taobao/android/soundwave/WaveformView.kt:33-53 | baseline iff the buffer is empty; nothing iff it holds 1 to 49 samples; otherwise exactly 50 peaks |
| Waveform.SampleInOneBucket | app/src/main/java/com/taobao/android/soundwave/WaveformView.kt:44-46 | every bucketed sample lies in bucket `k / samplesPerBar` and in no other |
| Waveform.BucketPeakBounds | app/src/main/java/com/taobao/android/soundwave/WaveformView.kt:44-53 | a bucket's peak is at most 32768, no sample of the bucket is louder, and a non-empty bucket has one exactly that loud |
| Waveform.PeakIsBucketMaximum | app/src/main/java/com/taobao/android/soundwave/WaveformView.kt:48-53 | each bar's peak is at most 32768, no sample of its bucket is louder, and one is exactly that loud |
| Waveform.TrailingSamplesIgnored | app/src/main/java/com/taobao/android/soundwave/WaveformView.kt:40-46 | the samples past the 50 full buckets never affect the frame |
| Waveform.WaveformView.constructor | app/src/main/java/com/taobao/android/soundwave/WaveformView.kt:18 | a new view holds an empty buffer |
| Waveform.WaveformView.UpdateData | app/src/main/java/com/taobao/android/soundwave/WaveformView.kt:21-24 | the view now draws from the given array itself |
| Waveform.WaveformView.OnDraw | app/src/main/java/com/taobao/android/soundwave/WaveformView.kt:26-53 | the bucket loop produces exactly `Render` of the current buffer |
| Waveform.WaveformView.ScanBucket | app/src/main/java/com/taobao/android/soundwave/WaveformView.kt:45-53 | the inner loop over bucket i yields exactly that bucket's peak |

## Left out

- Canvas work is not modelled: translate, rotate, `drawRoundRect`, `drawRect`, `drawLine`, paints and colours, and each bar's captured `halfWidth`. Only bar centres are modelled (`BarCenter`), for the wave area width.
- The `animationRunnable` self-posting loop and `removeCallbacks` are not modelled. They are UI-thread scheduling. `onDetachedFromWindow` and the `invalidate()` call at the end of `WaveformView.updateData` are left out for the same reason.
- The null-canvas early return in `draw` is not modelled, because the model has no canvas.
- Reading styled attributes from XML is not modelled. Only their fallback values are, as `StyledDefaults`.
- `dp2px` reads the display metrics. The model replaces them with a `density` parameter.
- Float rounding is not modelled: heights, fractions and the interpolator are exact reals. `Float.toInt()` is truncation, with no saturation at the `Int` bounds for finite values. The NaN and infinite quotients of a zero duration or of `minVolume == maxVolume` are modelled by their outcome: `toInt` gives 0 for NaN and the `Int` bounds for infinities, and `in 0f..1f` is false for all three.
- BarAnimation.RawHeight: requires `minVolume != maxVolume`, where the raw height is a number. For equal bounds it is NaN, and `DanceTarget` handles that case without calling it.
- SoundWave.SoundWaveView.SetDistribution: stores a copy of the multipliers as a `seq<real>`. The source keeps the caller's `FloatArray` itself, so a later write to that array reaches the next dance restart (SoundWaveView.kt:138). The model does not capture that aliasing.
- SoundWave.VolumeBar.DrawDance: the delay is a parameter. `random.nextInt` would throw for a non-positive `maxDanceDelay`, and the model requires the delay to be in range only when a cycle restarts.
- Kotlin's 32-bit `Int` and 64-bit `Long` wrap-around is not modelled. Volumes, sizes, times and pixel arithmetic are unbounded integers.
- Waveform.WaveformView.OnDraw: models the peaks only. The float bar geometry (`barWidth`, `barPadding`, `barHeight`, the rectangle corners) is not modelled.
- The app's activities, `WechatBubbleFrameLayout`, both `VoiceBubbleView`s and the build scripts are not part of this model. They hold audio capture, threading, path geometry or plain delegation.
- `setColor` is not modelled. It only changes the paint.
- `smoothVolumeChange` and `getIdleHeight` are single calls of the installed function. They are written in place: the `smoother` field applied in `HandleVolume`, and the `idleHeight` field applied in `IdleHeight`.
