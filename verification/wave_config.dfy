/** The tunable parameters of a SoundWaveView, their default values and the
    default pluggable curves (dance interpolator, idle height shaper). */
module WaveConfig {
  import opened KotlinNumbers

  /** The public `var` properties of the view. Heights, margin and half width
      are in pixels; durations and delays in milliseconds. */
  datatype Config = Config(
    volumeCount: int,
    volumeIdleCount: int,
    maxVolume: int,
    minVolume: int,
    danceDuration: int,
    maxDanceDelay: int,
    idleDuration: int,
    maxIdleHeight: int,
    minVolumeBarHeight: int,
    maxVolumeBarHeight: int,
    volumeBarMargin: int,
    volumeBarHalfWidth: int)

  /** Density-independent pixels to pixels: the dimension scaled by the
      display density, then truncated by `toInt()`. */
  function Dp2Px(dp: real, density: real): (px: int)
    ensures dp * density >= 0.0 ==> 0 <= px && px as real <= dp * density < px as real + 1.0
  {
    Trunc(dp * density)
  }

  lemma Dp2PxMonotone(a: real, b: real, density: real)
    requires 0.0 <= a <= b && density >= 0.0
    ensures 0 <= Dp2Px(a, density) <= Dp2Px(b, density)
  {
    assert a * density <= b * density;
    TruncMonotone(a * density, b * density);
  }

  /** The field initialisers of the view, used when it is built without
      styled attributes. Every default satisfies the configuration invariant
      the engine relies on: a non-empty volume domain, positive durations and
      a positive delay bound, and (on a non-negative density) ordered bar
      heights. */
  function DefaultConfig(density: real): (c: Config)
    ensures 0 <= c.minVolume < c.maxVolume
    ensures c.danceDuration > 0 && c.idleDuration > 0 && c.maxDanceDelay > 0
    ensures c.volumeCount == |DefaultDistribution()|
    ensures density >= 0.0 ==> 0 <= c.minVolumeBarHeight <= c.maxVolumeBarHeight
  {
    assert density >= 0.0 ==> Dp2Px(8.0, density) <= Dp2Px(36.0, density) by {
      if density >= 0.0 { Dp2PxMonotone(8.0, 36.0, density); }
    }
    Config(
      volumeCount := 37,
      volumeIdleCount := 16,
      maxVolume := 35,
      minVolume := 4,
      danceDuration := 250,
      maxDanceDelay := 80,
      idleDuration := 3500,
      maxIdleHeight := Dp2Px(16.0, density),
      minVolumeBarHeight := Dp2Px(8.0, density),
      maxVolumeBarHeight := Dp2Px(36.0, density),
      volumeBarMargin := Dp2Px(3.0, density),
      volumeBarHalfWidth := Dp2Px(1.5, density))
  }

  /** The defaults used when the view is inflated with styled attributes and
      an attribute is absent: identical to the field initialisers except that
      `maxVolume` falls back to 50 instead of 35. */
  function StyledDefaults(density: real): (c: Config)
    ensures c.maxVolume == 50
    ensures c.(maxVolume := 35) == DefaultConfig(density)
    ensures 0 <= c.minVolume < c.maxVolume
  {
    DefaultConfig(density).(maxVolume := 50)
  }

  /** The hand-tuned per-bar height multipliers. */
  function DefaultDistribution(): (d: seq<real>)
    ensures |d| == 37
    ensures forall i :: 0 <= i < |d| ==> 0.6 <= d[i] <= 1.5
  {
    [0.6, 0.6, 0.6, 0.8, 1.0, 1.1, 0.95, 0.9, 0.8,
     0.75, 0.8, 0.9, 0.95, 1.0, 1.1, 1.2, 1.5, 1.4, 1.3,
     1.4, 1.5, 1.2, 1.1, 1.0, 0.95, 0.9, 0.8, 0.75, 0.8,
     0.9, 0.95, 1.1, 1.0, 0.8, 0.6, 0.6, 0.6]
  }

  /** `VolumeDanceInterpolator.getInterpolation`: f(t) = -2.8 t^2 + 3.8 t.
      It starts at 0, ends at 1 and on [0, 1] overshoots above 1 but stays
      below 1.3 (its peak is 361/280 at t = 19/28). */
  function GetInterpolation(t: real): (r: real)
    ensures t == 0.0 ==> r == 0.0
    ensures t == 1.0 ==> r == 1.0
    ensures 0.0 <= t <= 1.0 ==> 0.0 <= r < 1.3
    ensures r <= 361.0 / 280.0
  {
    var d := t - 19.0 / 28.0;
    assert -2.8 * t * t + 3.8 * t == 361.0 / 280.0 - 2.8 * d * d;
    assert d * d >= 0.0;
    assert 0.0 <= t <= 1.0 ==> t * (3.8 - 2.8 * t) >= 0.0 by {
      if 0.0 <= t <= 1.0 { NonNegativeProduct(t, 3.8 - 2.8 * t); }
    }
    -2.8 * t * t + 3.8 * t
  }

  lemma NonNegativeProduct(a: real, b: real)
    requires 0.0 <= a && 0.0 <= b
    ensures 0.0 <= a * b
  {
  }

  /** The default idle height shaper `{ x -> (x + 4).toFloat() }`, in dp:
      4 dp at the sweep front, more for every non-negative argument. */
  function DefaultIdleHeight(x: int): (h: real)
    ensures x == 0 ==> h == 4.0
    ensures x >= 0 ==> h >= 4.0
  {
    (x + 4) as real
  }
}
