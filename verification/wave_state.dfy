/** The discrete animation state shared by all bars, the volume smoother and
    the transition a volume sample causes. */
module WaveState {
  import opened KotlinNumbers

  /** The `@State` annotation's four values. */
  datatype State = Init | Idle | Dance | Stop

  /** The integer constant each state has in the source. */
  function Code(s: State): (c: int)
    ensures -1 <= c <= 2
  {
    match s
    case Init => -1
    case Idle => 0
    case Dance => 1
    case Stop => 2
  }

  /** Reads back a state constant; any other integer is not a state. */
  function FromCode(c: int): (r: Option<State>)
    ensures r.Some? <==> -1 <= c <= 2
    ensures r.Some? ==> Code(r.value) == c
  {
    if c == -1 then Some(Init)
    else if c == 0 then Some(Idle)
    else if c == 1 then Some(Dance)
    else if c == 2 then Some(Stop)
    else None
  }

  /** The four constants are distinct and each reads back as its state. */
  lemma CodeRoundTrip(s: State, t: State)
    ensures FromCode(Code(s)) == Some(s)
    ensures Code(s) == Code(t) ==> s == t
  {
  }

  /** The default `volumeChangeSmoother`: `(currentVolume + newVolume) / 2`
      with Kotlin's truncating division. The result always lies between the
      two volumes, so a repeated volume is a fixed point. */
  function DefaultSmoother(current: int, incoming: int): (r: int)
    ensures current <= incoming ==> current <= r <= incoming
    ensures incoming <= current ==> incoming <= r <= current
    ensures current == incoming ==> r == current
  {
    Half(current + incoming)
  }

  /** The part of the view a volume sample changes: the shared state and the
      smoothed volume, where a negative volume means "no sample yet". */
  datatype Machine = Machine(state: State, currentVolume: int)

  /** A freshly constructed view: state `Init`, volume unset (-1). */
  const Initial := Machine(Init, -1)

  /** `handleVolume`: while the volume is unset, the sample is adopted
      verbatim and the state is left alone; afterwards the sample is smoothed
      into the current volume and the state becomes `Idle` exactly when the
      smoothed volume is below `minVolume` and idle mode is enabled, `Dance`
      otherwise, whatever the previous state was (`Stop` and `Init` included). */
  function OnVolume(m: Machine, v: int, minVolume: int, enableIdle: bool,
                    smoother: (int, int) -> int): (r: Machine)
    ensures m.currentVolume < 0 ==> r == Machine(m.state, v)
    ensures m.currentVolume >= 0 ==> r.currentVolume == smoother(m.currentVolume, v)
    ensures m.currentVolume >= 0 ==> (r.state == Idle <==> r.currentVolume < minVolume && enableIdle)
    ensures m.currentVolume >= 0 ==> (r.state == Dance <==> !(r.currentVolume < minVolume && enableIdle))
  {
    if m.currentVolume < 0 then
      m.(currentVolume := v)
    else
      var smoothed := smoother(m.currentVolume, v);
      Machine(if smoothed < minVolume && enableIdle then Idle else Dance, smoothed)
  }

  /** A run of volume samples, handled in order. Once a volume is recorded,
      any sample leaves the machine in `Idle` or `Dance`, and no later sample
      takes it out of those two. */
  function FeedAll(m: Machine, vs: seq<int>, minVolume: int, enableIdle: bool,
                   smoother: (int, int) -> int): (r: Machine)
    ensures vs == [] ==> r == m
    ensures m.state == Idle || m.state == Dance ==> r.state == Idle || r.state == Dance
    ensures m.currentVolume >= 0 && vs != [] ==> r.state == Idle || r.state == Dance
    decreases |vs|
  {
    if vs == [] then m
    else FeedAll(OnVolume(m, vs[0], minVolume, enableIdle, smoother), vs[1..], minVolume, enableIdle, smoother)
  }

  /** The first sample bootstraps the volume without smoothing and without a
      transition; a second, equal sample is a fixed point of the default
      smoother and triggers the transition for that volume. */
  lemma BootstrapThenRepeat(st: State, v: int, minVolume: int, enableIdle: bool)
    requires v >= 0
    ensures FeedAll(Machine(st, -1), [v], minVolume, enableIdle, DefaultSmoother) == Machine(st, v)
    ensures FeedAll(Machine(st, -1), [v, v], minVolume, enableIdle, DefaultSmoother)
            == Machine(if v < minVolume && enableIdle then Idle else Dance, v)
  {
    var m1 := OnVolume(Machine(st, -1), v, minVolume, enableIdle, DefaultSmoother);
    assert [v, v][1..] == [v];
    assert [v][1..] == [];
    assert FeedAll(m1, [v], minVolume, enableIdle, DefaultSmoother)
        == FeedAll(OnVolume(m1, v, minVolume, enableIdle, DefaultSmoother), [], minVolume, enableIdle, DefaultSmoother);
  }

  /** A negative sample keeps an unset volume unset: the engine stays in
      bootstrap mode and the state does not move. */
  lemma NegativeSampleKeepsBootstrap(m: Machine, v: int, minVolume: int, enableIdle: bool,
                                     smoother: (int, int) -> int)
    requires m.currentVolume < 0 && v < 0
    ensures OnVolume(m, v, minVolume, enableIdle, smoother).currentVolume < 0
    ensures OnVolume(m, v, minVolume, enableIdle, smoother).state == m.state
  {
  }

  /** The default smoother moves a non-negative volume strictly toward the
      sample from above, and from below at most up to one less than the
      sample (the division rounds down). */
  lemma SmootherStep(c: int, v: int)
    requires c >= 0 && v >= 0
    ensures c > v ==> v <= DefaultSmoother(c, v) < c
    ensures c < v ==> c <= DefaultSmoother(c, v) <= v - 1
  {
  }

  /** Repeating one non-negative sample `v` at least `|c - v|` times (and at
      least once) settles the smoothed volume: at `v` when it started at or
      above `v`, at `v - 1` when it started below, because rounding down
      never lets it climb the last step. The state is then the one that
      settled volume selects. */
  lemma {:induction false} SteadySampleSettles(m: Machine, v: int, n: nat, minVolume: int, enableIdle: bool)
    requires m.currentVolume >= 0 && v >= 0
    requires n >= 1 && n >= Abs(m.currentVolume - v)
    ensures var r := FeedAll(m, seq(n, _ => v), minVolume, enableIdle, DefaultSmoother);
            && r.currentVolume == (if m.currentVolume >= v then v else v - 1)
            && (r.state == Idle <==> r.currentVolume < minVolume && enableIdle)
            && (r.state == Idle || r.state == Dance)
    decreases n
  {
    var c := m.currentVolume;
    var m1 := OnVolume(m, v, minVolume, enableIdle, DefaultSmoother);
    var vs := seq(n, _ => v);
    assert vs[0] == v;
    assert vs[1..] == seq(n - 1, _ => v);
    assert FeedAll(m, vs, minVolume, enableIdle, DefaultSmoother)
        == FeedAll(m1, seq(n - 1, _ => v), minVolume, enableIdle, DefaultSmoother);
    SmootherStep(c, v);
    if n == 1 {
      assert FeedAll(m1, seq(0, _ => v), minVolume, enableIdle, DefaultSmoother) == m1;
    } else {
      assert m1.currentVolume >= v <==> c >= v;
      SteadySampleSettles(m1, v, n - 1, minVolume, enableIdle);
    }
  }

  /** Once the volume is quiet (below `minVolume`) with idle mode on, any run
      of samples no louder than `minVolume` itself keeps the view in `Idle`
      after every sample: the average of a value below the threshold and one
      at most equal to it stays below it. In particular a steady sample equal
      to `minVolume` after silence never starts the dance. */
  lemma {:induction false} QuietSamplesStayIdle(m: Machine, vs: seq<int>, minVolume: int)
    requires 0 <= m.currentVolume < minVolume
    requires forall i :: 0 <= i < |vs| ==> 0 <= vs[i] <= minVolume
    ensures var r := FeedAll(m, vs, minVolume, true, DefaultSmoother);
            && 0 <= r.currentVolume < minVolume
            && (vs != [] ==> r.state == Idle)
    decreases |vs|
  {
    if vs != [] {
      var m1 := OnVolume(m, vs[0], minVolume, true, DefaultSmoother);
      assert m1.currentVolume < minVolume;
      assert m1.state == Idle;
      QuietSamplesStayIdle(m1, vs[1..], minVolume);
      if vs[1..] == [] {
        assert FeedAll(m1, vs[1..], minVolume, true, DefaultSmoother) == m1;
      }
    }
  }

  /** A sample after `stopDance` leaves `Stop` as soon as a volume has been
      recorded: the code re-evaluates the transition unconditionally. Only
      during bootstrap does `Stop` survive a sample. */
  lemma SampleLeavesStop(m: Machine, v: int, minVolume: int, enableIdle: bool,
                         smoother: (int, int) -> int)
    requires m.state == Stop
    ensures OnVolume(m, v, minVolume, enableIdle, smoother).state == Stop <==> m.currentVolume < 0
  {
  }

  /** A smoothed volume below 0 sends the view back to bootstrap: the next
      sample is adopted as is, and the state the first sample selected stays,
      whatever the new volume. With the default smoother, a volume of 0 and a
      sample of -10 leave the view in `Idle` at -5 (with idle enabled and a
      positive `minVolume`), and a following sample of 20 keeps it in `Idle`
      at volume 20. */
  lemma {:induction false} NegativeSmoothedVolumeRebootstraps(m: Machine, v: int, w: int, minVolume: int,
                                                              enableIdle: bool, smoother: (int, int) -> int)
    requires m.currentVolume >= 0 && smoother(m.currentVolume, v) < 0
    ensures var m1 := OnVolume(m, v, minVolume, enableIdle, smoother);
            FeedAll(m, [v, w], minVolume, enableIdle, smoother) == Machine(m1.state, w)
    ensures minVolume > 0 && enableIdle ==>
              FeedAll(m, [v, w], minVolume, enableIdle, smoother) == Machine(Idle, w)
  {
    var m1 := OnVolume(m, v, minVolume, enableIdle, smoother);
    assert [v, w][1..] == [w];
    assert [w][1..] == [];
    assert FeedAll(m1, [w], minVolume, enableIdle, smoother)
        == FeedAll(OnVolume(m1, w, minVolume, enableIdle, smoother), [], minVolume, enableIdle, smoother);
  }

  /** The example above: from `Dance` at volume 0, samples -10 and 20 under
      the default smoother with `minVolume` 4 end in `Idle` at volume 20. */
  lemma RebootstrapExample()
    ensures OnVolume(Machine(Dance, 0), -10, 4, true, DefaultSmoother) == Machine(Idle, -5)
    ensures FeedAll(Machine(Dance, 0), [-10, 20], 4, true, DefaultSmoother) == Machine(Idle, 20)
  {
    assert DefaultSmoother(0, -10) == -5;
    NegativeSmoothedVolumeRebootstraps(Machine(Dance, 0), -10, 20, 4, true, DefaultSmoother);
  }
}
