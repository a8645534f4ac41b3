/** The demo app's `WaveformView`: it keeps the last PCM buffer handed to it
    and, on every draw, splits the buffer into 50 equal buckets and draws one
    bar per bucket whose height follows the bucket's peak amplitude. Only the
    buffer handling and the peaks are modelled; the bar rectangles are not. */
module Waveform {
  import opened KotlinNumbers

  /** A 16-bit PCM sample (Kotlin `Short`). */
  type Short = x: int | -32768 <= x <= 32767

  /** `numBars`: the number of buckets, and of bars drawn. */
  const NumBars := 50

  /** What one `onDraw` produces: a flat centre line for an empty buffer,
      nothing for a buffer too short to fill one sample per bucket, otherwise
      one peak amplitude per bar, left to right. */
  datatype WaveFrame = Baseline | Blank | Bars(peaks: seq<nat>)

  /** The largest `abs(sample.toInt())` of a run of samples, 0 for none:
      the value the `maxAmplitude` accumulator reaches, scanning left to right
      from 0 and keeping any strictly larger magnitude. */
  function MaxAbs(s: seq<Short>): (r: nat)
    ensures r <= 32768
    ensures forall k :: 0 <= k < |s| ==> Abs(s[k]) <= r
    ensures s == [] ==> r == 0
    ensures s != [] ==> exists k :: 0 <= k < |s| && r == Abs(s[k])
  {
    if s == [] then 0
    else
      var m := MaxAbs(s[..|s| - 1]);
      var last := Abs(s[|s| - 1]);
      if last > m then last else m
  }

  /** The accumulator never decreases: the peak of a prefix is at most the
      peak of the whole run. */
  lemma MaxAbsOfPrefix(s: seq<Short>, k: nat)
    requires k <= |s|
    ensures MaxAbs(s[..k]) <= MaxAbs(s)
  {
    if k > 0 {
      var j :| 0 <= j < k && MaxAbs(s[..k]) == Abs(s[..k][j]);
      assert s[..k][j] == s[j];
    }
  }

  /** One more sample: the accumulator takes its magnitude when it is
      strictly larger, and otherwise keeps its value. */
  lemma MaxAbsSnoc(s: seq<Short>, x: Short)
    ensures MaxAbs(s + [x]) == if Abs(x) > MaxAbs(s) then Abs(x) else MaxAbs(s)
  {
    assert (s + [x])[..|s|] == s;
  }

  /** `samplesPerBar`: the bucket size, with integer division: the largest
      count of which `NumBars` buckets still fit in the buffer. */
  function SamplesPerBar(size: nat): (spb: nat)
    ensures NumBars * spb <= size < NumBars * (spb + 1)
  {
    size / NumBars
  }

  /** Bucket `i` spans `[i * samplesPerBar, (i + 1) * samplesPerBar)`, which
      lies inside the first `NumBars * samplesPerBar` samples and hence inside
      the buffer. */
  lemma BucketBounds(size: nat, i: nat)
    requires i < NumBars
    ensures 0 <= i * SamplesPerBar(size) <= (i + 1) * SamplesPerBar(size)
    ensures (i + 1) * SamplesPerBar(size) <= NumBars * SamplesPerBar(size) <= size
  {
    var spb := SamplesPerBar(size);
    MulMonotone(0, i, spb);
    MulMonotone(i, i + 1, spb);
    MulMonotone(i + 1, NumBars, spb);
    assert size == NumBars * spb + size % NumBars;
  }

  /** Where bucket `i` starts: `i * samplesPerBar`. The bucket ends inside
      the bucketed prefix, and hence inside the buffer. */
  function BucketStart(size: nat, i: nat): (st: nat)
    requires i < NumBars
    ensures st == i * SamplesPerBar(size)
    ensures st + SamplesPerBar(size) <= NumBars * SamplesPerBar(size) <= size
  {
    BucketBounds(size, i);
    i * SamplesPerBar(size)
  }

  /** Bucket `i` ends where bucket `i + 1` starts, `samplesPerBar` samples
      after its own start. */
  lemma BucketEnd(size: nat, i: nat)
    requires i < NumBars
    ensures (i + 1) * SamplesPerBar(size) == BucketStart(size, i) + SamplesPerBar(size)
  {
    assert (i + 1) * SamplesPerBar(size) == i * SamplesPerBar(size) + SamplesPerBar(size);
  }

  /** The samples of bucket `i`. */
  function Bucket(data: seq<Short>, i: nat): (b: seq<Short>)
    requires i < NumBars
    ensures |b| == SamplesPerBar(|data|)
    ensures forall k :: 0 <= k < |b| ==> b[k] == data[BucketStart(|data|, i) + k]
  {
    var st := BucketStart(|data|, i);
    data[st..st + SamplesPerBar(|data|)]
  }

  /** The peaks of the first `n` buckets, left to right. */
  function Peaks(data: seq<Short>, n: nat): (r: seq<nat>)
    requires n <= NumBars
    ensures |r| == n
    ensures forall k :: 0 <= k < n ==> r[k] == MaxAbs(Bucket(data, k))
  {
    if n == 0 then [] else Peaks(data, n - 1) + [MaxAbs(Bucket(data, n - 1))]
  }

  /** `onDraw`, peaks only. An empty buffer draws the baseline; fewer than
      `NumBars` samples draw nothing; otherwise there is one peak per bar. */
  function Render(data: seq<Short>): (f: WaveFrame)
    ensures f.Baseline? <==> data == []
    ensures f.Blank? <==> 0 < |data| < NumBars
    ensures f.Bars? <==> |data| >= NumBars
    ensures f.Bars? ==> |f.peaks| == NumBars
  {
    if data == [] then Baseline
    else if SamplesPerBar(|data|) == 0 then Blank
    else Bars(Peaks(data, NumBars))
  }

  lemma MulMonotone(a: int, b: int, c: nat)
    requires a <= b
    ensures a * c <= b * c
  {
    assert b * c - a * c == (b - a) * c;
  }

  lemma MulCancel(a: int, b: int, c: nat)
    requires a * c < b * c
    ensures a < b
  {
    if b <= a {
      MulMonotone(b, a, c);
    }
  }

  /** Every sample of the first `NumBars * samplesPerBar` belongs to exactly
      one bucket, the one at `k / samplesPerBar`: the buckets are disjoint
      and cover that prefix. */
  lemma {:induction false} SampleInOneBucket(size: nat, k: nat)
    requires SamplesPerBar(size) > 0 && k < NumBars * SamplesPerBar(size)
    ensures var q := k / SamplesPerBar(size);
            && q < NumBars
            && BucketStart(size, q) <= k < BucketStart(size, q) + SamplesPerBar(size)
    ensures forall i :: 0 <= i < NumBars && BucketStart(size, i) <= k < BucketStart(size, i) + SamplesPerBar(size) ==>
              i == k / SamplesPerBar(size)
  {
    var spb := SamplesPerBar(size);
    var q := k / spb;
    assert k == q * spb + k % spb;
    assert (q + 1) * spb == q * spb + spb;
    MulCancel(q, NumBars, spb);
    forall i | 0 <= i < NumBars && BucketStart(size, i) <= k < BucketStart(size, i) + spb
      ensures i == q
    {
      assert (i + 1) * spb == i * spb + spb;
      MulCancel(i, q + 1, spb);
      MulCancel(q, i + 1, spb);
    }
  }

  /** The peak of bucket `i` is at most 32768, no sample of the bucket is
      louder, and one of them is exactly that loud. */
  lemma {:induction false} BucketPeakBounds(data: seq<Short>, i: nat)
    requires i < NumBars
    ensures var st := BucketStart(|data|, i);
            var p := MaxAbs(Bucket(data, i));
            && p <= 32768
            && (forall j :: st <= j < st + SamplesPerBar(|data|) ==> Abs(data[j]) <= p)
            && (SamplesPerBar(|data|) > 0 ==> exists j :: st <= j < st + SamplesPerBar(|data|) && p == Abs(data[j]))
  {
    var st := BucketStart(|data|, i);
    var b := Bucket(data, i);
    forall j | st <= j < st + |b|
      ensures Abs(data[j]) <= MaxAbs(b)
    {
      assert b[j - st] == data[j];
    }
    if |b| > 0 {
      var k :| 0 <= k < |b| && MaxAbs(b) == Abs(b[k]);
      assert data[st + k] == b[k];
    }
  }

  /** Each bar is the peak magnitude of its bucket: no sample of the bucket
      is louder, one of them is exactly that loud, and it fits in
      `[0, 32768]`. */
  lemma {:induction false} PeakIsBucketMaximum(data: seq<Short>, i: nat)
    requires |data| >= NumBars && i < NumBars
    ensures var st := BucketStart(|data|, i);
            var p := Render(data).peaks[i];
            && p <= 32768
            && (forall j :: st <= j < st + SamplesPerBar(|data|) ==> Abs(data[j]) <= p)
            && (exists j :: st <= j < st + SamplesPerBar(|data|) && p == Abs(data[j]))
  {
    BucketPeakBounds(data, i);
    assert Render(data).peaks[i] == MaxAbs(Bucket(data, i));
  }

  /** The trailing `size - NumBars * samplesPerBar` samples never reach a
      bar: two buffers of one size that agree on the bucketed prefix draw the
      same frame. */
  lemma {:induction false} TrailingSamplesIgnored(a: seq<Short>, b: seq<Short>)
    requires |a| == |b|
    requires a[..NumBars * SamplesPerBar(|a|)] == b[..NumBars * SamplesPerBar(|b|)]
    ensures Render(a) == Render(b)
  {
    if |a| >= NumBars {
      var spb := SamplesPerBar(|a|);
      forall i | 0 <= i < NumBars
        ensures Bucket(a, i) == Bucket(b, i)
      {
        BucketBounds(|a|, i);
        forall k | 0 <= k < spb
          ensures Bucket(a, i)[k] == Bucket(b, i)[k]
        {
          assert a[i * spb + k] == a[..NumBars * spb][i * spb + k];
          assert b[i * spb + k] == b[..NumBars * spb][i * spb + k];
        }
      }
      assert Render(a).peaks == Render(b).peaks;
    }
  }

  /** The view. `audioData` is the buffer last handed to `updateData` (the
      caller's array itself, not a copy). */
  class WaveformView {
    var audioData: array<Short>

    /** A new view holds an empty buffer. */
    constructor ()
      ensures audioData.Length == 0
    {
      audioData := new Short[0];
    }

    /** `updateData`: the view now draws from `data`. */
    method UpdateData(data: array<Short>)
      modifies this
      ensures audioData == data
    {
      audioData := data;
    }

    /** `onDraw`, peaks only: the loop over the buckets. */
    method OnDraw() returns (f: WaveFrame)
      ensures f == Render(audioData[..])
    {
      if audioData.Length == 0 {
        return Baseline;
      }
      var samplesPerBar := audioData.Length / NumBars;
      if samplesPerBar == 0 {
        return Blank;
      }
      var peaks: seq<nat> := [];
      for i := 0 to NumBars
        invariant peaks == Peaks(audioData[..], i)
      {
        var maxAmplitude := ScanBucket(i, samplesPerBar);
        peaks := peaks + [maxAmplitude];
      }
      f := Bars(peaks);
    }

    /** One iteration of the bucket loop: the bucket's bounds, then the inner
        loop scanning them from an accumulator of 0 and keeping any strictly
        larger magnitude. */
    method ScanBucket(i: int, samplesPerBar: int) returns (maxAmplitude: nat)
      requires 0 <= i < NumBars && samplesPerBar == audioData.Length / NumBars
      ensures maxAmplitude == MaxAbs(Bucket(audioData[..], i))
    {
      var startSample := i * samplesPerBar;
      var endSample := (i + 1) * samplesPerBar;
      BucketEnd(audioData.Length, i);
      maxAmplitude := 0;
      for j := startSample to endSample
        invariant maxAmplitude == MaxAbs(audioData[startSample..j])
      {
        assert audioData[startSample..j + 1] == audioData[startSample..j] + [audioData[j]];
        MaxAbsSnoc(audioData[startSample..j], audioData[j]);
        if Abs(audioData[j]) > maxAmplitude {
          maxAmplitude := Abs(audioData[j]);
        }
      }
      assert audioData[startSample..endSample] == Bucket(audioData[..], i);
    }
  }
}
