/** Layout arithmetic of the view: the order in which `onDraw` visits the
    bars, where each bar's centre lands after the canvas moves, the width of
    the bar area and the size `onMeasure` asks for. */
module Layout {
  import opened KotlinNumbers

  /** Kotlin `lo until hi`. */
  function Ascending(lo: int, hi: int): (r: seq<int>)
    ensures |r| == if lo < hi then hi - lo else 0
    ensures forall k :: 0 <= k < |r| ==> r[k] == lo + k
  {
    if lo < hi then seq(hi - lo, k => lo + k) else []
  }

  /** Kotlin `hi downTo lo`. */
  function Descending(hi: int, lo: int): (r: seq<int>)
    ensures |r| == if lo <= hi then hi - lo + 1 else 0
    ensures forall k :: 0 <= k < |r| ==> r[k] == hi - k
  {
    if lo <= hi then seq(hi - lo + 1, k => hi - k) else []
  }

  /** The middle bar `onDraw` draws first. */
  function DrawMid(n: nat): int {
    (n - 1) / 2
  }

  /** The order in which `onDraw` visits `n` bars: the middle bar
      `(n - 1) / 2` first, then the bars to its right left to right, then the
      bars to its left right to left. No bars are drawn when there are none. */
  function DrawOrder(n: nat): (r: seq<int>)
    ensures |r| == n
    ensures forall k :: 0 <= k < n ==> 0 <= r[k] < n
  {
    if n == 0 then []
    else [DrawMid(n)] + Ascending(DrawMid(n) + 1, n) + Descending(DrawMid(n) - 1, 0)
  }

  /** Where bar `i` appears in the draw order. */
  function DrawPosition(n: nat, i: int): nat
    requires 0 <= i < n
  {
    var mid := DrawMid(n);
    if i == mid then 0
    else if i > mid then i - mid
    else n - mid + (mid - 1 - i)
  }

  /** `onDraw` visits every bar exactly once: the order has no repetition,
      and each index sits at its `DrawPosition`. */
  lemma DrawOrderVisitsEachBarOnce(n: nat)
    ensures forall j, k :: 0 <= j < k < n ==> DrawOrder(n)[j] != DrawOrder(n)[k]
    ensures forall i :: 0 <= i < n ==> DrawPosition(n, i) < n && DrawOrder(n)[DrawPosition(n, i)] == i
  {
    if n > 0 {
      var mid := DrawMid(n);
      var r := DrawOrder(n);
      var up := Ascending(mid + 1, n);
      assert forall k :: 0 <= k < n ==>
        r[k] == (if k == 0 then mid else if k <= |up| then mid + k else mid - 1 - (k - 1 - |up|));
    }
  }

  /** The total width of `size` bars of width `2 * halfWidth` with a margin
      between neighbours (`getWaveAreaWidth`): for at least one bar, the
      first bar's width plus one bar pitch `margin + 2 * halfWidth` for each
      further bar. */
  function WaveAreaWidth(size: int, halfWidth: int, margin: int): (w: int)
    ensures w == 2 * halfWidth + (size - 1) * (margin + 2 * halfWidth)
  {
    size * 2 * halfWidth + (size - 1) * margin
  }

  /** The horizontal centre of bar `i` relative to the canvas centre. The
      middle bar is drawn in place; each bar to the right is drawn after one
      more translation by `margin + 2 * halfWidth`; the left bars are drawn
      the same way after a half-turn rotation, so they move the other way. */
  function BarCenter(i: int, mid: int, halfWidth: int, margin: int): (c: int)
    ensures i == mid ==> c == 0
    ensures margin + 2 * halfWidth >= 0 && i >= mid ==> c >= 0
    ensures margin + 2 * halfWidth >= 0 && i <= mid ==> c <= 0
  {
    (i - mid) * (margin + 2 * halfWidth)
  }

  /** The wave area width is exactly the distance from the left edge of the
      first bar to the right edge of the last bar as `onDraw` places them,
      wherever the middle bar is. */
  lemma WaveAreaSpansAllBars(n: int, mid: int, halfWidth: int, margin: int)
    requires n >= 1
    ensures (BarCenter(n - 1, mid, halfWidth, margin) + halfWidth) - (BarCenter(0, mid, halfWidth, margin) - halfWidth)
            == WaveAreaWidth(n, halfWidth, margin)
  {
    var step := margin + 2 * halfWidth;
    calc {
      (BarCenter(n - 1, mid, halfWidth, margin) + halfWidth) - (BarCenter(0, mid, halfWidth, margin) - halfWidth);
      (n - 1 - mid) * step - (0 - mid) * step + 2 * halfWidth;
      { assert (n - 1 - mid) * step - (0 - mid) * step == (n - 1) * step; }
      (n - 1) * step + 2 * halfWidth;
      (n - 1) * margin + (n - 1) * 2 * halfWidth + 2 * halfWidth;
      WaveAreaWidth(n, halfWidth, margin);
    }
  }

  /** `View.MeasureSpec` modes. */
  datatype MeasureMode = Exactly | AtMost | Unspecified

  /** One dimension of `onMeasure`: the parent's size when it dictates one,
      the desired size capped by the parent's limit, or the desired size. */
  function Resolve(mode: MeasureMode, specSize: int, desired: int): (r: int)
    ensures mode == Exactly ==> r == specSize
    ensures mode == AtMost ==> r <= specSize && r <= desired && (r == specSize || r == desired)
    ensures mode == Unspecified ==> r == desired
  {
    match mode
    case Exactly => specSize
    case AtMost => if desired < specSize then desired else specSize
    case Unspecified => desired
  }

  /** The width the view wants: its horizontal padding plus `volumeCount`
      bars and the margins between them. */
  function DesiredWidth(volumeCount: int, halfWidth: int, margin: int, paddingStart: int, paddingEnd: int): (w: int)
    ensures w == paddingStart + paddingEnd + WaveAreaWidth(volumeCount, halfWidth, margin)
  {
    paddingStart + paddingEnd + volumeCount * halfWidth * 2 + margin * (volumeCount - 1)
  }
}
