/** Arithmetic shared by the two chart components: the candle record, the
    moving average, the visible index window of a zoomed x axis, the running
    extremes of the visible values and the padded y-axis range. Prices are
    exact reals; floating-point rounding is not modelled. */
module ChartMath {
  import opened Util

  /** One OHLCV point; `date` is the point's timestamp in milliseconds. */
  datatype Candle = Candle(date: int, open: real, high: real, low: real, close: real, volume: real)

  /** The `reduce` that sums the closes of a window. */
  function SumCloses(w: seq<Candle>): real {
    if w == [] then 0.0 else SumCloses(w[..|w| - 1]) + w[|w| - 1].close
  }

  /** `calculateMA(period)`: one entry per candle; null until a full window
      of `period` candles is available, then the mean close of that window.
      The `ma.some(v => v !== null)` test that decides whether the average is
      drawn holds exactly when there are at least `period` candles. */
  method CalculateMA(data: seq<Candle>, period: int) returns (ma: seq<Option<real>>)
    requires period >= 1
    ensures |ma| == |data|
    ensures forall i :: 0 <= i < |data| ==> (ma[i].None? <==> i < period - 1)
    ensures forall i :: period - 1 <= i < |data| ==>
      ma[i] == Some(SumCloses(data[i - period + 1..i + 1]) / period as real)
    ensures (exists i :: 0 <= i < |ma| && ma[i].Some?) <==> |data| >= period
  {
    if |data| == 0 {
      return [];
    }
    ma := [];
    var i := 0;
    while i < |data|
      invariant 0 <= i <= |data| && |ma| == i
      invariant forall k :: 0 <= k < i ==> (ma[k].None? <==> k < period - 1)
      invariant forall k :: period - 1 <= k < i ==>
        ma[k] == Some(SumCloses(data[k - period + 1..k + 1]) / period as real)
    {
      if i < period - 1 {
        ma := ma + [None];
      } else {
        var sum := SumCloses(data[i - period + 1..i + 1]);
        ma := ma + [Some(sum / period as real)];
      }
      i := i + 1;
    }
    if |data| >= period {
      assert ma[|data| - 1].Some?;
    }
  }

  /** The moving-average overlays a chart adds: the 20- and 50-point
      averages, each when its toggle is on and `ma.some(v => v !== null)`
      holds of its series, which is when the data has at least that many
      candles. */
  method ShownAverages(data: seq<Candle>, show20: bool, show50: bool) returns (periods: seq<int>)
    ensures periods == (if show20 && |data| >= 20 then [20] else []) + (if show50 && |data| >= 50 then [50] else [])
  {
    var ma20 := CalculateMA(data, 20);
    var ma50 := CalculateMA(data, 50);
    periods := [];
    if show20 && exists i :: 0 <= i < |ma20| && ma20[i].Some? {
      periods := periods + [20];
    }
    if show50 && exists i :: 0 <= i < |ma50| && ma50[i].Some? {
      periods := periods + [50];
    }
  }

  /** A sum of closes that all lie in [lo, hi] lies in [n * lo, n * hi]. */
  lemma {:induction false} SumClosesBounds(w: seq<Candle>, lo: real, hi: real)
    requires forall k :: 0 <= k < |w| ==> lo <= w[k].close <= hi
    ensures |w| as real * lo <= SumCloses(w) <= |w| as real * hi
  {
    if w != [] {
      SumClosesBounds(w[..|w| - 1], lo, hi);
    }
  }

  /** Each moving-average value lies between the lowest and the highest close
      of its window: it is an average of that window. */
  lemma AverageWithinWindow(data: seq<Candle>, period: int, i: int, lo: real, hi: real)
    requires period >= 1 && period - 1 <= i < |data|
    requires forall k :: i - period + 1 <= k <= i ==> lo <= data[k].close <= hi
    ensures lo <= SumCloses(data[i - period + 1..i + 1]) / period as real <= hi
  {
    var w := data[i - period + 1..i + 1];
    assert forall k :: 0 <= k < |w| ==> w[k] == data[i - period + 1 + k];
    SumClosesBounds(w, lo, hi);
    assert |w| == period;
  }

  /** A closed range of values: y-axis bounds or running extremes. */
  datatype Range = Range(lo: real, hi: real)

  /** One step of `min = Math.min(min, v); max = Math.max(max, v)`, where no
      range yet stands for the starting infinities. */
  function Widen(r: Option<Range>, v: real): Range {
    match r
    case None => Range(v, v)
    case Some(b) => Range(if v < b.lo then v else b.lo, if v > b.hi then v else b.hi)
  }

  /** The extremes the min/max loops compute over `s`; none when `s` is empty
      (the infinities stay and the axis is not touched). */
  function Extremes(s: seq<real>): (r: Option<Range>)
    ensures r.None? <==> s == []
  {
    if s == [] then None else Some(Widen(Extremes(s[..|s| - 1]), s[|s| - 1]))
  }

  /** Positions where the extremes of a non-empty `s` occur. */
  lemma {:induction false} ExtremesWitness(s: seq<real>) returns (iLo: nat, iHi: nat)
    requires s != []
    ensures iLo < |s| && s[iLo] == Extremes(s).value.lo
    ensures iHi < |s| && s[iHi] == Extremes(s).value.hi
  {
    var init := s[..|s| - 1];
    var v := s[|s| - 1];
    if init == [] {
      iLo, iHi := 0, 0;
    } else {
      iLo, iHi := ExtremesWitness(init);
      var r := Extremes(init).value;
      if v < r.lo {
        iLo := |s| - 1;
      }
      if v > r.hi {
        iHi := |s| - 1;
      }
    }
  }

  /** The extremes are the least and the greatest of the values. */
  lemma {:induction false} ExtremesBound(s: seq<real>)
    ensures Extremes(s).Some? ==> Extremes(s).value.lo in s && Extremes(s).value.hi in s
    ensures Extremes(s).Some? ==> forall i :: 0 <= i < |s| ==> Extremes(s).value.lo <= s[i] <= Extremes(s).value.hi
  {
    if s != [] {
      var init := s[..|s| - 1];
      ExtremesBound(init);
      var iLo, iHi := ExtremesWitness(s);
      assert s == init + [s[|s| - 1]];
    }
  }

  /** The extremes bound the value at one position. */
  lemma ExtremesBoundAt(s: seq<real>, j: int)
    requires 0 <= j < |s|
    ensures Extremes(s).Some? && Extremes(s).value.lo <= s[j] <= Extremes(s).value.hi
  {
    ExtremesBound(s);
  }

  /** Extending the scanned values by one is one `Widen` step. */
  lemma ExtremesAppend(s: seq<real>, v: real)
    ensures Extremes(s + [v]) == Some(Widen(Extremes(s), v))
  {
    assert (s + [v])[..|s|] == s;
  }

  /** The x scale of a chart: its bounds, absent when not finite. */
  datatype XScale = XScale(min: Option<real>, max: Option<real>)

  /** The inclusive index window `[first, last]` scanned after zoom or pan. */
  datatype Window = Window(first: int, last: int)

  function Ceil(x: real): int {
    -((-x).Floor)
  }

  /** Index `i` of a series of `count` points is on screen. */
  predicate OnScreen(scale: XScale, count: int, i: int) {
    0 <= i < count
    && (scale.min.None? || scale.min.value <= i as real)
    && (scale.max.None? || i as real <= scale.max.value)
  }

  /** `minIndex`/`maxIndex`: floor of the scale minimum clamped at 0, ceiling
      of the scale maximum clamped at the last index; 0 and the last index
      when a bound is not finite. The window covers every on-screen index and
      at most one partly visible index beyond each finite bound. */
  function VisibleWindow(scale: XScale, count: int): (w: Window)
    ensures w.first >= 0 && w.last <= count - 1
    ensures scale.min.None? ==> w.first == 0
    ensures scale.max.None? ==> w.last == count - 1
    ensures forall i :: OnScreen(scale, count, i) ==> w.first <= i <= w.last
    ensures scale.min.Some? && w.first > 0 ==> w.first as real <= scale.min.value < w.first as real + 1.0
    ensures scale.max.Some? && w.last < count - 1 ==> w.last as real - 1.0 < scale.max.value <= w.last as real
  {
    var first := if scale.min.Some? then (if scale.min.value.Floor > 0 then scale.min.value.Floor else 0) else 0;
    var last := if scale.max.Some? then (if count - 1 < Ceil(scale.max.value) then count - 1 else Ceil(scale.max.value))
                else count - 1;
    Window(first, last)
  }

  /** `(max - min) * 0.05 || 1`: five percent of the spread, or 1 when the
      spread is zero (a falsy product). */
  function Padding(r: Range): real {
    if (r.hi - r.lo) * 0.05 == 0.0 then 1.0 else (r.hi - r.lo) * 0.05
  }

  /** The y-axis bounds set from the extremes: the extremes widened by the
      padding on both sides. The data range sits strictly inside them, and
      the axis spans 110% of a non-zero spread, or 2 around a flat series. */
  function PaddedAxis(r: Range): (a: Range)
    ensures r.lo <= r.hi ==> a.lo < r.lo && r.hi < a.hi
    ensures r.lo < r.hi ==> a.hi - a.lo == (r.hi - r.lo) * 1.1
    ensures r.lo == r.hi ==> a == Range(r.lo - 1.0, r.hi + 1.0)
  {
    Range(r.lo - Padding(r), r.hi + Padding(r))
  }

  /** `chart.options.scales.y`: the bounds the y axis is drawn with, absent
      while the chart library chooses them itself. */
  class YAxisOptions {
    var min: Option<real>
    var max: Option<real>

    constructor (min: Option<real>, max: Option<real>)
      ensures this.min == min && this.max == max
    {
      this.min := min;
      this.max := max;
    }
  }
}
