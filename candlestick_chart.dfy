/** The candlestick chart: candle colouring, the view chosen for the data
    and mode, the geometry of the drawn candles and the y-axis fit over the
    visible candles. */
module CandlestickChart {
  import opened Util
  import opened ChartMath

  /** `Array.isArray(data) ? data : []`: a prop that is not an array
      (`None`) is treated as no data. */
  function SafeData(data: Option<seq<Candle>>): (s: seq<Candle>)
    ensures data.None? ==> s == []
    ensures data.Some? ==> s == data.value
  {
    if data.Some? then data.value else []
  }

  /** A candle as drawn, with its colour decided by `isBullish`. */
  datatype CandleView = CandleView(open: real, high: real, low: real, close: real, volume: real, isBullish: bool)

  function CandleData(data: seq<Candle>): (r: seq<CandleView>)
    ensures |r| == |data|
    ensures forall i :: 0 <= i < |data| ==>
      && r[i].open == data[i].open && r[i].high == data[i].high
      && r[i].low == data[i].low && r[i].close == data[i].close
      && r[i].volume == data[i].volume
      && (r[i].isBullish <==> data[i].open <= data[i].close)
  {
    seq(|data|, i requires 0 <= i < |data| =>
      CandleView(data[i].open, data[i].high, data[i].low, data[i].close, data[i].volume,
                 data[i].close >= data[i].open))
  }

  /** A candle closing at its opening price counts as bullish. */
  lemma FlatCandleIsBullish(data: seq<Candle>, i: int)
    requires 0 <= i < |data| && data[i].close == data[i].open
    ensures CandleData(data)[i].isBullish
  {
  }

  /** What the component renders. */
  datatype ChartView = NoData | VolumeBars | CloseLine | Candlesticks

  /** Empty (or non-array) data shows the "No data available" message
      before any mode is looked at; otherwise `chartMode` picks the view,
      candlesticks being the fallback for any other mode. */
  function ViewFor(data: Option<seq<Candle>>, mode: string): (v: ChartView)
    ensures v == NoData <==> SafeData(data) == []
    ensures SafeData(data) != [] ==>
      (v == VolumeBars <==> mode == "volume") && (v == CloseLine <==> mode == "line")
  {
    if SafeData(data) == [] then NoData
    else if mode == "volume" then VolumeBars
    else if mode == "line" then CloseLine
    else Candlesticks
  }

  /** `Math.max(1, maxIndex - minIndex + 1)`. */
  function VisibleCount(w: Window): (n: int)
    ensures n >= 1
    ensures w.first <= w.last ==> n == w.last - w.first + 1
    ensures w.first > w.last ==> n == 1
  {
    if w.last - w.first + 1 > 1 then w.last - w.first + 1 else 1
  }

  /** `Math.max(4, (width / visibleCount) * 0.6)`: 60% of the slot each
      visible candle gets, never narrower than 4 pixels. */
  function CandleWidth(width: real, w: Window): (cw: real)
    ensures cw >= 4.0
    ensures cw >= width / VisibleCount(w) as real * 0.6
    ensures cw == 4.0 || cw == width / VisibleCount(w) as real * 0.6
  {
    var slot := width / VisibleCount(w) as real * 0.6;
    if slot > 4.0 then slot else 4.0
  }

  /** The lows of candles `first .. end - 1`, in index order. */
  function VisibleLows(candles: seq<CandleView>, first: int, end: int): seq<real>
    requires 0 <= first && end <= |candles|
    decreases end - first
  {
    if end <= first then [] else VisibleLows(candles, first, end - 1) + [candles[end - 1].low]
  }

  /** The highs of candles `first .. end - 1`, in index order. */
  function VisibleHighs(candles: seq<CandleView>, first: int, end: int): seq<real>
    requires 0 <= first && end <= |candles|
    decreases end - first
  {
    if end <= first then [] else VisibleHighs(candles, first, end - 1) + [candles[end - 1].high]
  }

  lemma {:induction false} VisibleLowsHighsIndex(candles: seq<CandleView>, first: int, end: int)
    requires 0 <= first && end <= |candles|
    decreases end - first
    ensures |VisibleLows(candles, first, end)| == |VisibleHighs(candles, first, end)| == if first <= end then end - first else 0
    ensures forall k :: 0 <= k < |VisibleLows(candles, first, end)| ==>
      VisibleLows(candles, first, end)[k] == candles[first + k].low && VisibleHighs(candles, first, end)[k] == candles[first + k].high
  {
    if end > first {
      VisibleLowsHighsIndex(candles, first, end - 1);
    }
  }

  /** The lowest low and highest high over the visible candles, as the
      min/max loop finds them; none when the window is empty. */
  ghost function CandleSpan(candles: seq<CandleView>, w: Window): Option<Range>
    requires 0 <= w.first && w.last < |candles|
  {
    if w.first > w.last then None
    else
      var lows := Extremes(VisibleLows(candles, w.first, w.last + 1));
      var highs := Extremes(VisibleHighs(candles, w.first, w.last + 1));
      if lows.Some? && highs.Some? then Some(Range(lows.value.lo, highs.value.hi)) else None
  }

  /** The fit finds nothing exactly when the window is empty. */
  lemma CandleSpanEmpty(candles: seq<CandleView>, w: Window)
    requires 0 <= w.first && w.last < |candles|
    ensures CandleSpan(candles, w).None? <==> w.first > w.last
  {
    VisibleLowsHighsIndex(candles, w.first, w.last + 1);
  }

  /** The lower bound the fit finds is a visible candle's low. */
  lemma CandleSpanLowAttained(candles: seq<CandleView>, w: Window)
    requires 0 <= w.first && w.last < |candles|
    ensures CandleSpan(candles, w).Some? ==>
      exists i :: w.first <= i <= w.last && candles[i].low == CandleSpan(candles, w).value.lo
  {
    if w.first <= w.last {
      var lows := VisibleLows(candles, w.first, w.last + 1);
      VisibleLowsHighsIndex(candles, w.first, w.last + 1);
      var j, _ := ExtremesWitness(lows);
      var lo := Extremes(lows).value.lo;
      var i := w.first + j;
      assert w.first <= i <= w.last && candles[i].low == lo;
    }
  }

  /** The upper bound the fit finds is a visible candle's high. */
  lemma CandleSpanHighAttained(candles: seq<CandleView>, w: Window)
    requires 0 <= w.first && w.last < |candles|
    ensures CandleSpan(candles, w).Some? ==>
      exists i :: w.first <= i <= w.last && candles[i].high == CandleSpan(candles, w).value.hi
  {
    if w.first <= w.last {
      var highs := VisibleHighs(candles, w.first, w.last + 1);
      VisibleLowsHighsIndex(candles, w.first, w.last + 1);
      var _, j := ExtremesWitness(highs);
      var hi := Extremes(highs).value.hi;
      var i := w.first + j;
      assert w.first <= i <= w.last && candles[i].high == hi;
    }
  }

  /** ... and they bound every visible low and high. */
  lemma CandleSpanBounds(candles: seq<CandleView>, w: Window)
    requires 0 <= w.first && w.last < |candles|
    ensures CandleSpan(candles, w).Some? ==>
      forall i :: w.first <= i <= w.last ==>
        CandleSpan(candles, w).value.lo <= candles[i].low && candles[i].high <= CandleSpan(candles, w).value.hi
  {
    if w.first <= w.last {
      var lows := VisibleLows(candles, w.first, w.last + 1);
      var highs := VisibleHighs(candles, w.first, w.last + 1);
      VisibleLowsHighsIndex(candles, w.first, w.last + 1);
      var lo, hi := Extremes(lows).value.lo, Extremes(highs).value.hi;
      assert CandleSpan(candles, w) == Some(Range(lo, hi));
      forall i | w.first <= i <= w.last
        ensures lo <= candles[i].low && candles[i].high <= hi
      {
        ExtremesBoundAt(lows, i - w.first);
        ExtremesBoundAt(highs, i - w.first);
      }
    }
  }

  /** One step of the min/max loop widens both running extremes by the
      next candle. */
  lemma CandleStep(candles: seq<CandleView>, first: int, i: int)
    requires 0 <= first <= i < |candles|
    ensures Extremes(VisibleLows(candles, first, i + 1)) == Some(Widen(Extremes(VisibleLows(candles, first, i)), candles[i].low))
    ensures Extremes(VisibleHighs(candles, first, i + 1)) == Some(Widen(Extremes(VisibleHighs(candles, first, i)), candles[i].high))
  {
    ExtremesAppend(VisibleLows(candles, first, i), candles[i].low);
    ExtremesAppend(VisibleHighs(candles, first, i), candles[i].high);
  }

  /** The min/max loop of `updateCandlestickYAxis` over a clamped window. */
  method CandleRange(candles: seq<CandleView>, w: Window) returns (r: Option<Range>)
    requires 0 <= w.first && w.last < |candles|
    ensures r == CandleSpan(candles, w)
  {
    r := None;
    if w.first <= w.last {
      var lows: Option<Range> := None;
      var highs: Option<Range> := None;
      var i := w.first;
      while i <= w.last
        invariant w.first <= i <= w.last + 1
        invariant lows == Extremes(VisibleLows(candles, w.first, i))
        invariant highs == Extremes(VisibleHighs(candles, w.first, i))
      {
        CandleStep(candles, w.first, i);
        lows := Some(Widen(lows, candles[i].low));
        highs := Some(Widen(highs, candles[i].high));
        i := i + 1;
      }
      r := Some(Range(lows.value.lo, highs.value.hi));
    }
  }

  /** `updateCandlestickYAxis`: without both scales or without candles
      nothing happens; otherwise the y bounds become the visible span padded
      by 5% of its height (1 when flat). */
  method UpdateCandlestickYAxis(axis: YAxisOptions, xScale: Option<XScale>, hasYScale: bool,
                                candles: seq<CandleView>)
    modifies axis
    ensures xScale.None? || !hasYScale || candles == [] ==>
      axis.min == old(axis.min) && axis.max == old(axis.max)
    ensures xScale.Some? && hasYScale && candles != [] ==>
      var span := CandleSpan(candles, VisibleWindow(xScale.value, |candles|));
      && (span.None? ==> axis.min == old(axis.min) && axis.max == old(axis.max))
      && (span.Some? ==> axis.min == Some(PaddedAxis(span.value).lo) && axis.max == Some(PaddedAxis(span.value).hi))
  {
    if xScale.None? || !hasYScale || candles == [] {
      return;
    }
    var w := VisibleWindow(xScale.value, |candles|);
    var span := CandleRange(candles, w);
    if span.None? {
      return;
    }
    var padded := PaddedAxis(span.value);
    axis.min := Some(padded.lo);
    axis.max := Some(padded.hi);
  }
}
