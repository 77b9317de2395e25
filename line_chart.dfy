/** The zoomable line chart: merging polled points into the current series,
    the y-axis fit over the visible window and the precision of tick and
    tooltip labels. */
module LineChart {
  import opened Util
  import opened ChartMath

  predicate SortedByDate(s: seq<Candle>) {
    forall i, j :: 0 <= i < j < |s| ==> s[i].date <= s[j].date
  }

  predicate StrictlyAscendingDates(s: seq<Candle>) {
    forall i, j :: 0 <= i < j < |s| ==> s[i].date < s[j].date
  }

  predicate DistinctDates(s: seq<Candle>) {
    forall i, j :: 0 <= i < j < |s| ==> s[i].date != s[j].date
  }

  function Dates(s: seq<Candle>): set<int> {
    set x | x in s :: x.date
  }

  /** `merged.findIndex(p => same timestamp)`: the first position holding a
      point with timestamp `date`, or -1. */
  function FindIndexByDate(s: seq<Candle>, date: int): (k: int)
    ensures -1 <= k < |s|
    ensures k >= 0 ==> s[k].date == date && forall j :: 0 <= j < k ==> s[j].date != date
    ensures k == -1 <==> date !in Dates(s)
  {
    if s == [] then -1
    else if s[0].date == date then 0
    else
      var k := FindIndexByDate(s[1..], date);
      assert Dates(s) == {s[0].date} + Dates(s[1..]) by {
        assert s == [s[0]] + s[1..];
      }
      if k < 0 then -1 else k + 1
  }

  /** One `forEach` step: overwrite the first point with the same timestamp,
      or push the new point at the end. */
  function Upsert(merged: seq<Candle>, p: Candle): seq<Candle> {
    var k := FindIndexByDate(merged, p.date);
    if k >= 0 then merged[k := p] else merged + [p]
  }

  /** All `forEach` steps over the update, in order. */
  function UpsertAll(prev: seq<Candle>, update: seq<Candle>): seq<Candle> {
    if update == [] then prev
    else Upsert(UpsertAll(prev, update[..|update| - 1]), update[|update| - 1])
  }

  /** The point each timestamp of the update ends up with: the last point of
      the update carrying that timestamp (see `LatestIsLastOccurrence`). */
  function LatestByDate(update: seq<Candle>): (m: map<int, Candle>)
    ensures m.Keys == Dates(update)
  {
    if update == [] then map[]
    else
      var init := update[..|update| - 1];
      var last := update[|update| - 1];
      assert update == init + [last];
      assert Dates(update) == Dates(init) + {last.date};
      LatestByDate(init)[last.date := last]
  }

  /** No point of `update` after position `j` shares its timestamp. */
  predicate LastOfItsDate(update: seq<Candle>, j: int)
    requires 0 <= j < |update|
  {
    forall k :: j < k < |update| ==> update[k].date != update[j].date
  }

  /** Each timestamp of the update maps to a point of the update with that
      timestamp, and the last point carrying a timestamp is the one kept. */
  lemma {:induction false} LatestIsLastOccurrence(update: seq<Candle>)
    ensures forall d :: d in LatestByDate(update) ==> LatestByDate(update)[d] in update && LatestByDate(update)[d].date == d
    ensures forall j :: 0 <= j < |update| && LastOfItsDate(update, j) ==> LatestByDate(update)[update[j].date] == update[j]
  {
    if update != [] {
      var init := update[..|update| - 1];
      var last := update[|update| - 1];
      LatestIsLastOccurrence(init);
      assert update == init + [last];
      forall j | 0 <= j < |update| && LastOfItsDate(update, j)
        ensures LatestByDate(update)[update[j].date] == update[j]
      {
        if j < |update| - 1 {
          assert LastOfItsDate(init, j);
          assert update[j].date != last.date;
        }
      }
    }
  }

  /** One upsert on a series with distinct timestamps keeps them distinct,
      adds the new point's timestamp and grows only when it is new. */
  lemma UpsertStepShape(r: seq<Candle>, p: Candle)
    requires DistinctDates(r)
    ensures DistinctDates(Upsert(r, p))
    ensures Dates(Upsert(r, p)) == Dates(r) + {p.date}
    ensures |Upsert(r, p)| == |r| + (if p.date in Dates(r) then 0 else 1)
  {
    var k := FindIndexByDate(r, p.date);
    var u := Upsert(r, p);
    if k >= 0 {
      assert u == r[k := p];
      forall d | d in Dates(r) ensures d in Dates(u) {
        var x :| x in r && x.date == d;
        var j :| 0 <= j < |r| && r[j] == x;
        assert u[j].date == d;
      }
      forall d | d in Dates(u) ensures d in Dates(r) + {p.date} {
        var x :| x in u && x.date == d;
        var j :| 0 <= j < |u| && u[j] == x;
        assert j != k ==> r[j] == x;
      }
    } else {
      assert u == r + [p];
      DatesAppend(r, p);
    }
  }

  /** One upsert keeps the new point and every point with another timestamp. */
  lemma UpsertStepMembers(r: seq<Candle>, p: Candle)
    requires DistinctDates(r)
    ensures forall x :: x in Upsert(r, p) <==> x == p || (x in r && x.date != p.date)
  {
    var k := FindIndexByDate(r, p.date);
    var u := Upsert(r, p);
    if k >= 0 {
      assert u == r[k := p];
      forall x
        ensures x in u <==> x == p || (x in r && x.date != p.date)
      {
        if x == p {
          assert u[k] == x;
        }
        if x in r && x.date != p.date {
          var j :| 0 <= j < |r| && r[j] == x;
          assert j != k && u[j] == x;
        }
        if x in u && x != p {
          var j :| 0 <= j < |u| && u[j] == x;
          assert j != k && r[j] == x;
          assert r[j].date != r[k].date;
        }
      }
    } else {
      assert u == r + [p];
      forall x | x in r ensures x.date != p.date {
        assert x.date in Dates(r);
      }
    }
  }

  lemma DatesAppend(s: seq<Candle>, x: Candle)
    ensures Dates(s + [x]) == Dates(s) + {x.date}
  {
    assert forall y :: y in s + [x] <==> y in s || y == x;
  }

  /** Merging an update into a series with distinct timestamps keeps the
      timestamps distinct and adds exactly the update's timestamps. */
  lemma {:induction false} UpsertAllDates(prev: seq<Candle>, update: seq<Candle>)
    requires DistinctDates(prev)
    ensures DistinctDates(UpsertAll(prev, update))
    ensures Dates(UpsertAll(prev, update)) == Dates(prev) + Dates(update)
  {
    if update != [] {
      var init := update[..|update| - 1];
      var p := update[|update| - 1];
      UpsertAllDates(prev, init);
      UpsertStepShape(UpsertAll(prev, init), p);
      assert update == init + [p];
      DatesAppend(init, p);
    }
  }

  /** ... and grows by the number of the update's timestamps that are new. */
  lemma {:induction false} UpsertAllLength(prev: seq<Candle>, update: seq<Candle>)
    requires DistinctDates(prev)
    ensures |UpsertAll(prev, update)| == |prev| + |Dates(update) - Dates(prev)|
  {
    if update != [] {
      var init := update[..|update| - 1];
      var p := update[|update| - 1];
      var r := UpsertAll(prev, init);
      UpsertAllLength(prev, init);
      UpsertAllDates(prev, init);
      UpsertStepShape(r, p);
      assert update == init + [p];
      DatesAppend(init, p);
      FreshCountStep(Dates(prev), Dates(init), p.date);
      assert |UpsertAll(prev, update)| == |r| + (if p.date in Dates(r) then 0 else 1);
    }
  }

  lemma FreshCountStep(old_: set<int>, seen: set<int>, d: int)
    ensures |(seen + {d}) - old_| == |seen - old_| + (if d in old_ + seen then 0 else 1)
  {
    if d in old_ + seen {
      assert (seen + {d}) - old_ == seen - old_;
    } else {
      assert (seen + {d}) - old_ == (seen - old_) + {d};
    }
  }

  /** The point a merge keeps, given the latest update point of each
      updated timestamp: that latest point, or a prior point whose timestamp
      the update does not mention. */
  predicate Survives(x: Candle, prev: seq<Candle>, latest: map<int, Candle>) {
    if x.date in latest then latest[x.date] == x else x in prev
  }

  /** Merging an update into a series with distinct timestamps keeps exactly
      the surviving points. */
  lemma {:induction false} UpsertAllMembers(prev: seq<Candle>, update: seq<Candle>)
    requires DistinctDates(prev)
    ensures forall x :: x in UpsertAll(prev, update) <==> Survives(x, prev, LatestByDate(update))
  {
    if update != [] {
      var init := update[..|update| - 1];
      var p := update[|update| - 1];
      var r := UpsertAll(prev, init);
      var before := LatestByDate(init);
      UpsertAllMembers(prev, init);
      UpsertAllDates(prev, init);
      UpsertStepMembers(r, p);
      assert LatestByDate(update) == before[p.date := p];
      forall x ensures x in Upsert(r, p) <==> Survives(x, prev, before[p.date := p]) {
        assert x in r <==> Survives(x, prev, before);
      }
    }
  }

  /** Insert `x` after every point whose timestamp is not later than its own. */
  function Insert(x: Candle, t: seq<Candle>): (r: seq<Candle>)
    ensures multiset(r) == multiset(t) + multiset{x}
    ensures |r| == |t| + 1
  {
    if t == [] then [x]
    else if x.date < t[0].date then [x] + t
    else
      assert t == [t[0]] + t[1..];
      [t[0]] + Insert(x, t[1..])
  }

  /** Every point of `Insert(x, t)` is `x` or a point of `t`. */
  lemma InsertMembers(x: Candle, t: seq<Candle>)
    ensures forall y :: y in Insert(x, t) <==> y == x || y in t
  {
    forall y ensures y in Insert(x, t) <==> y == x || y in t {
      assert y in Insert(x, t) <==> y in multiset(Insert(x, t));
      assert y in t <==> y in multiset(t);
    }
  }

  /** Every point of `s` is timestamped at `d` or later (strictly later
      when `strict`). */
  predicate AllFrom(s: seq<Candle>, d: int, strict: bool) {
    forall i :: 0 <= i < |s| ==> if strict then s[i].date > d else s[i].date >= d
  }

  lemma SortedCons(a: Candle, rest: seq<Candle>, strict: bool)
    requires AllFrom(rest, a.date, strict)
    requires if strict then StrictlyAscendingDates(rest) else SortedByDate(rest)
    ensures if strict then StrictlyAscendingDates([a] + rest) else SortedByDate([a] + rest)
  {
  }

  /** Inserting into a series sorted by time keeps it sorted, and strictly
      so when the new timestamp is not already there. */
  lemma {:induction false} InsertSorted(x: Candle, t: seq<Candle>, strict: bool)
    requires if strict then StrictlyAscendingDates(t) && x.date !in Dates(t) else SortedByDate(t)
    ensures if strict then StrictlyAscendingDates(Insert(x, t)) else SortedByDate(Insert(x, t))
  {
    if t == [] {
    } else if x.date < t[0].date {
      assert AllFrom(t, x.date, strict);
      SortedCons(x, t, strict);
    } else {
      var rest := Insert(x, t[1..]);
      assert x.date != t[0].date ==> AllFrom(t[1..], t[0].date, strict);
      assert strict ==> x.date != t[0].date && x.date !in Dates(t[1..]) by {
        if strict {
          assert t[0] in t;
          assert forall y :: y in t[1..] ==> y in t;
        }
      }
      InsertSorted(x, t[1..], strict);
      InsertMembers(x, t[1..]);
      forall i | 0 <= i < |rest| ensures if strict then rest[i].date > t[0].date else rest[i].date >= t[0].date {
        assert rest[i] in rest;
      }
      SortedCons(t[0], rest, strict);
    }
  }

  /** The `sort` by timestamp, as an insertion sort over the points in order. */
  function SortByDate(s: seq<Candle>): seq<Candle> {
    if s == [] then []
    else Insert(s[|s| - 1], SortByDate(s[..|s| - 1]))
  }

  /** Sorting yields a permutation of its input. */
  lemma {:induction false} SortByDatePermutes(s: seq<Candle>)
    ensures multiset(SortByDate(s)) == multiset(s)
  {
    if s != [] {
      SortByDatePermutes(s[..|s| - 1]);
      assert s == s[..|s| - 1] + [s[|s| - 1]];
    }
  }

  /** The last point's timestamp is new to the rest of a series with
      distinct timestamps, which keeps them distinct. */
  lemma DistinctSplit(s: seq<Candle>)
    requires s != [] && DistinctDates(s)
    ensures DistinctDates(s[..|s| - 1])
    ensures s[|s| - 1].date !in Dates(s[..|s| - 1])
  {
    var init := s[..|s| - 1];
    forall y | y in init ensures y.date != s[|s| - 1].date {
      var j :| 0 <= j < |init| && init[j] == y;
      assert s[j] == y;
    }
  }

  /** Sorting orders by time, strictly when the timestamps are distinct. */
  lemma {:induction false} SortByDateSorted(s: seq<Candle>, strict: bool)
    requires strict ==> DistinctDates(s)
    ensures if strict then StrictlyAscendingDates(SortByDate(s)) else SortedByDate(SortByDate(s))
  {
    if s != [] {
      var init := s[..|s| - 1];
      var x := s[|s| - 1];
      var sorted := SortByDate(init);
      if strict {
        DistinctSplit(s);
        SortByDatePermutes(init);
        forall y | y in sorted ensures y.date != x.date {
          assert y in multiset(sorted);
          assert y in init;
        }
      }
      SortByDateSorted(init, strict);
      InsertSorted(x, sorted, strict);
    }
  }

  /** The polling merge: a missing or non-array update leaves the series as it
      is; otherwise every update point is upserted by timestamp in order and
      the result sorted by timestamp. When the prior timestamps are distinct,
      the result is strictly ascending in time, holds the latest update point
      of each updated timestamp and the untouched prior points, and grows by
      the number of new timestamps. */
  method MergeUpdate(prev: seq<Candle>, update: Option<seq<Candle>>) returns (next: seq<Candle>)
    ensures update.None? ==> next == prev
    ensures update.Some? ==> next == SortByDate(UpsertAll(prev, update.value))
    ensures update.Some? ==> SortedByDate(next)
    ensures update.Some? && DistinctDates(prev) ==>
      && StrictlyAscendingDates(next)
      && (forall x :: x in next <==> Survives(x, prev, LatestByDate(update.value)))
      && |next| == |prev| + |Dates(update.value) - Dates(prev)|
  {
    if update.None? {
      return prev;
    }
    var points := update.value;
    var merged := prev;
    var i := 0;
    while i < |points|
      invariant 0 <= i <= |points|
      invariant merged == UpsertAll(prev, points[..i])
    {
      assert points[..i + 1][..i] == points[..i];
      var existing := FindIndexByDate(merged, points[i].date);
      if existing >= 0 {
        merged := merged[existing := points[i]];
      } else {
        merged := merged + [points[i]];
      }
      i := i + 1;
    }
    assert points[..|points|] == points;
    next := SortByDate(merged);
    SortByDatePermutes(merged);
    SortByDateSorted(merged, false);
    if DistinctDates(prev) {
      UpsertAllDates(prev, points);
      UpsertAllLength(prev, points);
      UpsertAllMembers(prev, points);
      SortByDateSorted(merged, true);
      forall x ensures x in next <==> x in merged {
        assert x in next <==> x in multiset(next);
        assert x in merged <==> x in multiset(merged);
      }
    }
  }

  /** A chart dataset: its `data` array of optional values, or something
      that is not an array (skipped). */
  datatype Dataset = NotAnArray | Series(values: seq<Option<real>>)

  /** The non-null values at indices `first .. end - 1` of one series; an
      index past the end of the array reads `undefined` and is skipped. */
  function SeriesValues(values: seq<Option<real>>, first: int, end: int): seq<real>
    decreases end - first
  {
    if end <= first then []
    else
      var i := end - 1;
      SeriesValues(values, first, end - 1)
      + (if 0 <= i < |values| && values[i].Some? then [values[i].value] else [])
  }

  /** The values scanned are exactly the non-null entries of the series at
      indices in the window. */
  lemma {:induction false} SeriesValuesMembers(values: seq<Option<real>>, first: int, end: int)
    decreases end - first
    ensures forall v :: v in SeriesValues(values, first, end) <==>
      exists i :: first <= i < end && 0 <= i < |values| && values[i] == Some(v)
  {
    if end > first {
      SeriesValuesMembers(values, first, end - 1);
    }
  }

  /** The values the y-axis fit scans: each array dataset in order, over the
      visible window. */
  function VisibleValues(datasets: seq<Dataset>, w: Window): seq<real> {
    if datasets == [] then []
    else VisibleValues(datasets[..|datasets| - 1], w) + DatasetValues(datasets[|datasets| - 1], w)
  }

  /** The visible values of one dataset; none for a non-array. */
  function DatasetValues(ds: Dataset, w: Window): seq<real> {
    match ds
    case NotAnArray => []
    case Series(values) => SeriesValues(values, w.first, w.last + 1)
  }

  lemma VisibleValuesStep(datasets: seq<Dataset>, d: int, w: Window)
    requires 0 <= d < |datasets|
    ensures VisibleValues(datasets[..d + 1], w) == VisibleValues(datasets[..d], w) + DatasetValues(datasets[d], w)
  {
    assert datasets[..d + 1][..d] == datasets[..d];
  }

  /** Whether index `i` of a series holds a value the fit scans. */
  predicate Scanned(values: seq<Option<real>>, i: int) {
    0 <= i < |values| && values[i].Some?
  }

  /** One step of the inner loop keeps the running extremes right. */
  lemma ScanStep(done: seq<real>, values: seq<Option<real>>, first: int, i: int)
    requires first <= i
    ensures Extremes(done + SeriesValues(values, first, i + 1))
      == if Scanned(values, i) then Some(Widen(Extremes(done + SeriesValues(values, first, i)), values[i].value))
         else Extremes(done + SeriesValues(values, first, i))
  {
    var scanned := SeriesValues(values, first, i);
    if Scanned(values, i) {
      var v := values[i].value;
      assert SeriesValues(values, first, i + 1) == scanned + [v];
      ExtremesAppend(done + scanned, v);
      assert done + (scanned + [v]) == (done + scanned) + [v];
    } else {
      assert SeriesValues(values, first, i + 1) == scanned + [];
      assert scanned + [] == scanned;
    }
  }

  /** The inner loop over one series: widens the running extremes of the
      values scanned so far (`done`) by the series' visible values. */
  method ScanSeries(ghost done: seq<real>, r0: Option<Range>, values: seq<Option<real>>, w: Window)
    returns (r: Option<Range>)
    requires r0 == Extremes(done)
    ensures r == Extremes(done + SeriesValues(values, w.first, w.last + 1))
  {
    r := r0;
    var i := w.first;
    assert done + SeriesValues(values, w.first, i) == done;
    while i <= w.last
      invariant w.first <= i && (i <= w.last + 1 || i == w.first)
      invariant r == Extremes(done + SeriesValues(values, w.first, i))
    {
      ScanStep(done, values, w.first, i);
      if Scanned(values, i) {
        r := Some(Widen(r, values[i].value));
      }
      i := i + 1;
    }
    if i == w.first {
      assert SeriesValues(values, w.first, w.last + 1) == [];
    }
  }

  /** The nested min/max loops of `updateLineYAxis`. */
  method LineExtremes(datasets: seq<Dataset>, w: Window) returns (r: Option<Range>)
    ensures r == Extremes(VisibleValues(datasets, w))
  {
    r := None;
    var d := 0;
    while d < |datasets|
      invariant 0 <= d <= |datasets|
      invariant r == Extremes(VisibleValues(datasets[..d], w))
    {
      VisibleValuesStep(datasets, d, w);
      match datasets[d] {
      case NotAnArray =>
        assert DatasetValues(datasets[d], w) == [];
        assert VisibleValues(datasets[..d], w) + [] == VisibleValues(datasets[..d], w);
      case Series(values) =>
        r := ScanSeries(VisibleValues(datasets[..d], w), r, values, w);
      }
      d := d + 1;
    }
    assert datasets[..|datasets|] == datasets;
  }

  /** `updateLineYAxis`: without both scales nothing happens; otherwise the
      y bounds become the padded extremes of the visible values, and stay as
      they were when no visible value exists. */
  method UpdateLineYAxis(axis: YAxisOptions, xScale: Option<XScale>, hasYScale: bool,
                         labelCount: int, datasets: seq<Dataset>)
    modifies axis
    ensures xScale.None? || !hasYScale ==> axis.min == old(axis.min) && axis.max == old(axis.max)
    ensures xScale.Some? && hasYScale ==>
      var ext := Extremes(VisibleValues(datasets, VisibleWindow(xScale.value, labelCount)));
      && (ext.None? ==> axis.min == old(axis.min) && axis.max == old(axis.max))
      && (ext.Some? ==> axis.min == Some(PaddedAxis(ext.value).lo) && axis.max == Some(PaddedAxis(ext.value).hi))
  {
    if xScale.None? || !hasYScale {
      return;
    }
    var w := VisibleWindow(xScale.value, labelCount);
    var ext := LineExtremes(datasets, w);
    if ext.None? {
      return;
    }
    var padded := PaddedAxis(ext.value);
    axis.min := Some(padded.lo);
    axis.max := Some(padded.hi);
  }

  function Pow10(n: nat): real {
    if n == 0 then 1.0 else 10.0 * Pow10(n - 1)
  }

  /** Decimal places of tick and tooltip labels for a y range: between 1 and
      4, chosen so the range spans fewer than 1000 units of the last shown
      digit (unless already at 1 place) and at least 100 such units (unless
      already at 4 places). */
  function Precision(range: real): (p: nat)
    ensures 1 <= p <= 4
    ensures p > 1 ==> range * Pow10(p) < 1000.0
    ensures p < 4 ==> range * Pow10(p) >= 100.0
  {
    if range < 0.1 then 4 else if range < 1.0 then 3 else if range < 10.0 then 2 else 1
  }

  /** A wider range never gets more decimal places. */
  lemma PrecisionNonIncreasing(a: real, b: real)
    requires a <= b
    ensures Precision(b) <= Precision(a)
  {
  }

  /** Label precision with the chart's y range, when the scale exists; two
      places otherwise. */
  function LabelPrecision(yRange: Option<Range>): (p: nat)
    ensures 1 <= p <= 4
    ensures yRange.None? ==> p == 2
  {
    match yRange
    case None => 2
    case Some(r) => Precision(r.hi - r.lo)
  }
}
