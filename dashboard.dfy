/** The option loading, data loading and label formatting of the enhanced
    dashboard. The network fetches are parameters: each is either its
    response or a failure that the component logs and ignores. */
module Dashboard {
  import opened Util
  import opened Text
  import opened ChartMath

  /** The scales always offered first, in this order. */
  const PreferredScales: seq<string> := ["1m", "5m", "2d", "4d"]

  /** The scale list after the `forEach` has visited `fetched`, starting
      from `start`: each scale not yet present is pushed at the end. */
  function AppendNew(start: seq<string>, fetched: seq<string>): seq<string> {
    if fetched == [] then start
    else
      var acc := AppendNew(start, fetched[..|fetched| - 1]);
      if fetched[|fetched| - 1] in acc then acc else acc + [fetched[|fetched| - 1]]
  }

  /** The position of the first occurrence of `x` in `s`. */
  function FirstOccurrence(s: seq<string>, x: string): (p: nat)
    requires x in s
    ensures p < |s| && s[p] == x
    ensures forall j :: 0 <= j < p ==> s[j] != x
  {
    if x in s[..|s| - 1] then FirstOccurrence(s[..|s| - 1], x) else |s| - 1
  }

  /** The merged list starts with `start`, holds exactly the scales of
      `start` and `fetched`, and holds each only once when `start` does. */
  lemma {:induction false} AppendNewSpec(start: seq<string>, fetched: seq<string>)
    requires NoDuplicates(start)
    ensures |AppendNew(start, fetched)| >= |start| && AppendNew(start, fetched)[..|start|] == start
    ensures forall s :: s in AppendNew(start, fetched) <==> s in start || s in fetched
    ensures NoDuplicates(AppendNew(start, fetched))
  {
    if fetched != [] {
      var init := fetched[..|fetched| - 1];
      AppendNewSpec(start, init);
      assert fetched == init + [fetched[|fetched| - 1]];
    }
  }

  /** The scales appended after `start` appear in the order of their first
      occurrence in `fetched`. */
  lemma {:induction false} AppendNewOrder(start: seq<string>, fetched: seq<string>)
    requires NoDuplicates(start)
    ensures var r := AppendNew(start, fetched);
      forall i, j :: |start| <= i < j < |r| ==>
        r[i] in fetched && r[j] in fetched && FirstOccurrence(fetched, r[i]) < FirstOccurrence(fetched, r[j])
  {
    if fetched != [] {
      var init := fetched[..|fetched| - 1];
      var last := fetched[|fetched| - 1];
      var acc := AppendNew(start, init);
      AppendNewOrder(start, init);
      AppendNewSpec(start, init);
      AppendNewSpec(start, fetched);
      var r := AppendNew(start, fetched);
      forall i, j | |start| <= i < j < |r|
        ensures r[i] in fetched && r[j] in fetched && FirstOccurrence(fetched, r[i]) < FirstOccurrence(fetched, r[j])
      {
        assert r[i] !in start && r[j] !in start;
        assert r[i] in init && FirstOccurrence(fetched, r[i]) == FirstOccurrence(init, r[i]);
        if j < |acc| {
          assert r[j] in init && FirstOccurrence(fetched, r[j]) == FirstOccurrence(init, r[j]);
        } else {
          assert r[j] == last && last !in init;
        }
      }
    }
  }

  /** The `loadOptions` merge: the preferred scales, then every fetched scale
      not already listed, pushed in the order fetched. */
  method MergeScales(fetched: seq<string>) returns (merged: seq<string>)
    ensures merged == AppendNew(PreferredScales, fetched)
  {
    merged := PreferredScales;
    var i := 0;
    while i < |fetched|
      invariant 0 <= i <= |fetched|
      invariant merged == AppendNew(PreferredScales, fetched[..i])
    {
      assert fetched[..i + 1][..i] == fetched[..i];
      if fetched[i] !in merged {
        merged := merged + [fetched[i]];
      }
      i := i + 1;
    }
    assert fetched[..i] == fetched;
  }

  /** The merged list: the preferred scales in order, then the new scales
      without duplicates, each fetched scale somewhere in it. */
  lemma MergedScalesSpec(fetched: seq<string>)
    ensures var m := AppendNew(PreferredScales, fetched);
      && |m| >= 4 && m[..4] == PreferredScales
      && (forall s :: s in m <==> s in PreferredScales || s in fetched)
      && NoDuplicates(m)
      && forall i, j :: 4 <= i < j < |m| ==> FirstOccurrence(fetched, m[i]) < FirstOccurrence(fetched, m[j])
  {
    AppendNewSpec(PreferredScales, fetched);
    AppendNewOrder(PreferredScales, fetched);
  }

  datatype Strategy = Strategy(id: string, name: string)

  /** What the two option fetches return together. */
  datatype OptionsResponse = OptionsResponse(scales: seq<string>, strategies: seq<Strategy>)

  class DashboardState {
    var scales: seq<string>
    var strategies: seq<Strategy>
    var selectedScale: string
    var selectedStrategy: Option<string>
    var marketData: seq<Candle>
    var loading: bool

    /** The component's initial state. */
    constructor ()
      ensures scales == [] && strategies == [] && selectedScale == "5m"
      ensures selectedStrategy == None && marketData == [] && !loading
    {
      scales := [];
      strategies := [];
      selectedScale := "5m";
      selectedStrategy := None;
      marketData := [];
      loading := false;
    }

    /** `loadOptions`. On a failed fetch nothing changes. Otherwise the
        merged scales and the strategies are stored, the selected scale
        becomes `merged[1] || merged[0]`, which is always "5m" since the
        merged list starts with the preferred scales, and the selected
        strategy becomes the first strategy's id, or stays as it was when
        there are none. */
    method LoadOptions(response: Option<OptionsResponse>)
      modifies this
      ensures response.None? ==> scales == old(scales) && strategies == old(strategies)
      ensures response.None? ==> selectedScale == old(selectedScale) && selectedStrategy == old(selectedStrategy)
      ensures response.Some? ==>
        && scales == AppendNew(PreferredScales, response.value.scales)
        && strategies == response.value.strategies
        && selectedScale == "5m"
        && selectedStrategy == if response.value.strategies != [] then Some(response.value.strategies[0].id) else old(selectedStrategy)
      ensures marketData == old(marketData) && loading == old(loading)
    {
      if response.None? {
        return;
      }
      var merged := MergeScales(response.value.scales);
      scales := merged;
      strategies := response.value.strategies;
      if |merged| > 0 {
        selectedScale := if |merged| > 1 && merged[1] != "" then merged[1] else merged[0];
      }
      AppendNewSpec(PreferredScales, response.value.scales);
      assert merged[..4] == PreferredScales;
      if |response.value.strategies| > 0 {
        selectedStrategy := Some(response.value.strategies[0].id);
      }
    }

    /** `loadData`. Without a selected instrument nothing is requested and
        nothing changes. Otherwise the history of the instrument at the
        selected scale is requested, stored when it arrives and kept as it
        was when the request fails; either way loading ends false. */
    method LoadData(instrumentToken: Option<int>, response: Option<seq<Candle>>) returns (requested: Option<(int, string)>)
      modifies this
      ensures instrumentToken.None? ==> requested.None? && marketData == old(marketData) && loading == old(loading)
      ensures instrumentToken.Some? ==>
        && requested == Some((instrumentToken.value, old(selectedScale)))
        && marketData == (if response.Some? then response.value else old(marketData))
        && !loading
      ensures scales == old(scales) && strategies == old(strategies)
      ensures selectedScale == old(selectedScale) && selectedStrategy == old(selectedStrategy)
    {
      if instrumentToken.None? {
        return None;
      }
      loading := true;
      requested := Some((instrumentToken.value, selectedScale));
      if response.Some? {
        marketData := response.value;
      }
      loading := false;
    }
  }

  /** A scale as the server sends it: normally a string, but anything else
      is displayed as it is. */
  datatype ScaleValue = ScaleText(text: string) | ScaleOther(code: int)

  /** `formatScaleLabel`: day scales are shown upper-cased. */
  function FormatScaleLabel(scale: ScaleValue): ScaleValue {
    if scale.ScaleText? && EndsWith(scale.text, 'd') then ScaleText(ToUpper(scale.text)) else scale
  }

  /** A label is the scale itself unless the scale is a string ending in
      'd', which is upper-cased letter by letter; no label ends in 'd'
      afterwards, so formatting a label again changes nothing. */
  lemma FormatScaleLabelSpec(scale: ScaleValue)
    ensures !scale.ScaleText? || !EndsWith(scale.text, 'd') ==> FormatScaleLabel(scale) == scale
    ensures scale.ScaleText? ==> FormatScaleLabel(scale).ScaleText? && |FormatScaleLabel(scale).text| == |scale.text|
    ensures scale.ScaleText? && EndsWith(scale.text, 'd') ==>
      forall i :: 0 <= i < |scale.text| ==> FormatScaleLabel(scale).text[i] == UpperChar(scale.text[i])
    ensures scale.ScaleText? ==> !EndsWith(FormatScaleLabel(scale).text, 'd')
    ensures FormatScaleLabel(FormatScaleLabel(scale)) == FormatScaleLabel(scale)
  {
  }

  /** `formatCurrency` before the two-decimal rendering: the amount shown
      and its suffix. */
  datatype Money = Money(amount: real, suffix: string)

  function Multiplier(suffix: string): real {
    if suffix == "M" then 1000000.0 else if suffix == "K" then 1000.0 else 1.0
  }

  function FormatCurrency(value: real): (m: Money) {
    if value >= 1000000.0 then Money(value / 1000000.0, "M")
    else if value >= 1000.0 then Money(value / 1000.0, "K")
    else Money(value, "")
  }

  /** The suffix is M from a million up, K from a thousand up and none below
      (negative values included); the amount times the suffix's multiplier
      is the value, and a suffixed amount is at least 1 and, for K, below
      1000. */
  lemma FormatCurrencySpec(value: real)
    ensures FormatCurrency(value).suffix == "M" <==> value >= 1000000.0
    ensures FormatCurrency(value).suffix == "K" <==> 1000.0 <= value < 1000000.0
    ensures FormatCurrency(value).suffix == "" <==> value < 1000.0
    ensures FormatCurrency(value).amount * Multiplier(FormatCurrency(value).suffix) == value
    ensures FormatCurrency(value).suffix != "" ==> FormatCurrency(value).amount >= 1.0
    ensures FormatCurrency(value).suffix == "K" ==> FormatCurrency(value).amount < 1000.0
  {
  }
}
