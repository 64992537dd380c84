/**
 * The chart's data normaliser and scale setup. Raw candle samples become
 * (timestamp, closing value) points; the scales map the extent of the points
 * onto the drawing area less the chart margins, with the y axis inverted.
 *
 * Numbers are exact reals. `new Date(...)` (read as its millisecond value)
 * and `parseFloat` are passed in as uninterpreted functions. The scales are
 * the charting library's linear scales, taken as the affine map from the
 * domain's endpoints to the range's endpoints: an assumed library contract.
 */
module ChartUtils {
  import opened Options

  /** One candle sample of the chart response; only the fields the chart reads. */
  datatype RawSample = RawSample(timestamp: string, close: string)

  /** `DataItemInterface`: a point to plot. */
  datatype DataItem = DataItem(timestamp: real, close_value: real)

  function ToDataItem(item: RawSample, newDate: string -> real, parseFloat: string -> real): (point: DataItem)
  {
    DataItem(newDate(item.timestamp), parseFloat(item.close))
  }

  /**
   * `samples.map(...)`: element i of the result is built from sample i alone,
   * so length and order are kept and nothing is filtered or merged.
   */
  function FormatSamples(samples: seq<RawSample>, newDate: string -> real, parseFloat: string -> real)
    : (data: seq<DataItem>)
    ensures |data| == |samples|
    ensures forall i :: 0 <= i < |data| ==>
      data[i].timestamp == newDate(samples[i].timestamp) && data[i].close_value == parseFloat(samples[i].close)
    decreases |samples|
  {
    if samples == [] then []
    else [ToDataItem(samples[0], newDate, parseFloat)] + FormatSamples(samples[1..], newDate, parseFloat)
  }

  /** Normalising a concatenation is concatenating the normalised parts. */
  lemma FormatSamplesAppend(
    a: seq<RawSample>, b: seq<RawSample>, newDate: string -> real, parseFloat: string -> real)
    ensures FormatSamples(a + b, newDate, parseFloat)
         == FormatSamples(a, newDate, parseFloat) + FormatSamples(b, newDate, parseFloat)
  {
  }

  /** `formatChartData`: `undefined` (data still loading) gives the empty list. */
  function FormatChartData(chart: Option<seq<RawSample>>, newDate: string -> real, parseFloat: string -> real)
    : (data: seq<DataItem>)
    ensures chart.None? ==> data == []
    ensures chart.Some? ==> |data| == |chart.value|
    ensures chart.Some? ==> forall i :: 0 <= i < |data| ==>
      data[i] == DataItem(newDate(chart.value[i].timestamp), parseFloat(chart.value[i].close))
  {
    match chart
    case Some(samples) => FormatSamples(samples, newDate, parseFloat)
    case None => []
  }

  /** An absent chart and an empty chart normalise alike. */
  lemma FormatChartDataOfNothing(newDate: string -> real, parseFloat: string -> real)
    ensures FormatChartData(None, newDate, parseFloat) == []
    ensures FormatChartData(Some([]), newDate, parseFloat) == []
  {
  }

  // ---------------------------------------------------------------------------
  // Scales
  // ---------------------------------------------------------------------------

  datatype Margin = Margin(top: real, bottom: real, left: real, right: real)

  const CHART_MARGIN: Margin := Margin(20.0, 20.0, 0.0, 0.0)

  function Min(a: real, b: real): (m: real) { if a <= b then a else b }

  function Max(a: real, b: real): (m: real) { if a >= b then a else b }

  /**
   * The extent (least, greatest) of a list of numbers, or `None` for the
   * empty list, where the library answers `[undefined, undefined]`.
   */
  function Extent(xs: seq<real>): (e: Option<(real, real)>)
    ensures e.None? <==> |xs| == 0
    ensures e.Some? ==> e.value.0 in xs && e.value.1 in xs
    ensures e.Some? ==> forall i :: 0 <= i < |xs| ==> e.value.0 <= xs[i] <= e.value.1
    decreases |xs|
  {
    if |xs| == 0 then None
    else if |xs| == 1 then Some((xs[0], xs[0]))
    else
      var rest := Extent(xs[1..]).value;
      Some((Min(xs[0], rest.0), Max(xs[0], rest.1)))
  }

  function Timestamps(data: seq<DataItem>): (ts: seq<real>)
    ensures |ts| == |data| && forall i :: 0 <= i < |data| ==> ts[i] == data[i].timestamp
  {
    seq(|data|, i requires 0 <= i < |data| => data[i].timestamp)
  }

  function CloseValues(data: seq<DataItem>): (vs: seq<real>)
    ensures |vs| == |data| && forall i :: 0 <= i < |data| ==> vs[i] == data[i].close_value
  {
    seq(|data|, i requires 0 <= i < |data| => data[i].close_value)
  }

  /** A linear scale: a domain (absent when built from no data) and a pixel range. */
  datatype LinearScale = LinearScale(domain: Option<(real, real)>, range: (real, real))

  predicate NonDegenerate(s: LinearScale)
  {
    s.domain.Some? && s.domain.value.0 != s.domain.value.1
  }

  /** The assumed library contract: the affine map sending domain ends to range ends. */
  function Apply(s: LinearScale, v: real): (pixel: real)
    requires NonDegenerate(s)
  {
    var (d0, d1) := s.domain.value;
    var (r0, r1) := s.range;
    r0 + (v - d0) * (r1 - r0) / (d1 - d0)
  }

  /** The domain's ends land on the range's ends. */
  lemma ApplyEndpoints(s: LinearScale)
    requires NonDegenerate(s)
    ensures Apply(s, s.domain.value.0) == s.range.0
    ensures Apply(s, s.domain.value.1) == s.range.1
  {
  }

  /**
   * Over an increasing domain the scale preserves order when the range
   * increases and reverses it when the range decreases.
   */
  lemma ApplyMonotone(s: LinearScale, a: real, b: real)
    requires NonDegenerate(s) && s.domain.value.0 < s.domain.value.1
    requires a < b
    ensures s.range.0 < s.range.1 ==> Apply(s, a) < Apply(s, b)
    ensures s.range.0 > s.range.1 ==> Apply(s, a) > Apply(s, b)
  {
  }

  datatype Scales = Scales(x: LinearScale, y: LinearScale)

  /**
   * `getScales`: x maps the extent of the timestamps onto
   * `[margin.left, width - margin.right]`; y maps the extent of the closing
   * values onto `[height - margin.bottom, margin.top]`, upside down.
   */
  function GetScales(data: seq<DataItem>, width: real, height: real): (s: Scales)
    ensures s.x.range == (CHART_MARGIN.left, width - CHART_MARGIN.right) == (0.0, width)
    ensures s.y.range == (height - CHART_MARGIN.bottom, CHART_MARGIN.top) == (height - 20.0, 20.0)
    ensures s.x.domain.None? <==> |data| == 0
    ensures s.y.domain.None? <==> |data| == 0
    ensures s.x.domain.Some? ==> forall i :: 0 <= i < |data| ==>
      s.x.domain.value.0 <= data[i].timestamp <= s.x.domain.value.1
    ensures s.x.domain.Some? ==> exists i :: 0 <= i < |data| && data[i].timestamp == s.x.domain.value.0
    ensures s.x.domain.Some? ==> exists j :: 0 <= j < |data| && data[j].timestamp == s.x.domain.value.1
    ensures s.y.domain.Some? ==> forall i :: 0 <= i < |data| ==>
      s.y.domain.value.0 <= data[i].close_value <= s.y.domain.value.1
    ensures s.y.domain.Some? ==> exists i :: 0 <= i < |data| && data[i].close_value == s.y.domain.value.0
    ensures s.y.domain.Some? ==> exists j :: 0 <= j < |data| && data[j].close_value == s.y.domain.value.1
  {
    var xDomain := Extent(Timestamps(data));
    var yDomain := Extent(CloseValues(data));
    var scales := Scales(LinearScale(xDomain, (CHART_MARGIN.left, width - CHART_MARGIN.right)),
                         LinearScale(yDomain, (height - CHART_MARGIN.bottom, CHART_MARGIN.top)));
    if xDomain.None? then scales
    else
      var ts, vs := Timestamps(data), CloseValues(data);
      var i :| 0 <= i < |ts| && ts[i] == xDomain.value.0;
      var j :| 0 <= j < |ts| && ts[j] == xDomain.value.1;
      var k :| 0 <= k < |vs| && vs[k] == yDomain.value.0;
      var l :| 0 <= l < |vs| && vs[l] == yDomain.value.1;
      assert data[i].timestamp == xDomain.value.0 && data[j].timestamp == xDomain.value.1;
      assert data[k].close_value == yDomain.value.0 && data[l].close_value == yDomain.value.1;
      scales
  }

  /**
   * When the closing values are not all equal, the lowest one is drawn at
   * `height - 20` and the highest at `20`: the chart is inset by the top and
   * bottom margins.
   */
  lemma ScalesMapYExtentToInsetRange(data: seq<DataItem>, width: real, height: real)
    requires NonDegenerate(GetScales(data, width, height).y)
    ensures var y := GetScales(data, width, height).y;
      Apply(y, y.domain.value.0) == height - 20.0 && Apply(y, y.domain.value.1) == 20.0
  {
    ApplyEndpoints(GetScales(data, width, height).y);
  }

  /**
   * When the timestamps are not all equal, the earliest is drawn at `0` and
   * the latest at `width`: the left and right margins are zero.
   */
  lemma ScalesMapXExtentToFullWidth(data: seq<DataItem>, width: real, height: real)
    requires NonDegenerate(GetScales(data, width, height).x)
    ensures var x := GetScales(data, width, height).x;
      Apply(x, x.domain.value.0) == 0.0 && Apply(x, x.domain.value.1) == width
  {
    ApplyEndpoints(GetScales(data, width, height).x);
  }

  /** For a chart taller than both margins, a larger value is drawn higher up. */
  lemma YScaleIsInverted(data: seq<DataItem>, width: real, height: real, a: real, b: real)
    requires NonDegenerate(GetScales(data, width, height).y)
    requires height > 40.0 && a < b
    ensures Apply(GetScales(data, width, height).y, a) > Apply(GetScales(data, width, height).y, b)
  {
    var y := GetScales(data, width, height).y;
    assert y.domain.value.0 <= y.domain.value.1 by {
      assert y.domain.value.0 <= data[0].close_value <= y.domain.value.1;
    }
    ApplyMonotone(y, a, b);
  }

  /** Closing values spanning 10 to 20 on a 100-pixel-high chart: 10 at pixel 80, 20 at pixel 20. */
  lemma HundredPixelExample(t0: real, t1: real)
    ensures var y := GetScales([DataItem(t0, 10.0), DataItem(t1, 20.0)], 200.0, 100.0).y;
      NonDegenerate(y) && Apply(y, 10.0) == 80.0 && Apply(y, 20.0) == 20.0
  {
  }
}
