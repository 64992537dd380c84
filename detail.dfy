/**
 * The per-ticker detail page: the keys and `select` projections of its two
 * queries, the interval it starts with, how an interval change rewrites the
 * page's URL query, and what the detail list shows before the data arrives.
 */
module Detail {
  import opened Options
  import opened QueryKeys
  import Home
  import ChartUtils

  /** A chart interval; the list of intervals the page offers is not part of this model. */
  type Interval = string

  // ---------------------------------------------------------------------------
  // Query keys
  // ---------------------------------------------------------------------------

  function CandleChartKey(ticker: string, interval: Interval): (k: QueryKey)
    ensures |k| == 3 && k[0] == "candle-chart" && k[1] == ticker && k[2] == interval
  {
    ["candle-chart", ticker, interval]
  }

  function TickerInfoKey(ticker: string): (k: QueryKey)
    ensures |k| == 2 && k[0] == "ticker-info" && k[1] == ticker
  {
    ["ticker-info", ticker]
  }

  /** Two charts share a cache entry exactly when ticker and interval both agree. */
  lemma CandleChartKeyIsInjective(t1: string, i1: Interval, t2: string, i2: Interval)
    ensures CandleChartKey(t1, i1) == CandleChartKey(t2, i2) <==> t1 == t2 && i1 == i2
  {
  }

  /** Two tickers' details share a cache entry exactly when the tickers agree. */
  lemma TickerInfoKeyIsInjective(t1: string, t2: string)
    ensures TickerInfoKey(t1) == TickerInfoKey(t2) <==> t1 == t2
  {
  }

  /**
   * The page's keys are apart from each other and from the list page's keys,
   * and invalidating the saved-ticker key (which matches by prefix) reaches
   * none of them.
   */
  lemma KeysAreSeparate(ticker: string, interval: Interval, other: string, sortBy: Home.SortBy)
    ensures CandleChartKey(ticker, interval) != TickerInfoKey(other)
    ensures !Matches(Home.SAVED_TICKER_LIST_KEY, CandleChartKey(ticker, interval))
    ensures !Matches(Home.SAVED_TICKER_LIST_KEY, TickerInfoKey(ticker))
    ensures !Matches(Home.SAVED_TICKER_LIST_KEY, Home.TickerListKey(sortBy))
    ensures !Matches(Home.SAVED_TICKER_LIST_KEY, Home.CURRENCY_LIST_KEY)
    ensures Matches(Home.SAVED_TICKER_LIST_KEY, Home.SAVED_TICKER_LIST_KEY)
  {
    var saved := Home.SAVED_TICKER_LIST_KEY;
    DifferentTagsNeverMatch(saved, CandleChartKey(ticker, interval));
    DifferentTagsNeverMatch(saved, TickerInfoKey(ticker));
    DifferentTagsNeverMatch(saved, Home.TickerListKey(sortBy));
    DifferentTagsNeverMatch(saved, Home.CURRENCY_LIST_KEY);
  }

  // ---------------------------------------------------------------------------
  // Selects
  // ---------------------------------------------------------------------------

  datatype CandleChartResponse = CandleChartResponse(chart: seq<ChartUtils.RawSample>)

  /** The chart's `select`: the samples, untouched. */
  function CandleChartSelect(data: CandleChartResponse): (samples: seq<ChartUtils.RawSample>)
    ensures samples == data.chart
  {
    data.chart
  }

  /**
   * What the page hands to the chart: `formatChartData` of the selected
   * samples, or of `undefined` while the chart has not loaded. One point per
   * sample, in order.
   */
  function ChartData(
    chart: Option<CandleChartResponse>, newDate: string -> real, parseFloat: string -> real)
    : (data: seq<ChartUtils.DataItem>)
    ensures chart.None? ==> data == []
    ensures chart.Some? ==> |data| == |chart.value.chart|
    ensures chart.Some? ==> forall i :: 0 <= i < |data| ==>
      data[i] == ChartUtils.ToDataItem(chart.value.chart[i], newDate, parseFloat)
  {
    var selected := if chart.Some? then Some(CandleChartSelect(chart.value)) else None;
    ChartUtils.FormatChartData(selected, newDate, parseFloat)
  }

  datatype TickerInfo = TickerInfo(
    target_currency: string,
    first: real,
    last: real,
    high: real,
    low: real,
    quote_volume: real,
    target_volume: real)

  datatype TickerInfoResponse = TickerInfoResponse(tickers: seq<TickerInfo>)

  /** The ticker-info `select`: `tickers.at(0)`, the head or nothing. */
  function TickerInfoSelect(data: TickerInfoResponse): (info: Option<TickerInfo>)
    ensures info.None? <==> |data.tickers| == 0
    ensures info.Some? ==> info.value == data.tickers[0]
  {
    if |data.tickers| == 0 then None else Some(data.tickers[0])
  }

  // ---------------------------------------------------------------------------
  // The detail list
  // ---------------------------------------------------------------------------

  datatype DetailView = DetailView(
    ticker: Option<string>,
    first: real,
    last: real,
    high: real,
    low: real,
    quoteVolume: real,
    targetVolume: real)

  /**
   * The values behind the detail list (before number formatting): the
   * upper-cased ticker and the six figures, each `?? 0` while info is absent.
   */
  function GetDetailView(info: Option<TickerInfo>): (v: DetailView)
    ensures info.None? ==> v == DetailView(None, 0.0, 0.0, 0.0, 0.0, 0.0, 0.0)
    ensures info.Some? ==> v.ticker == Some(Home.ToUpperCase(info.value.target_currency))
    ensures info.Some? ==>
      && v.first == info.value.first && v.last == info.value.last
      && v.high == info.value.high && v.low == info.value.low
      && v.quoteVolume == info.value.quote_volume && v.targetVolume == info.value.target_volume
  {
    match info
    case None => DetailView(None, 0.0, 0.0, 0.0, 0.0, 0.0, 0.0)
    case Some(t) =>
      DetailView(Some(Home.ToUpperCase(t.target_currency)),
                 t.first, t.last, t.high, t.low, t.quote_volume, t.target_volume)
  }

  // ---------------------------------------------------------------------------
  // Interval state and the URL query
  // ---------------------------------------------------------------------------

  /**
   * `interval_for_initialize ?? INTERVAL_LIST[0]`. The interval taken from
   * the URL is used as given; it is not checked against the offered list.
   */
  function InitialInterval(intervalForInitialize: Option<Interval>, intervalList: seq<Interval>)
    : (interval: Interval)
    requires |intervalList| > 0
    ensures intervalForInitialize.Some? ==> interval == intervalForInitialize.value
    ensures intervalForInitialize.None? ==> interval == intervalList[0]
  {
    intervalForInitialize.GetOr(intervalList[0])
  }

  /** The page starts on an offered interval exactly when the URL named none or named an offered one. */
  lemma InitialIntervalIsOfferedIff(intervalForInitialize: Option<Interval>, intervalList: seq<Interval>)
    requires |intervalList| > 0
    ensures InitialInterval(intervalForInitialize, intervalList) in intervalList
        <==> intervalForInitialize.None? || intervalForInitialize.value in intervalList
  {
  }

  /** A URL query value: one string or, for a repeated parameter, several. */
  datatype QueryValue = Single(s: string) | Multiple(ss: seq<string>)

  type UrlQuery = map<string, QueryValue>

  /** `{ ...router.query, interval: value }`. */
  function WithInterval(query: UrlQuery, value: Interval): (q: UrlQuery)
    ensures q.Keys == query.Keys + {"interval"}
    ensures q["interval"] == Single(value)
    ensures forall k :: k in query && k != "interval" ==> q[k] == query[k]
  {
    query["interval" := Single(value)]
  }

  /** Only the latest change counts: changing twice is changing once to the second value. */
  lemma WithIntervalLatestWins(query: UrlQuery, a: Interval, b: Interval)
    ensures WithInterval(WithInterval(query, a), b) == WithInterval(query, b)
  {
  }

  /** A route handed to `router.replace`. */
  datatype Route = Route(pathname: string, query: UrlQuery)

  /**
   * The detail page's interval state and the router it drives. `replaced`
   * records the routes passed to `router.replace`, in order.
   */
  class DetailPage {
    const ticker: string
    var interval: Interval
    var pathname: string
    var query: UrlQuery
    var replaced: seq<Route>

    constructor (
      ticker: string,
      intervalForInitialize: Option<Interval>,
      intervalList: seq<Interval>,
      pathname: string,
      query: UrlQuery)
      requires |intervalList| > 0
      ensures this.ticker == ticker
      ensures interval == InitialInterval(intervalForInitialize, intervalList)
      ensures this.pathname == pathname && this.query == query && replaced == []
    {
      this.ticker := ticker;
      interval := intervalForInitialize.GetOr(intervalList[0]);
      this.pathname := pathname;
      this.query := query;
      replaced := [];
    }

    /** The keys the page's two queries currently read. */
    function CurrentKeys(): (keys: (QueryKey, QueryKey))
      reads this
      ensures keys.0 == CandleChartKey(ticker, interval)
      ensures keys.1 == TickerInfoKey(ticker)
    {
      (CandleChartKey(ticker, interval), TickerInfoKey(ticker))
    }

    /**
     * `handleChangeInterval`: replaces the route with the same path and the
     * query with `interval` overwritten, then sets the interval state.
     */
    method HandleChangeInterval(value: Interval)
      modifies this
      ensures interval == value
      ensures pathname == old(pathname)
      ensures query == WithInterval(old(query), value)
      ensures replaced == old(replaced) + [Route(old(pathname), WithInterval(old(query), value))]
    {
      var next := Route(pathname, WithInterval(query, value));
      replaced := replaced + [next];
      query := next.query;
      interval := value;
    }
  }

  /** After switching interval the chart reads a different entry, while the ticker info keeps its own. */
  method SwitchingIntervalMovesChartKey(ticker: string, list: seq<Interval>, a: Interval, b: Interval)
    requires |list| > 0 && a != b
  {
    var page := new DetailPage(ticker, Some(a), list, "/[ticker]", map[]);
    var before := page.CurrentKeys();
    page.HandleChangeInterval(b);
    var after := page.CurrentKeys();
    CandleChartKeyIsInjective(ticker, a, ticker, b);
    assert before.0 != after.0 && before.1 == after.1;
    assert page.query == map["interval" := Single(b)];
  }
}
