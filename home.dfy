/**
 * The ticker list page: how one row of the list is classified and coloured,
 * the derived `diff`/`rate` figures, and the keys and `select` projections
 * of the three list queries (tickers, currencies, saved tickers).
 */
module Home {
  import opened Options
  import opened QueryKeys

  // ---------------------------------------------------------------------------
  // Trend classification and colouring
  // ---------------------------------------------------------------------------

  datatype IncreaseStatus = Increase | Decrease | Same

  /** The sign of a price change, with zero classified as `same`. */
  function GetIncreaseStatus(diff: real): (s: IncreaseStatus)
    ensures s == Increase <==> diff > 0.0
    ensures s == Decrease <==> diff < 0.0
    ensures s == Same <==> diff == 0.0
  {
    if diff > 0.0 then Increase
    else if diff < 0.0 then Decrease
    else Same
  }

  /** Korean rises red, falls blue; no change is gray. */
  function GetPriceColorByStatus(s: IncreaseStatus): (color: string)
    ensures color == "text-red-500" <==> s == Increase
    ensures color == "text-blue-500" <==> s == Decrease
    ensures color == "text-gray-500" <==> s == Same
  {
    match s
    case Increase => "text-red-500"
    case Decrease => "text-blue-500"
    case Same => "text-gray-500"
  }

  /** The Korean label of each status; defined for every status. */
  function EngToKRStatus(s: IncreaseStatus): (kr: string)
    ensures kr == "상승" <==> s == Increase
    ensures kr == "하락" <==> s == Decrease
    ensures kr == "변동 없음" <==> s == Same
  {
    match s
    case Increase => "상승"
    case Decrease => "하락"
    case Same => "변동 없음"
  }

  /** Different statuses are painted in different colours. */
  lemma PriceColorIsInjective(s1: IncreaseStatus, s2: IncreaseStatus)
    ensures GetPriceColorByStatus(s1) == GetPriceColorByStatus(s2) <==> s1 == s2
  {
  }

  // ---------------------------------------------------------------------------
  // Derived figures of one ticker
  // ---------------------------------------------------------------------------

  /** `last - first`: the change since the opening price. */
  function Diff(first: real, last: real): (d: real)
    ensures first + d == last
  {
    last - first
  }

  /** `(last - first) / first * 100`: the change as a percentage of `first`. */
  function Rate(first: real, last: real): (r: real)
    requires first != 0.0
    ensures r * first == Diff(first, last) * 100.0
  {
    (last - first) / first * 100.0
  }

  /** With a positive opening price the percentage has the sign of the difference. */
  lemma RateSignMatchesDiff(first: real, last: real)
    requires first > 0.0
    ensures GetIncreaseStatus(Rate(first, last)) == GetIncreaseStatus(Diff(first, last))
  {
  }

  function Opposite(s: IncreaseStatus): (o: IncreaseStatus)
  {
    match s
    case Increase => Decrease
    case Decrease => Increase
    case Same => Same
  }

  /** With a negative opening price the percentage has the opposite sign. */
  lemma RateSignFlipsForNegativeFirst(first: real, last: real)
    requires first < 0.0
    ensures GetIncreaseStatus(Rate(first, last)) == Opposite(GetIncreaseStatus(Diff(first, last)))
  {
  }

  /** Opening at 100 and closing at 90 is a fall of ten percent. */
  lemma FallFromHundredToNinety()
    ensures Diff(100.0, 90.0) == -10.0
    ensures Rate(100.0, 90.0) == -10.0
    ensures GetIncreaseStatus(Diff(100.0, 90.0)) == Decrease
  {
  }

  // ---------------------------------------------------------------------------
  // Upper-casing of the target currency
  // ---------------------------------------------------------------------------

  function UpperChar(c: char): (u: char)
  {
    if 'a' <= c <= 'z' then (c as int - 32) as char else c
  }

  /**
   * `toUpperCase` on the ASCII letters a ticker symbol is made of: every
   * lower-case letter becomes its capital, every other character is kept.
   */
  function ToUpperCase(s: string): (u: string)
    ensures |u| == |s|
    ensures forall i :: 0 <= i < |u| ==> !('a' <= u[i] <= 'z')
    ensures forall i :: 0 <= i < |u| ==>
      if 'a' <= s[i] <= 'z' then u[i] as int == s[i] as int - 32 else u[i] == s[i]
  {
    seq(|s|, i requires 0 <= i < |s| => UpperChar(s[i]))
  }

  /** Upper-casing an upper-cased symbol changes nothing. */
  lemma ToUpperCaseIsIdempotent(s: string)
    ensures ToUpperCase(ToUpperCase(s)) == ToUpperCase(s)
  {
  }

  // ---------------------------------------------------------------------------
  // Ticker list query
  // ---------------------------------------------------------------------------

  datatype SortBy = Volume | Name

  /** The ordering the list page starts with. */
  const DEFAULT_SORT: SortBy := Volume

  /** One record of the ticker-list response (the `id` used only as a React key is omitted). */
  datatype TickerSummary = TickerSummary(
    target_currency: string,
    first: real,
    last: real,
    high: real,
    low: real,
    quote_volume: real,
    target_volume: real)

  datatype TickerListResponse = TickerListResponse(tickers: seq<TickerSummary>)

  /** The key of the ticker list; the chosen ordering is not part of it. */
  function TickerListKey(sortBy: SortBy): (k: QueryKey)
    ensures |k| == 1 && k[0] == "ticker-list"
  {
    ["ticker-list"]
  }

  /**
   * The ticker list's `select`: `volume` orders by the volume sort and every
   * other choice by the name sort. The two sorts live in a module that is not
   * part of this model and are given as parameters.
   */
  function TickerListSelect(
    sortBy: SortBy,
    data: TickerListResponse,
    sortByVolume: seq<TickerSummary> -> seq<TickerSummary>,
    sortByName: seq<TickerSummary> -> seq<TickerSummary>): (sorted: seq<TickerSummary>)
    ensures sortBy == Volume ==> sorted == sortByVolume(data.tickers)
    ensures sortBy == Name ==> sorted == sortByName(data.tickers)
  {
    if sortBy == Volume then sortByVolume(data.tickers) else sortByName(data.tickers)
  }

  /**
   * Both orderings read one cache entry: their keys are equal and they differ
   * only in which sort their `select` applies to the same fetched data.
   */
  lemma TickerListOrderingsShareEntry(
    data: TickerListResponse,
    sortByVolume: seq<TickerSummary> -> seq<TickerSummary>,
    sortByName: seq<TickerSummary> -> seq<TickerSummary>)
    ensures TickerListKey(Volume) == TickerListKey(Name) == ["ticker-list"]
    ensures TickerListSelect(Volume, data, sortByVolume, sortByName) == sortByVolume(data.tickers)
    ensures TickerListSelect(Name, data, sortByVolume, sortByName) == sortByName(data.tickers)
  {
  }

  /** Before any ordering button is pressed, the list is the volume sort of the fetched tickers. */
  lemma InitialOrderIsVolume(
    data: TickerListResponse,
    sortByVolume: seq<TickerSummary> -> seq<TickerSummary>,
    sortByName: seq<TickerSummary> -> seq<TickerSummary>)
    ensures DEFAULT_SORT == Volume
    ensures TickerListSelect(DEFAULT_SORT, data, sortByVolume, sortByName) == sortByVolume(data.tickers)
  {
  }

  // ---------------------------------------------------------------------------
  // Currency list query
  // ---------------------------------------------------------------------------

  datatype Currency = Currency(symbol: string, name: string)

  datatype CurrencyListResponse = CurrencyListResponse(currencies: seq<Currency>)

  const CURRENCY_LIST_KEY: QueryKey := ["currency-list"]

  /**
   * `new Map(currencies.map(c => [c.symbol, c]))`: the entries are inserted
   * in list order, so a later record overwrites an earlier one with the same
   * symbol. The key set is exactly the set of symbols in the list.
   */
  function CurrencyMap(cs: seq<Currency>): (m: map<string, Currency>)
    ensures m.Keys == set c | c in cs :: c.symbol
    ensures forall k :: k in m ==> m[k] in cs && m[k].symbol == k
    decreases |cs|
  {
    if cs == [] then map[]
    else
      var init, last := cs[..|cs| - 1], cs[|cs| - 1];
      assert cs == init + [last];
      CurrencyMap(init)[last.symbol := last]
  }

  /** Each symbol maps to the LAST record in the list that carries it. */
  lemma {:induction false} CurrencyMapLastWins(cs: seq<Currency>, i: nat)
    requires i < |cs|
    requires forall j :: i < j < |cs| ==> cs[j].symbol != cs[i].symbol
    ensures cs[i].symbol in CurrencyMap(cs) && CurrencyMap(cs)[cs[i].symbol] == cs[i]
    decreases |cs|
  {
    if i < |cs| - 1 {
      var init := cs[..|cs| - 1];
      CurrencyMapLastWins(init, i);
    }
  }

  /** The currency list's `select`. */
  function CurrencyListSelect(data: CurrencyListResponse): (m: map<string, Currency>)
    ensures m.Keys == set c | c in data.currencies :: c.symbol
    ensures forall k :: k in m ==> m[k] in data.currencies && m[k].symbol == k
  {
    CurrencyMap(data.currencies)
  }

  /** `map?.get(ticker)?.name`: absent while the map is loading or when the symbol is unknown. */
  function CurrencyName(m: Option<map<string, Currency>>, ticker: string): (name: Option<string>)
    ensures name.Some? <==> m.Some? && ticker in m.value
    ensures name.Some? ==> name.value == m.value[ticker].name
  {
    if m.Some? && ticker in m.value then Some(m.value[ticker].name) else None
  }

  // ---------------------------------------------------------------------------
  // Saved ticker query
  // ---------------------------------------------------------------------------

  /** The key shared by the saved-ticker query and the save button's invalidation. */
  const SAVED_TICKER_LIST_KEY: QueryKey := ["saved-ticker-list"]

  /**
   * `new Set(list)`: the members are exactly the listed symbols, duplicates
   * collapsed, so the set is never larger than the list.
   */
  function SavedTickerSet(data: seq<string>): (s: set<string>)
    ensures forall x :: x in s <==> x in data
    ensures |s| <= |data|
    decreases |data|
  {
    if data == [] then {}
    else
      var init, last := data[..|data| - 1], data[|data| - 1];
      assert data == init + [last];
      SavedTickerSet(init) + {last}
  }

  predicate Distinct(data: seq<string>)
  {
    forall i, j :: 0 <= i < j < |data| ==> data[i] != data[j]
  }

  /** Appending a symbol keeps a list duplicate-free exactly when the symbol is new. */
  lemma DistinctSnoc(init: seq<string>, last: string)
    ensures Distinct(init + [last]) <==> Distinct(init) && last !in init
  {
    var data := init + [last];
    if last in init {
      var k :| 0 <= k < |init| && init[k] == last;
      assert data[k] == data[|init|];
    } else if !Distinct(init) {
      var i, j :| 0 <= i < j < |init| && init[i] == init[j];
      assert data[i] == data[j];
    } else {
      forall i, j | 0 <= i < j < |data| ensures data[i] != data[j] {
        assert data[i] == init[i];
      }
    }
  }

  /** The set is as large as the list exactly when the list has no duplicates. */
  lemma {:induction false} SavedTickerSetSizeIffDistinct(data: seq<string>)
    ensures |SavedTickerSet(data)| == |data| <==> Distinct(data)
    decreases |data|
  {
    if data != [] {
      var init, last := data[..|data| - 1], data[|data| - 1];
      assert data == init + [last];
      SavedTickerSetSizeIffDistinct(init);
      DistinctSnoc(init, last);
      if last !in init {
        assert |SavedTickerSet(init) + {last}| == |SavedTickerSet(init)| + 1;
      }
    }
  }

  /** The saved-ticker query's `select`. */
  function SavedTickerSetSelect(data: seq<string>): (s: set<string>)
    ensures forall x :: x in s <==> x in data
  {
    SavedTickerSet(data)
  }

  // ---------------------------------------------------------------------------
  // One row of the list
  // ---------------------------------------------------------------------------

  datatype TickerRow = TickerRow(
    ticker: string,
    diff: real,
    rate: Option<real>,
    status: IncreaseStatus,
    priceColor: string,
    name: Option<string>,
    isSaved: bool)

  /**
   * What a row shows for one ticker, given the currency map and the saved set
   * when they have loaded. The rate is absent for a zero opening price, where
   * JavaScript's division gives an infinite or NaN percentage.
   */
  function GetTickerRow(
    item: TickerSummary,
    currencyMap: Option<map<string, Currency>>,
    savedSet: Option<set<string>>): (row: TickerRow)
    ensures row.ticker == ToUpperCase(item.target_currency)
    ensures item.first + row.diff == item.last
    ensures row.rate.Some? <==> item.first != 0.0
    ensures row.rate.Some? ==> row.rate.value * item.first == row.diff * 100.0
    ensures row.status == Increase <==> item.last > item.first
    ensures row.status == Decrease <==> item.last < item.first
    ensures item.first > 0.0 ==> row.status == GetIncreaseStatus(row.rate.value)
    ensures row.priceColor == GetPriceColorByStatus(row.status)
    ensures row.name == CurrencyName(currencyMap, row.ticker)
    ensures row.isSaved <==> savedSet.Some? && row.ticker in savedSet.value
  {
    var ticker := ToUpperCase(item.target_currency);
    var diff := Diff(item.first, item.last);
    var rate := if item.first != 0.0 then Some(Rate(item.first, item.last)) else None;
    var status := GetIncreaseStatus(diff);
    var row := TickerRow(ticker, diff, rate, status, GetPriceColorByStatus(status),
                         CurrencyName(currencyMap, ticker), savedSet.Some? && ticker in savedSet.value);
    if item.first > 0.0 then
      RateSignMatchesDiff(item.first, item.last);
      row
    else
      row
  }

  /**
   * Once the saved list has loaded, a row is marked saved exactly when the
   * fetched list contains its upper-cased symbol.
   */
  lemma RowIsSavedIffListed(
    item: TickerSummary,
    currencyMap: Option<map<string, Currency>>,
    saved: seq<string>)
    ensures GetTickerRow(item, currencyMap, Some(SavedTickerSetSelect(saved))).isSaved
        <==> ToUpperCase(item.target_currency) in saved
  {
  }
}
