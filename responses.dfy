/**
 * The checks the analyzer makes on the provider's JSON responses and the
 * prices it extracts from them. A response is a key-to-value map; the daily
 * series is kept in the order the provider sends it.
 */
module Responses {
  import opened StockErrors

  const INFORMATION_KEY := "Information"
  const NAME_KEY := "Name"
  const DAILY_SERIES_KEY := "Time Series (Daily)"
  const CLOSE_KEY := "4. close"

  /** One trading day of the daily series: its date and its numeric fields, already parsed. */
  datatype Day = Day(date: string, fields: map<string, real>)

  /** A value of the daily response: plain text, or the object of trading days in series order. */
  datatype Value = Text(text: string) | Series(days: seq<Day>)

  /** The OVERVIEW response: a flat object of text fields. */
  type Overview = map<string, string>

  /** The TIME_SERIES_DAILY response. */
  type DailyResponse = map<string, Value>

  /** What the analyzer learns about a stock before looking at its history. */
  datatype StockInfo = StockInfo(name: string, currentPrice: real)

  predicate HasClose(d: Day)
  {
    CLOSE_KEY in d.fields
  }

  function CloseOf(d: Day): real
    requires HasClose(d)
  {
    d.fields[CLOSE_KEY]
  }

  /**
   * The check every response goes through: a rate-limit notice wins over
   * everything else, then the key the caller needs must be present.
   */
  function Classify<V>(json: map<string, V>, required: string, missing: Error): (r: Result<V>)
    ensures INFORMATION_KEY in json ==> r == Err(RateLimitExceeded)
    ensures r.Ok? <==> INFORMATION_KEY !in json && required in json
    ensures r.Ok? ==> r.value == json[required]
    ensures INFORMATION_KEY !in json && required !in json ==> r == Err(missing)
  {
    if INFORMATION_KEY in json then Err(RateLimitExceeded)
    else if required !in json then Err(missing)
    else Ok(json[required])
  }

  /** The entries the analyzer walks over in a series value; text has none. */
  function Entries(v: Value): seq<Day>
  {
    match v
    case Text(_) => []
    case Series(days) => days
  }

  /**
   * The current price: the close of the first entry of the series. A series
   * given as text or with no entry has no first entry to navigate to.
   */
  function LatestClose(series: Value): (r: Result<real>)
    ensures r.Ok? <==> Entries(series) != [] && HasClose(Entries(series)[0])
    ensures r.Ok? ==> r.value == CloseOf(Entries(series)[0])
    ensures Entries(series) == [] ==> r == Err(NoLatestEntry)
    ensures r.Err? && Entries(series) != [] ==> r.error == ClosingPriceNotFound
  {
    match series
    case Text(_) => Err(NoLatestEntry)
    case Series(days) =>
      if days == [] then Err(NoLatestEntry)
      else if !HasClose(days[0]) then Err(ClosingPriceNotFound)
      else Ok(CloseOf(days[0]))
  }

  /**
   * Name and current price of a stock, from its OVERVIEW response and a
   * TIME_SERIES_DAILY response fetched after it.
   */
  function GetStockInfo(overview: Overview, daily: DailyResponse): (r: Result<StockInfo>)
    ensures INFORMATION_KEY in overview ==> r == Err(RateLimitExceeded)
    ensures INFORMATION_KEY !in overview && NAME_KEY !in overview ==> r == Err(NameNotFound)
    ensures INFORMATION_KEY !in overview && NAME_KEY in overview && INFORMATION_KEY in daily ==>
      r == Err(RateLimitExceeded)
    ensures (INFORMATION_KEY !in overview && NAME_KEY in overview &&
             INFORMATION_KEY !in daily && DAILY_SERIES_KEY !in daily) ==>
      r == Err(TimeSeriesNotFound)
    ensures (INFORMATION_KEY !in overview && NAME_KEY in overview &&
             INFORMATION_KEY !in daily && DAILY_SERIES_KEY in daily &&
             LatestClose(daily[DAILY_SERIES_KEY]).Err?) ==>
      r == Err(LatestClose(daily[DAILY_SERIES_KEY]).error)
    ensures r.Ok? <==>
      INFORMATION_KEY !in overview && NAME_KEY in overview &&
      INFORMATION_KEY !in daily && DAILY_SERIES_KEY in daily &&
      LatestClose(daily[DAILY_SERIES_KEY]).Ok?
    ensures r.Ok? ==>
      r.value.name == overview[NAME_KEY] &&
      r.value.currentPrice == CloseOf(Entries(daily[DAILY_SERIES_KEY])[0])
  {
    match Classify(overview, NAME_KEY, NameNotFound)
    case Err(e) => Err(e)
    case Ok(name) =>
      match Classify(daily, DAILY_SERIES_KEY, TimeSeriesNotFound)
      case Err(e) => Err(e)
      case Ok(series) =>
        match LatestClose(series)
        case Err(e) => Err(e)
        case Ok(price) => Ok(StockInfo(name, price))
  }

  /** The closes of the entries that have one, in series order. */
  function Closes(days: seq<Day>): (prices: seq<real>)
    ensures |prices| <= |days|
  {
    if days == [] then []
    else
      var last := days[|days| - 1];
      Closes(days[..|days| - 1]) + (if HasClose(last) then [CloseOf(last)] else [])
  }

  /** The historical price list of a TIME_SERIES_DAILY response. */
  function HistoricalPrices(daily: DailyResponse): (r: Result<seq<real>>)
    ensures INFORMATION_KEY in daily ==> r == Err(RateLimitExceeded)
    ensures INFORMATION_KEY !in daily && DAILY_SERIES_KEY !in daily ==> r == Err(TimeSeriesNotFound)
    ensures r.Ok? <==> INFORMATION_KEY !in daily && DAILY_SERIES_KEY in daily
    ensures r.Ok? ==> r.value == Closes(Entries(daily[DAILY_SERIES_KEY]))
    ensures r.Ok? ==> |r.value| <= |Entries(daily[DAILY_SERIES_KEY])|
  {
    match Classify(daily, DAILY_SERIES_KEY, TimeSeriesNotFound)
    case Err(e) => Err(e)
    case Ok(series) => Ok(Closes(Entries(series)))
  }

  /** The extraction as the analyzer runs it: one pass that appends each close it finds. */
  method GetHistoricalPrices(daily: DailyResponse) returns (r: Result<seq<real>>)
    ensures r == HistoricalPrices(daily)
  {
    var checked := Classify(daily, DAILY_SERIES_KEY, TimeSeriesNotFound);
    if checked.Err? {
      return Err(checked.error);
    }
    var days := Entries(checked.value);
    var prices: seq<real> := [];
    for i := 0 to |days|
      invariant prices == Closes(days[..i])
    {
      assert days[..i + 1][..i] == days[..i];
      if HasClose(days[i]) {
        prices := prices + [CloseOf(days[i])];
      }
    }
    assert days[..|days|] == days;
    return Ok(prices);
  }

  /** Extraction distributes over concatenation: series order is kept. */
  lemma {:induction false} ClosesConcat(a: seq<Day>, b: seq<Day>)
    ensures Closes(a + b) == Closes(a) + Closes(b)
  {
    if b == [] {
      assert a + b == a;
    } else {
      var front := b[..|b| - 1];
      ClosesConcat(a, front);
      assert (a + b)[..|a + b| - 1] == a + front;
    }
  }

  /** A price is extracted exactly when some entry carries it as its close. */
  lemma {:induction false} ClosesMembership(days: seq<Day>, x: real)
    ensures x in Closes(days) <==>
      exists i :: 0 <= i < |days| && HasClose(days[i]) && CloseOf(days[i]) == x
  {
    if days != [] {
      var front := days[..|days| - 1];
      ClosesMembership(front, x);
      if x in Closes(days) && x !in Closes(front) {
        assert HasClose(days[|days| - 1]) && CloseOf(days[|days| - 1]) == x;
      }
      if exists i :: 0 <= i < |days| && HasClose(days[i]) && CloseOf(days[i]) == x {
        var i :| 0 <= i < |days| && HasClose(days[i]) && CloseOf(days[i]) == x;
        if i < |days| - 1 {
          assert front[i] == days[i];
        }
      }
    }
  }

  /** When every entry has a close, the list holds one close per entry, entry by entry. */
  lemma {:induction false} ClosesAllPresent(days: seq<Day>)
    requires forall i :: 0 <= i < |days| ==> HasClose(days[i])
    ensures |Closes(days)| == |days|
    ensures forall i :: 0 <= i < |days| ==> Closes(days)[i] == CloseOf(days[i])
  {
    if days != [] {
      ClosesAllPresent(days[..|days| - 1]);
    }
  }

  /**
   * The first entry is treated differently by the two readers: its close,
   * when present, heads the historical list; when absent, the historical
   * list skips it.
   */
  lemma FirstEntry(days: seq<Day>)
    requires days != []
    ensures HasClose(days[0]) ==> Closes(days) != [] && Closes(days)[0] == CloseOf(days[0])
    ensures !HasClose(days[0]) ==> Closes(days) == Closes(days[1..])
  {
    assert days == [days[0]] + days[1..];
    ClosesConcat([days[0]], days[1..]);
    assert [days[0]][..0] == [];
  }

  /** Read from the same daily response, the current price is the first historical price. */
  lemma QuoteHeadsHistory(overview: Overview, daily: DailyResponse)
    requires GetStockInfo(overview, daily).Ok?
    ensures HistoricalPrices(daily).Ok? && HistoricalPrices(daily).value != []
    ensures HistoricalPrices(daily).value[0] == GetStockInfo(overview, daily).value.currentPrice
  {
    FirstEntry(Entries(daily[DAILY_SERIES_KEY]));
  }

  /**
   * A first entry without a close fails the quote, while the historical list
   * of the same response still succeeds and leaves that entry out.
   */
  lemma MissingFirstCloseFailsQuoteOnly(overview: Overview, daily: DailyResponse)
    requires INFORMATION_KEY !in overview && NAME_KEY in overview
    requires INFORMATION_KEY !in daily && DAILY_SERIES_KEY in daily
    requires Entries(daily[DAILY_SERIES_KEY]) != []
    requires !HasClose(Entries(daily[DAILY_SERIES_KEY])[0])
    ensures GetStockInfo(overview, daily) == Err(ClosingPriceNotFound)
    ensures HistoricalPrices(daily) == Ok(Closes(Entries(daily[DAILY_SERIES_KEY])[1..]))
  {
    FirstEntry(Entries(daily[DAILY_SERIES_KEY]));
  }
}
