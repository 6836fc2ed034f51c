/**
 * The analysis the analyzer performs for one stock: three moving averages
 * and a Buy/Sell verdict, reported only when every step succeeds.
 */
module Analysis {
  import opened StockErrors
  import opened MovingAverages
  import opened Responses

  datatype Recommendation = Buy | Sell

  /** The three averages and the verdict drawn from the 20-entry one. */
  datatype Averages = Averages(ma20: real, ma50: real, ma200: real, recommendation: Recommendation)

  /** Everything the analyzer reports for a stock. */
  datatype Report = Report(symbol: string, name: string, currentPrice: real, averages: Averages)

  /** Buy exactly when the current price is strictly above the 20-entry average. */
  function Recommend(currentPrice: real, ma20: real): (r: Recommendation)
    ensures r == Buy <==> currentPrice > ma20
  {
    if currentPrice > ma20 then Buy else Sell
  }

  /**
   * The 20-, 50- and 200-entry averages in that order, the first failure
   * ending the analysis, then the verdict.
   */
  function Analyze(currentPrice: real, prices: seq<real>): (r: Result<Averages>)
    ensures r.Ok? <==> |prices| >= 200
    ensures r.Err? ==> r.error == NotEnoughDataPoints
    ensures r.Ok? ==>
      r.value.ma20 == Sum(Window(prices, 20)) / 20.0 &&
      r.value.ma50 == Sum(Window(prices, 50)) / 50.0 &&
      r.value.ma200 == Sum(Window(prices, 200)) / 200.0
    ensures r.Ok? ==> (r.value.recommendation == Buy <==> currentPrice > r.value.ma20)
  {
    match MovingAverage(prices, 20)
    case Err(e) => Err(e)
    case Ok(ma20) =>
      match MovingAverage(prices, 50)
      case Err(e) => Err(e)
      case Ok(ma50) =>
        match MovingAverage(prices, 200)
        case Err(e) => Err(e)
        case Ok(ma200) => Ok(Averages(ma20, ma50, ma200, Recommend(currentPrice, ma20)))
  }

  /**
   * Between 50 and 199 prices the 20- and 50-entry averages exist, yet the
   * analysis reports nothing, because the 200-entry one fails.
   */
  lemma AllOrNothing(currentPrice: real, prices: seq<real>)
    requires 50 <= |prices| < 200
    ensures MovingAverage(prices, 20).Ok? && MovingAverage(prices, 50).Ok?
    ensures Analyze(currentPrice, prices) == Err(NotEnoughDataPoints)
  {
  }

  /** A current price equal to the 20-entry average gives Sell. */
  lemma EqualPriceSells(prices: seq<real>)
    requires |prices| >= 200
    ensures Analyze(Sum(Window(prices, 20)) / 20.0, prices).value.recommendation == Sell
  {
  }

  /**
   * Over a flat history every average is that price, and the verdict
   * compares the current price with it.
   */
  lemma FlatHistory(currentPrice: real, prices: seq<real>, c: real)
    requires |prices| >= 200
    requires forall i :: |prices| - 200 <= i < |prices| ==> prices[i] == c
    ensures Analyze(currentPrice, prices) ==
      Ok(Averages(c, c, c, if currentPrice > c then Buy else Sell))
  {
    ConstantWindow(prices, 20, c);
    ConstantWindow(prices, 50, c);
    ConstantWindow(prices, 200, c);
  }

  /**
   * Entries in front of the price list change nothing: with the provider's
   * newest-first series, the newest days never reach any of the averages.
   */
  lemma NewerDaysIgnored(currentPrice: real, newer: seq<real>, prices: seq<real>)
    requires |prices| >= 200
    ensures Analyze(currentPrice, newer + prices) == Analyze(currentPrice, prices)
  {
    NewerEntriesIgnored(newer, prices, 20);
    NewerEntriesIgnored(newer, prices, 50);
    NewerEntriesIgnored(newer, prices, 200);
  }

  /**
   * The whole analysis of a symbol, from its OVERVIEW response, the daily
   * response fetched for the quote and the daily response fetched for the
   * history: the quote first, then the history, then the averages.
   */
  function AnalysisReport(symbol: string, overview: Overview, quoteDaily: DailyResponse,
                          historyDaily: DailyResponse): (r: Result<Report>)
    ensures GetStockInfo(overview, quoteDaily).Err? ==>
      r == Err(GetStockInfo(overview, quoteDaily).error)
    ensures INFORMATION_KEY in overview ==> r == Err(RateLimitExceeded)
    ensures GetStockInfo(overview, quoteDaily).Ok? && HistoricalPrices(historyDaily).Err? ==>
      r == Err(HistoricalPrices(historyDaily).error)
    ensures (GetStockInfo(overview, quoteDaily).Ok? && HistoricalPrices(historyDaily).Ok? &&
             |HistoricalPrices(historyDaily).value| < 200) ==>
      r == Err(NotEnoughDataPoints)
    ensures r.Ok? <==>
      GetStockInfo(overview, quoteDaily).Ok? && HistoricalPrices(historyDaily).Ok? &&
      |HistoricalPrices(historyDaily).value| >= 200
    ensures r.Ok? ==>
      r.value.symbol == symbol &&
      r.value.name == overview[NAME_KEY] &&
      r.value.currentPrice == GetStockInfo(overview, quoteDaily).value.currentPrice
    ensures r.Ok? ==>
      r.value.averages == Analyze(r.value.currentPrice, HistoricalPrices(historyDaily).value).value
    ensures r.Ok? ==>
      r.value.averages.ma20 == Sum(Window(HistoricalPrices(historyDaily).value, 20)) / 20.0
    ensures r.Ok? ==>
      (r.value.averages.recommendation == Buy <==> r.value.currentPrice > r.value.averages.ma20)
  {
    match GetStockInfo(overview, quoteDaily)
    case Err(e) => Err(e)
    case Ok(info) =>
      match HistoricalPrices(historyDaily)
      case Err(e) => Err(e)
      case Ok(prices) =>
        match Analyze(info.currentPrice, prices)
        case Err(e) => Err(e)
        case Ok(averages) => Ok(Report(symbol, info.name, info.currentPrice, averages))
  }

  /** The analysis as the analyzer runs it, one step after another. */
  method PerformAnalysis(symbol: string, overview: Overview, quoteDaily: DailyResponse,
                         historyDaily: DailyResponse) returns (r: Result<Report>)
    ensures r == AnalysisReport(symbol, overview, quoteDaily, historyDaily)
  {
    var info := GetStockInfo(overview, quoteDaily);
    if info.Err? {
      return Err(info.error);
    }
    var prices := GetHistoricalPrices(historyDaily);
    if prices.Err? {
      return Err(prices.error);
    }
    var ma20 := CalculateMovingAverage(prices.value, 20);
    if ma20.Err? {
      return Err(ma20.error);
    }
    var ma50 := CalculateMovingAverage(prices.value, 50);
    if ma50.Err? {
      return Err(ma50.error);
    }
    var ma200 := CalculateMovingAverage(prices.value, 200);
    if ma200.Err? {
      return Err(ma200.error);
    }
    var currentPrice := info.value.currentPrice;
    var averages := Averages(ma20.value, ma50.value, ma200.value, Recommend(currentPrice, ma20.value));
    return Ok(Report(symbol, info.value.name, currentPrice, averages));
  }
}
