/** The failures the analyzer raises as exceptions, as explicit values. */
module StockErrors {

  /** One kind per exception the analyzer can raise on its way to a recommendation. */
  datatype Error =
    | RateLimitExceeded     // the provider answered with an "Information" notice
    | NameNotFound          // the OVERVIEW response has no "Name"
    | TimeSeriesNotFound    // the daily response has no "Time Series (Daily)"
    | NoLatestEntry         // the daily series has no first entry to navigate to
    | ClosingPriceNotFound  // the first entry of the daily series has no "4. close"
    | NotEnoughDataPoints   // fewer prices than the moving-average period

  /** Either a value or the error that stopped the computation. */
  datatype Result<+T> = Ok(value: T) | Err(error: Error)
}
