/** The stock data service: `/top_stocks` and `/bottom_stocks` select one list
    from the upstream top-gainers/losers report, and `/daily_open_close`
    reports the open and close of the first day listed in the upstream daily
    time series. Each handler makes at most one upstream request; the
    request's outcome is an input of the model. */
module Stocks {
  import opened Common

  const QueryBase := "https://www.alphavantage.co/query?function="

  const MoversFunction := "TOP_GAINERS_LOSERS"
  const DailyFunction := "TIME_SERIES_DAILY"
  const DefaultSymbol := "AAPL"

  const InvalidCategory := "Invalid stock_category specified"
  const NoData := "No data available"
  const ErrorMessageKey := "Error Message"
  const SeriesKey := "Time Series (Daily)"
  const OpenKey := "1. open"
  const CloseKey := "4. close"

  /** `f'...query?function={function}&apikey={api_key}'`; the service's key is a parameter. */
  function MoversUrl(apiKey: string, function_: string): string {
    QueryBase + function_ + "&apikey=" + apiKey
  }

  /** `f'...query?function={function}&symbol={symbol}&apikey={api_key}'` */
  function DailyUrl(apiKey: string, symbol: string): string {
    QueryBase + DailyFunction + "&symbol=" + symbol + "&apikey=" + apiKey
  }

  /** The response member a category reads: `top` reads the gainers, `bottom`
      the losers, and nothing else is a category. */
  function ListKey(category: string): (key: Option<string>)
    ensures key.Some? <==> category == "top" || category == "bottom"
    ensures category == "top" ==> key == Some("top_gainers")
    ensures category == "bottom" ==> key == Some("top_losers")
  {
    if category == "top" then Some("top_gainers")
    else if category == "bottom" then Some("top_losers")
    else None
  }

  /** What a successful request's body turns into: an embedded 'Error Message'
      first, then the selected list, which must be present and not null. A
      body that is not a JSON object makes the `in` test or `.get` raise. */
  function SelectList(data: Json, key: string): Response<Json> {
    match data
    case JObject(members) =>
      if HasKey(members, ErrorMessageKey) then Err(400, Embedded(Lookup(members, ErrorMessageKey)))
      else
        (match Get(members, key)
         case None => Err(404, Said(NoData))
         case Some(JNull) => Err(404, Said(NoData))
         case Some(list) => Ok(list))
    case _ => Err(500, Unexpected(WrongType))
  }

  /** `get_stock_performance(stock_category)` */
  function GetStockPerformance(apiKey: string, category: string, upstream: FetchOutcome): (e: Exchange<Json>)
    // an unknown category is answered before any request is made
    ensures e.request.None? <==> ListKey(category).None?
    ensures e.request.None? ==> e.response == Err(400, Said(InvalidCategory))
    ensures e.request.Some? ==> e.request.value == MoversUrl(apiKey, MoversFunction)
    // a request that fails is answered as every failed request is
    ensures e.request.Some? && !upstream.Received? ==> e.response == FetchFailure(upstream)
    // a body that is not a JSON object makes the handler raise
    ensures e.request.Some? && upstream.Received? && !upstream.body.JObject? ==> e.response == Err(500, Unexpected(WrongType))
    // an embedded error message wins over the list, whatever else the body holds
    ensures e.request.Some? && upstream.Received? && upstream.body.JObject?
            && HasKey(upstream.body.members, ErrorMessageKey)
            ==> e.response == Err(400, Embedded(Lookup(upstream.body.members, ErrorMessageKey)))
    // the selected list is returned unchanged
    ensures e.response.Ok? ==>
      && upstream.Received? && upstream.body.JObject?
      && ListKey(category).Some?
      && !HasKey(upstream.body.members, ErrorMessageKey)
      && HasKey(upstream.body.members, ListKey(category).value)
      && e.response.payload == Lookup(upstream.body.members, ListKey(category).value)
      && e.response.payload != JNull
    ensures e.response.Err? && e.response.status == 404 ==> e.response.error == Said(NoData)
  {
    match ListKey(category)
    case None => Exchange(None, Err(400, Said(InvalidCategory)))
    case Some(key) =>
      var response :=
        match upstream
        case Received(data) => SelectList(data, key)
        case _ => FetchFailure(upstream);
      Exchange(Some(MoversUrl(apiKey, MoversFunction)), response)
  }

  /** The two categories read two different members of the same report: the
      losers never come back for `top`, nor the gainers for `bottom`. */
  lemma CategoriesReadDisjointLists(apiKey: string, members: seq<(string, Json)>)
    requires !HasKey(members, ErrorMessageKey)
    ensures GetStockPerformance(apiKey, "top", Received(JObject(members))).response ==
      (if Get(members, "top_gainers").None? || Get(members, "top_gainers") == Some(JNull)
       then Err(404, Said(NoData)) else Ok(Lookup(members, "top_gainers")))
    ensures GetStockPerformance(apiKey, "bottom", Received(JObject(members))).response ==
      (if Get(members, "top_losers").None? || Get(members, "top_losers") == Some(JNull)
       then Err(404, Said(NoData)) else Ok(Lookup(members, "top_losers")))
  {
  }

  /** A missing or null list is 404 "No data available", even when the other list is there. */
  lemma MissingListIsNotFound(apiKey: string, category: string, members: seq<(string, Json)>)
    requires ListKey(category).Some?
    requires !HasKey(members, ErrorMessageKey)
    requires Get(members, ListKey(category).value) in {None, Some(JNull)}
    ensures GetStockPerformance(apiKey, category, Received(JObject(members))).response == Err(404, Said(NoData))
  {
  }

  /** The `/daily_open_close` payload. `open` and `close` are whatever JSON the
      day's entry holds under "1. open" and "4. close". */
  datatype DailyQuote = DailyQuote(symbol: string, date: string, open: Json, close: Json)

  /** The day entry `series[date]` and its two fields, read as the handler
      reads them: `recent_data['1. open']` and then `recent_data['4. close']`. */
  function Project(symbol: string, date: string, day: Json): Response<DailyQuote> {
    match day
    case JObject(fields) =>
      if !HasKey(fields, OpenKey) then Err(500, Unexpected(MissingKey(OpenKey)))
      else if !HasKey(fields, CloseKey) then Err(500, Unexpected(MissingKey(CloseKey)))
      else Ok(DailyQuote(symbol, date, Lookup(fields, OpenKey), Lookup(fields, CloseKey)))
    case _ => Err(500, Unexpected(WrongType))
  }

  /** The body of a successful daily request: the first key of the
      'Time Series (Daily)' object is taken as the most recent date. */
  function ExtractQuote(symbol: string, data: Json): Response<DailyQuote> {
    match data
    case JObject(members) =>
      if !HasKey(members, SeriesKey) then Err(500, Unexpected(MissingKey(SeriesKey)))
      else
        (match Lookup(members, SeriesKey)
         case JObject(series) =>
           if series == [] then Err(500, Unexpected(IndexOutOfRange))
           else
             var date := series[0].0;
             assert HasKey(series, date) by { assert series[0].0 == date; }
             Project(symbol, date, Lookup(series, date))
         case _ => Err(500, Unexpected(WrongType)))
    case _ => Err(500, Unexpected(WrongType))
  }

  /** True when `data` is an object holding a non-empty 'Time Series (Daily)'
      object whose first entry has both fields. */
  predicate HasFirstDay(data: Json) {
    && data.JObject?
    && HasKey(data.members, SeriesKey)
    && Lookup(data.members, SeriesKey).JObject?
    && Lookup(data.members, SeriesKey).members != []
    && var series := Lookup(data.members, SeriesKey).members;
       assert HasKey(series, series[0].0) by { assert series[0].0 == series[0].0; }
       var day := Lookup(series, series[0].0);
       day.JObject? && HasKey(day.members, OpenKey) && HasKey(day.members, CloseKey)
  }

  /** `get_daily_open_close()` with the `symbol` query parameter. */
  function GetDailyOpenClose(apiKey: string, symbolParam: Option<string>, upstream: FetchOutcome): (e: Exchange<DailyQuote>)
    // the request is always made, for the given symbol or AAPL when none is given
    ensures e.request == Some(DailyUrl(apiKey, symbolParam.GetOr(DefaultSymbol)))
    // every failure is a 500
    ensures e.response.Err? ==> e.response.status == 500
    // success exactly when the request succeeded and its body has a first day with both fields
    ensures e.response.Ok? <==> upstream.Received? && HasFirstDay(upstream.body)
    // the date is the FIRST key of the series, the prices are that day's fields, the symbol is echoed
    ensures e.response.Ok? ==>
      var series := Lookup(upstream.body.members, SeriesKey).members;
      var date := series[0].0;
      && e.response.payload.symbol == symbolParam.GetOr(DefaultSymbol)
      && e.response.payload.date == date
      && HasKey(series, date)
      && Lookup(series, date).JObject?
      && e.response.payload.open == Lookup(Lookup(series, date).members, OpenKey)
      && e.response.payload.close == Lookup(Lookup(series, date).members, CloseKey)
  {
    var symbol := symbolParam.GetOr(DefaultSymbol);
    var response :=
      match upstream
      case Received(data) => ExtractQuote(symbol, data)
      case _ => FetchFailure(upstream);
    Exchange(Some(DailyUrl(apiKey, symbol)), response)
  }

  /** The worked example: with days listed newest first, the newest day is reported. */
  lemma DailyExample(apiKey: string)
    ensures
      var day2 := JObject([("1. open", JString("100.00")), ("4. close", JString("101.50"))]);
      var day1 := JObject([("1. open", JString("99.00")), ("4. close", JString("99.50"))]);
      var body := JObject([(SeriesKey, JObject([("2024-01-02", day2), ("2024-01-01", day1)]))]);
      GetDailyOpenClose(apiKey, Some("AAPL"), Received(body)).response
        == Ok(DailyQuote("AAPL", "2024-01-02", JString("100.00"), JString("101.50")))
  {
    var day2 := JObject([("1. open", JString("100.00")), ("4. close", JString("101.50"))]);
    var day1 := JObject([("1. open", JString("99.00")), ("4. close", JString("99.50"))]);
    var series := [("2024-01-02", day2), ("2024-01-01", day1)];
    var body := JObject([(SeriesKey, JObject(series))]);
    assert body.members[0].0 == SeriesKey;
    assert LastIndex(body.members, SeriesKey) == 0;
    assert series[0].0 == "2024-01-02";
    assert LastIndex(series, "2024-01-02") == 0;
    assert day2.members[0].0 == OpenKey && day2.members[1].0 == CloseKey;
    assert LastIndex(day2.members, OpenKey) == 0;
    assert LastIndex(day2.members, CloseKey) == 1;
  }

  /** The date is the first key, not the latest: with days listed oldest
      first, the oldest day is reported. */
  lemma FirstKeyNotLatest(apiKey: string)
    ensures
      var day := JObject([("1. open", JString("1")), ("4. close", JString("2"))]);
      var body := JObject([(SeriesKey, JObject([("2024-01-01", day), ("2024-01-02", day)]))]);
      GetDailyOpenClose(apiKey, None, Received(body)).response
        == Ok(DailyQuote("AAPL", "2024-01-01", JString("1"), JString("2")))
  {
    var day := JObject([("1. open", JString("1")), ("4. close", JString("2"))]);
    var series := [("2024-01-01", day), ("2024-01-02", day)];
    var body := JObject([(SeriesKey, JObject(series))]);
    assert body.members[0].0 == SeriesKey;
    assert LastIndex(body.members, SeriesKey) == 0;
    assert series[0].0 == "2024-01-01";
    assert LastIndex(series, "2024-01-01") == 0;
    assert day.members[0].0 == OpenKey && day.members[1].0 == CloseKey;
    assert LastIndex(day.members, OpenKey) == 0;
    assert LastIndex(day.members, CloseKey) == 1;
  }
}
