# StockInsight services and client, modelled in Dafny

StockInsight is a small set of Flask services and one interactive command-line client:

- **Watchlist service** (`microservice_for_joshua.py`). `add_to_watchlist` checks the posted symbol and price. It then asks for the symbol's current price. Only after that does it append one line `"{symbol} {price}\n"` to the watchlist file. `view_watchlist` reads the file back into (symbol, price) pairs. The file is the only persistent state in the system.
- **Stock service** (`app.py`). `get_stock_performance` maps the `top`/`bottom` category to a list of the Alpha Vantage movers report. It checks, in order: an invalid category, an embedded `Error Message`, and a missing list. `get_daily_open_close` reports the first day of the `Time Series (Daily)` object with that day's `1. open` and `4. close`.
- **Places service** (`microservice_for_diana.py`). `search_places` and `search_nearby` apply defaults and check the required parameters before any request. They build the Google Places URL by plain string concatenation and relay the body they get back.
- **CLI client** (`stock_insight_cli.py`). `run` reads a command per line and normalises it with `strip().lower()`. It dispatches the command until `exit`. The movers commands show at most the first five entries. The daily command reads a symbol and normalises it with `strip().upper()`.

The project has these modules:

- `Common` (common.dfy) holds the shared values:
  - optional parameters;
  - a parsed JSON document, read with Python `dict` semantics (a repeated key keeps its last value);
  - the outcome of one outbound request;
  - the status and body a handler returns.
- `Text` (text.dfy) holds the Python string built-ins the code relies on: `strip`, `split`, `readlines`, and ASCII `lower`/`upper`.
- `Watchlist` (watchlist.dfy) models the file as a class with two fields: whether the file exists, and its text. `Add` mutates the class; `View` reads it.
- `Stocks` (stocks.dfy) and `Places` (places.dfy) model the handlers as pure functions of their parameters and of the outcome of the single request each one makes.
- `Cli` (cli.dfy) models the client.
  - Its input is the sequence of lines typed.
  - Its output is a sequence of printed events.
  - The local service is an oracle `fetch(history, request)` that answers each request, knowing the requests made before it.
  - `WhileTrue` is the `while True` loop as a function of any loop body that keeps the laws every pass obeys. `Loop` is `WhileTrue` with `Dispatch` as its body. `Run` is the imperative loop, proved to produce the same trace as `Session`: the banner, then `Loop`.
- The stock service's Alpha Vantage key and the places service's Google key are `apiKey` parameters rather than constants.

## Model

| member | source | states |
|---|---|---|
| Common.FetchFailure | app.py:116-121 | both failed-request branches answer 500; the body is "HTTP error occurred" exactly for an HTTP status failure |
| Common.Relay | microservice_for_diana.py:49-57 | a received body is returned unchanged with status 200; every failed request is a 500 |
| Common.LastIndex | app.py:104-108 | a dict read of a JSON object takes the last member with that key: the index holds the key and no later member does |
| Text.Strip | microservice_for_joshua.py:41 | the result is the slice of the input that starts at its first non-whitespace character; it neither starts nor ends with whitespace, and every character outside the slice is whitespace |
| Text.StripIdempotent | stock_insight_cli.py:84 | stripping an already stripped string changes nothing |
| Text.Split | microservice_for_joshua.py:41 | every piece of `split()` is a non-empty run without whitespace |
| Text.SplitStrip | microservice_for_joshua.py:41 | `strip().split()` yields the same tokens as `split()` |
| Text.Lines | microservice_for_joshua.py:41 | `readlines()` gives no lines exactly for empty text |
| Text.LinesAppend | microservice_for_joshua.py:24-25 | text appended after a newline-terminated file adds its own lines after the old ones, leaving them as they were |
| Text.Lower | stock_insight_cli.py:84 | same length, no upper-case letter is left, upper-case letters become their lower-case partner, and every other character is kept |
| Text.Upper | stock_insight_cli.py:42 | same length, no lower-case letter is left, lower-case letters become their upper-case partner, and every other character is kept |
| Watchlist.DecideAdd | microservice_for_joshua.py:8-33 | a line is written exactly when the reply is a success, and success means both fields are truthy and a price was found. The line is the caller's symbol and price. The reply carries the looked-up price. A missing or falsy field in an object body is 400 (checked before the price is asked for), and no other failure is 400: no price is 500 "Failed to fetch current stock price", and a lookup that raises or a body that is not an object is 500 |
| Watchlist.WatchlistFile.constructor | microservice_for_joshua.py:20 | the file is absent or holds the given text |
| Watchlist.WatchlistFile.Add | microservice_for_joshua.py:15-31 | the reply is DecideAdd's. On success the file exists and its text is the old text plus exactly one line; on every failure nothing changes (no partial write). For storable fields, when the old text is newline-terminated (or empty) and its old view succeeds, the view afterwards is the old view plus the new entry |
| Watchlist.TokenizeLines | microservice_for_joshua.py:41 | one token list per line, in order, each `line.strip().split()` |
| Watchlist.Entries | microservice_for_joshua.py:43 | succeeds iff every line has at least two tokens, giving one entry per line in order built from the first two tokens; otherwise 500 IndexError |
| Watchlist.ParseWatchlist | microservice_for_joshua.py:35-49 | an absent or empty file is an empty watchlist, not an error; the only failure is the 500 IndexError, and only for an existing file |
| Watchlist.ViewNeedsTwoTokens | microservice_for_joshua.py:39-44 | an existing file reads back exactly when every one of its lines holds at least two tokens |
| Watchlist.ViewReadsLines | microservice_for_joshua.py:39-44 | a file that reads back gives one entry per line, in order: that line's first two tokens |
| Watchlist.WatchlistFile.View | microservice_for_joshua.py:35-49 | the view of the file as it is now: an absent file is an empty list, the only failure is the 500 IndexError of an existing file, and a successful view has one entry per line |
| Watchlist.Serialise | microservice_for_joshua.py:22-25 | the text written by successive adds ends with a newline and is empty only when nothing was added |
| Watchlist.AppendThenView | microservice_for_joshua.py:19-43 | appending the line of a storable entry to a newline-terminated (or empty) file whose view succeeds makes the view return the old entries followed by that entry |
| Watchlist.RoundTrip | microservice_for_joshua.py:19-43 | the view of the file written by any sequence of adds of whitespace-free, non-empty symbols and prices returns exactly those entries in insertion order |
| Watchlist.ExtraTokensIgnored | microservice_for_joshua.py:41-43 | tokens after the second on a line are dropped |
| Watchlist.ShortLineFails | microservice_for_joshua.py:41-49 | any line with fewer than two tokens makes the whole view a 500 |
| Stocks.ListKey | app.py:85-93 | only `top` and `bottom` are categories; they select `top_gainers` and `top_losers` |
| Stocks.GetStockPerformance | app.py:74-121 | an invalid category is 400 before any request; otherwise the movers URL with the given key is requested. A failed request is answered as FetchFailure answers it (500). A body that is not a JSON object is a 500. An embedded `Error Message` wins with 400 carrying that message. A success returns the selected list unchanged, and only when there is no error message and the list is present and not null. A 404 is "No data available" |
| Stocks.CategoriesReadDisjointLists | app.py:85-115 | for one report, `top` answers the gainers and `bottom` the losers (or 404 when that list is missing or null) |
| Stocks.MissingListIsNotFound | app.py:108-112 | a missing or null selected list is 404, whatever the other list holds |
| Stocks.GetDailyOpenClose | app.py:32-67 | the request is for the given symbol, AAPL by default. Success holds exactly when the body has a series whose first day carries both fields. The date is the series' first key, the prices come from that day, and the symbol is echoed. Every failure is 500 |
| Stocks.DailyExample | app.py:50-61 | on a newest-first series the newest day is reported |
| Stocks.FirstKeyNotLatest | app.py:50-51 | on an oldest-first series the oldest day is reported: the date is the first key, not the latest |
| Places.SearchPlaces | microservice_for_diana.py:39-57 | only an explicitly empty query is refused (400, no request); an absent query searches for the default text; the URL carries the query as given; the body is relayed |
| Places.SearchNearby | microservice_for_diana.py:59-100 | no request is made exactly when lat or lng is missing or empty (400). Radius and type default to 5000 and veterinary_care only when absent. The URL is built from exactly those values. The body is relayed |
| Places.Params | microservice_for_diana.py:47 | one name=value pair per piece of the query, in order, each split at its first `=` |
| Places.TextSearchParams | microservice_for_diana.py:47 | for a plain query and key, the text-search URL splits at `&` and `=` into exactly `query`, verbatim, then `key`; plain values carry no `%` or `+`, so decoding them changes nothing |
| Places.NearbyUrlJoins | microservice_for_diana.py:87 | the nearby URL is its path, `?`, then `location`, `radius`, `type` and `key` joined by `&` in that order |
| Places.NearbyParams | microservice_for_diana.py:87 | for plain values, the nearby URL splits at `&` and `=` into `location=lat,lng`, `radius`, `type` and `key`, in that order |
| Places.JoinParamsReadsBack | microservice_for_diana.py:87 | name=value pairs joined with `&` split back into the same pairs when no name or value holds `&`, `#`, `%` or `+` and no name holds `=` |
| Places.AmpersandSplitsQuery | microservice_for_diana.py:47 | because the query is not encoded, an `&` in it ends the query: the rest arrives as a separate parameter |
| Places.CatsAndDogs | microservice_for_diana.py:47 | searching for `cats&dogs` sends the query `cats` and a stray parameter `dogs` |
| Cli.NormaliseIdempotent | stock_insight_cli.py:84 | `strip().lower()` applied twice equals applying it once |
| Cli.NormaliseSymbolIdempotent | stock_insight_cli.py:42 | `strip().upper()` applied twice equals applying it once |
| Cli.Classify | stock_insight_cli.py:86-103 | each of exit, top-stocks, bottom-stocks, daily-open-close and help reaches its own branch and no other command does; every other command is unknown and keeps its text |
| Cli.AdvertisedButUnknown | stock_insight_cli.py:71-72 | `alerts` and `news`, announced by the banner, are unknown commands in any case and spacing |
| Cli.HelpOutputs | stock_insight_cli.py:113-115 | a header, then one line per help entry in the table's order |
| Cli.HelpListsTheDataCommands | stock_insight_cli.py:107-112 | help lists exactly top-stocks, bottom-stocks and daily-open-close, once each, and each one dispatches to a data handler |
| Cli.FetchStockData | stock_insight_cli.py:8-17 | the decoded body when the request succeeds; otherwise exactly one error line and None |
| Cli.FirstFive | stock_insight_cli.py:23 | `data[:5]`: min(5, n) entries, each equal to the original at its position |
| Cli.StockInfo | stock_insight_cli.py:54-55 | a stock is shown exactly when it is an object with `ticker`, `price` and `change_percentage`, and the line carries the values under those keys; otherwise indexing raises |
| Cli.StockLines | stock_insight_cli.py:25-26 | one line per stock in order; the loop raises exactly when some stock cannot be shown, and then at the first such stock |
| Cli.DisplayStocks | stock_insight_cli.py:25-26 | the imperative display loop prints what StockLines specifies |
| Cli.HandleMovers | stock_insight_cli.py:19-39 | the imperative movers handler prints what Movers specifies |
| Cli.Movers | stock_insight_cli.py:19-39 | the handler's first line is its progress message |
| Cli.MoversShowFirstFive | stock_insight_cli.py:19-26 | for a non-empty list whose first five entries can be shown (later entries may be anything), the handler prints progress, heading and the first min(5, n) entries in order, and nothing else, and does not raise |
| Cli.CouldNotRetrieveExactly | stock_insight_cli.py:22-28 | "Could not retrieve data." is printed exactly when the request failed or the body is falsy, and then the handler does not raise |
| Cli.MoversCrashExactly | stock_insight_cli.py:22-26 | a movers handler raises exactly on a truthy body that is not a list, or whose first five entries include one that cannot be shown |
| Cli.NotANumberCrashes | stock_insight_cli.py:22-23 | a body of `NaN` is truthy, so slicing it raises and ends the run |
| Cli.ShowQuote | stock_insight_cli.py:45-48 | "Could not retrieve data." exactly for no body or a falsy one; the date, open and close of a body that has them; a raise for any other truthy body, with nothing printed |
| Cli.Quote | stock_insight_cli.py:43-48 | the progress line naming the symbol comes first. "Could not retrieve data." is printed exactly when the request failed or the body is falsy. The handler raises exactly on a truthy body without `date`, `open` and `close`. A body with them prints the progress line and the quote, and nothing else |
| Cli.QuoteShowsServiceBody | stock_insight_cli.py:44-46 | a daily body shaped like the service's reply prints its date, open and close |
| Cli.Dispatch | stock_insight_cli.py:84-103 | one pass dispatches the normalised line, reads one or two of the lines there are, and makes at most one request. It stops by exiting exactly on `exit` and runs out of input only at the last line |
| Cli.DispatchRunsHandler | stock_insight_cli.py:86-103 | each command runs its own handler: `exit` prints goodbye; the movers commands request their own list and print what Movers prints, stopping exactly when it raises; `daily-open-close` requests the quote for the next line normalised as a symbol and prints what Quote prints, or runs out of input on the last line; `help` prints the help and carries on; any other command prints the unknown-command line and carries on. Only the data commands make a request |
| Cli.DispatchIsLawful | stock_insight_cli.py:83-103 | every pass of `run` keeps the pass laws and dispatches the normalised form of the line it starts at |
| Cli.Pass | stock_insight_cli.py:84-103 | the imperative loop body does what Dispatch specifies |
| Cli.WhileTrue | stock_insight_cli.py:83-103 | for any body that keeps the pass laws, the loop ends by exiting exactly when its last command is `exit`. It runs out of input only after reading every line, makes no more requests than commands, and dispatches no more commands than it read lines |
| Cli.ExitIsLast | stock_insight_cli.py:86-88 | no command before the last one is `exit`: the loop stops at the first exit |
| Cli.CommandIsReadLine | stock_insight_cli.py:83-84 | every dispatched command is a line the loop consumed, read as the body reads it (for `run`, normalised) |
| Cli.DispatchAsks | stock_insight_cli.py:41-44 | a pass's request is a movers list or the quote for the symbol on the last line the pass read |
| Cli.AskedIsSent | stock_insight_cli.py:42-44 | a requested symbol is always in normalised form |
| Cli.ExitAnySpelling | stock_insight_cli.py:84-88 | a first line that normalises to `exit` prints the banner and goodbye, makes no request and stops |
| Cli.NoExitNoGoodbye | stock_insight_cli.py:83-103 | without an `exit` line the run ends by running out of input or by a crash, never by exiting |
| Cli.UnknownCarriesOn | stock_insight_cli.py:102-103 | an unknown command prints its normalised text, makes no request, and the loop carries on with the next line |
| Cli.RunLoop | stock_insight_cli.py:83-103 | the imperative `while True` loop, after the banner, produces exactly the trace of WhileTrue over the same body |
| Cli.PassKeepsSession | stock_insight_cli.py:83-103 | after one pass the loop's state is still in step with the whole session: a pass that does not stop leaves the rest of the loop to run, and a pass that stops is the end |
| Cli.Run | stock_insight_cli.py:80-103 | the imperative `run` produces exactly the Session trace: the banner followed by the loop |

## Left out

- Network I/O. `requests.get`, `raise_for_status` and `.json()` are one `FetchOutcome` parameter per request: received body, HTTP failure, or other failure. The service the client calls is the oracle `fetch`.
- Flask plumbing. Routing, `request.args`, `request.get_json()`, `jsonify`, `app.run` and the `print` of the request path in `get_top_stocks` are left out. Parameters are `Option` values. Replies are `Response` values. `/top_stocks` and `/bottom_stocks` are `GetStockPerformance("top")` and `GetStockPerformance("bottom")`.
- The file system. The watchlist file is the pair (exists, text) rather than a list of lines, so `readlines` is modelled on the text itself. The `w` and `a` branches have the same effect and are one update. Failures of `open` or `write` are not modelled.
- Watchlist.WatchlistFile.Add: the view after an add is stated only for a file that is empty or ends with a newline, since that is the only text the service itself writes. On a file whose last line lacks its newline, the appended line joins that last line.
- Concurrency. Concurrent requests, and the unsynchronised appends they could make, are not modelled.
- `get_current_price` is not defined anywhere in the watchlist service, so calling it would raise NameError. It is the `PriceLookup` parameter: a price, None, or an exception.
- Exception texts. They are kept as an abstract `Cause` and are not rendered as Python prints them. Printing a JSON value is kept as the value itself.
- The client's prompts, welcome banner text and help formatting. The banner is one `Welcome` event and each help line is one event.
- Text.Lower, Text.Upper: these change ASCII letters only. Python's full Unicode case mapping is not modelled.
- Cli.Truthy: a JSON number counts as truthy when some digit before its exponent is non-zero, or when it is `NaN`, `Infinity` or `-Infinity`. The model does not capture a literal such as `1e-400` that underflows to 0.0.
- The module `microservice_for_diana.py` is a fragment with no imports. Its API key is the `apiKey` parameter. `search_places` is defined twice with the same behaviour (lines 1-36 and 39-57) and is modelled once. The registration clash that Flask would raise at import time is not modelled.
- Queries are inserted verbatim, with no percent-encoding. AmpersandSplitsQuery and CatsAndDogs show the consequence. `QueryParams` splits a URL as written and decodes nothing, so the read-back lemmas are stated only for plain values, which hold no `&`, `#`, `%` or `+`.
- The client does not catch exceptions raised while displaying a body of an unexpected shape (indexing a non-object, a missing key, or slicing a dict); such an exception ends `run`. The model ends the trace with `Crashed` and does not model the traceback.
- An embedded `Error Message` is answered with 400, as the code does, not with a 500 upstream error.
- Cli.Run: works on values. Its output, requests and commands are sequences that the loop reassigns. The client keeps no other state (its only field, `base_url`, is constant), so nothing is updated in place.
- Cli.WhileTrue: that every request of a whole run names a known list or a normalised symbol is proved per pass (DispatchAsks, AskedIsSent), not as one statement about the entire trace.
- The news and alerts features exist in the source only as TODO comments, so there is nothing of them to model beyond their falling through to the unknown-command branch.
