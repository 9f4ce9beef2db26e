/** The interactive StockInsight client. It reads commands one line at a
    time, normalises each with `strip().lower()`, and dispatches it until
    `exit`. The movers commands show at most five entries of the list the
    service returns; the daily command reads a symbol and normalises it with
    `strip().upper()`. Terminal input is a sequence of lines, terminal output
    a sequence of `Output` events. Each call to the local service is answered
    by an oracle that sees the request and the requests made before it. */
module Cli {
  import opened Common
  import opened Text

  /** One `fetch_stock_data(endpoint, params)` call. */
  datatype Request = Request(endpoint: string, params: seq<(string, string)>)

  const TopStocks := Request("top_stocks", [])
  const BottomStocks := Request("bottom_stocks", [])

  function DailyRequest(symbol: string): Request {
    Request("daily_open_close", [("symbol", symbol)])
  }

  /** What the client prints. The welcome banner is one event; JSON values
      are printed as Python's `str` renders them. */
  datatype Output =
    | Welcome
    | Goodbye
    | Progress(text: string)                              // "Fetching ..."
    | FetchError(text: string)                            // printed by fetch_stock_data before it returns None
    | Heading(title: string)                              // "Top 5 gainers:" or "Top 5 losers:"
    | StockShown(ticker: Json, price: Json, changePercentage: Json)
    | QuoteShown(date: Json, open: Json, close: Json)
    | CouldNotRetrieve
    | HelpHeader                                          // "Available commands:"
    | HelpLine(command: string, description: string)
    | UnknownCommand(command: string)

  /** How the client stopped: `exit`, end of input (`input()` raises
      EOFError), or an uncaught exception while displaying a response. */
  datatype Stop = Exited | InputExhausted | Crashed

  /** A run: what was printed, the requests made, the normalised commands
      dispatched, the number of input lines read, and how it stopped. */
  datatype Trace = Trace(outputs: seq<Output>, requests: seq<Request>, commands: seq<string>, consumed: nat, stop: Stop)

  /** What a handler printed, and whether it raised. */
  datatype Handled = Handled(outputs: seq<Output>, crashed: bool)

  const TopProgress := "Fetching top-performing stocks..."
  const BottomProgress := "Fetching bottom-performing stocks..."
  const TopTitle := "Top 5 gainers:"
  const BottomTitle := "Top 5 losers:"
  const MoversShown := 5

  // ---------------------------------------------------------------- normalisation and dispatch

  /** `command.strip().lower()` */
  function Normalise(raw: string): string {
    Lower(Strip(raw))
  }

  /** `symbol.strip().upper()` */
  function NormaliseSymbol(raw: string): string {
    Upper(Strip(raw))
  }

  /** No surrounding whitespace and no letter of the other case. */
  predicate Trimmed(s: string) {
    s == [] || (!IsSpace(s[0]) && !IsSpace(s[|s| - 1]))
  }

  lemma {:induction false} NormaliseShape(raw: string)
    ensures Trimmed(Normalise(raw))
    ensures forall i :: 0 <= i < |Normalise(raw)| ==> !IsUpperLetter(Normalise(raw)[i])
  {
  }

  lemma {:induction false} NormaliseSymbolShape(raw: string)
    ensures Trimmed(NormaliseSymbol(raw))
    ensures forall i :: 0 <= i < |NormaliseSymbol(raw)| ==> !IsLowerLetter(NormaliseSymbol(raw)[i])
  {
  }

  lemma {:induction false} LowerFixed(t: string)
    requires forall i :: 0 <= i < |t| ==> !IsUpperLetter(t[i])
    ensures Lower(t) == t
  {
  }

  lemma {:induction false} UpperFixed(t: string)
    requires forall i :: 0 <= i < |t| ==> !IsLowerLetter(t[i])
    ensures Upper(t) == t
  {
  }

  lemma {:induction false} StripFixed(t: string)
    requires Trimmed(t)
    ensures Strip(t) == t
  {
    if t != [] {
      StripKeepsTrimmed(t);
    }
  }

  /** Normalising twice is normalising once: a command typed as the client
      echoes it back dispatches the same way. */
  lemma {:induction false} NormaliseIdempotent(raw: string)
    ensures Normalise(Normalise(raw)) == Normalise(raw)
  {
    var t := Normalise(raw);
    assert Strip(t) == t by { NormaliseShape(raw); StripFixed(t); }
    assert Lower(t) == t by { NormaliseShape(raw); LowerFixed(t); }
  }

  lemma {:induction false} NormaliseSymbolIdempotent(raw: string)
    ensures NormaliseSymbol(NormaliseSymbol(raw)) == NormaliseSymbol(raw)
  {
    var t := NormaliseSymbol(raw);
    assert Strip(t) == t by { NormaliseSymbolShape(raw); StripFixed(t); }
    assert Upper(t) == t by { NormaliseSymbolShape(raw); UpperFixed(t); }
  }

  datatype Command = Exit | TopStocksCommand | BottomStocksCommand | DailyOpenCloseCommand | HelpCommand | Unknown(command: string)

  /** The `if`/`elif` chain of `run`, on a normalised command. */
  function Classify(command: string): (c: Command)
    ensures c.Unknown? <==> command !in {"exit", "top-stocks", "bottom-stocks", "daily-open-close", "help"}
    ensures c.Unknown? ==> c.command == command
    ensures c == Exit <==> command == "exit"
    ensures c == TopStocksCommand <==> command == "top-stocks"
    ensures c == BottomStocksCommand <==> command == "bottom-stocks"
    ensures c == DailyOpenCloseCommand <==> command == "daily-open-close"
    ensures c == HelpCommand <==> command == "help"
  {
    if command == "exit" then Exit
    else if command == "top-stocks" then TopStocksCommand
    else if command == "bottom-stocks" then BottomStocksCommand
    else if command == "daily-open-close" then DailyOpenCloseCommand
    else if command == "help" then HelpCommand
    else Unknown(command)
  }

  /** `alerts` and `news` are announced by the welcome banner but have no
      handler: whatever their case and spacing, they are unknown commands. */
  lemma {:induction false} AdvertisedButUnknown(raw: string)
    requires Normalise(raw) in {"alerts", "news"}
    ensures Classify(Normalise(raw)) == Unknown(Normalise(raw))
  {
  }

  // ---------------------------------------------------------------- the help table

  /** `help_message`, in its insertion order. */
  const HelpTable: seq<(string, string)> := [
    ("top-stocks", "View top-performing stocks"),
    ("bottom-stocks", "View lowest-performing stocks"),
    ("daily-open-close", "View the most recent open and close prices for a given symbol")
  ]

  /** `display_command_help()` */
  function HelpOutputs(): (r: seq<Output>)
    ensures |r| == 1 + |HelpTable| && r[0] == HelpHeader
    ensures forall k :: 0 <= k < |HelpTable| ==> r[k + 1] == HelpLine(HelpTable[k].0, HelpTable[k].1)
  {
    [HelpHeader] + seq(|HelpTable|, k requires 0 <= k < |HelpTable| => HelpLine(HelpTable[k].0, HelpTable[k].1))
  }

  /** Help lists exactly the three data commands, each once: every one of
      them dispatches to its handler, while `help` and `exit` are not listed. */
  lemma {:induction false} HelpListsTheDataCommands()
    ensures |HelpTable| == 3
    ensures forall k :: 0 <= k < |HelpTable| ==>
      Classify(HelpTable[k].0) in {TopStocksCommand, BottomStocksCommand, DailyOpenCloseCommand}
    ensures forall j, k :: 0 <= j < k < |HelpTable| ==> HelpTable[j].0 != HelpTable[k].0
    ensures [HelpTable[0].0, HelpTable[1].0, HelpTable[2].0] == ["top-stocks", "bottom-stocks", "daily-open-close"]
  {
  }

  // ---------------------------------------------------------------- responses

  /** A JSON number literal other than zero: some digit before the exponent is not '0'. */
  predicate NonZeroLiteral(literal: string) {
    exists i :: 0 <= i < |literal| && '1' <= literal[i] <= '9' && ExponentFree(literal[..i])
  }

  predicate ExponentFree(s: string) {
    Lacks(s, 'e') && Lacks(s, 'E')
  }

  /** Python truthiness of a decoded JSON value (`if data:`). `json.loads`
      also accepts `NaN` and the infinities, and those floats are true. */
  predicate Truthy(j: Json) {
    match j
    case JNull => false
    case JBool(b) => b
    case JNumber(literal) => NonZeroLiteral(literal) || literal in {"NaN", "Infinity", "-Infinity"}
    case JString(s) => s != []
    case JArray(items) => items != []
    case JObject(members) => members != []
  }

  /** `fetch_stock_data`: the decoded body, or None after printing the error. */
  function FetchStockData(outcome: FetchOutcome): (r: (seq<Output>, Option<Json>))
    ensures r.1.Some? <==> outcome.Received?
    ensures outcome.Received? ==> r == ([], Some(outcome.body))
    ensures !outcome.Received? ==> |r.0| == 1 && r.0[0].FetchError?
  {
    match outcome
    case Received(body) => ([], Some(body))
    case HttpFailure(detail) => ([FetchError("HTTP error occurred: " + detail)], None)
    case Failed(detail) => ([FetchError("An error occurred: " + detail)], None)
  }

  /** `data[:5]` on a list. */
  function FirstFive<T>(items: seq<T>): (r: seq<T>)
    ensures |r| == if |items| < MoversShown then |items| else MoversShown
    ensures forall k :: 0 <= k < |r| ==> r[k] == items[k]
  {
    if |items| < MoversShown then items else items[..MoversShown]
  }

  /** `display_stock_info(stock)`: None when indexing the stock raises
      (it is not an object, or lacks one of the three keys). */
  function StockInfo(stock: Json): (r: Option<Output>)
    ensures r.Some? <==> stock.JObject? && HasKey(stock.members, "ticker") && HasKey(stock.members, "price")
                         && HasKey(stock.members, "change_percentage")
    ensures r.Some? ==> r.value.StockShown? && r.value.ticker == Lookup(stock.members, "ticker")
                        && r.value.price == Lookup(stock.members, "price")
                        && r.value.changePercentage == Lookup(stock.members, "change_percentage")
  {
    match stock
    case JObject(m) =>
      if HasKey(m, "ticker") && HasKey(m, "price") && HasKey(m, "change_percentage")
      then Some(StockShown(Lookup(m, "ticker"), Lookup(m, "price"), Lookup(m, "change_percentage")))
      else None
    case _ => None
  }

  /** Index of the first stock `display_stock_info` cannot show, or the length. */
  function FirstUnshowable(stocks: seq<Json>): (n: nat)
    ensures n <= |stocks|
    ensures forall k :: 0 <= k < n ==> StockInfo(stocks[k]).Some?
    ensures n < |stocks| ==> StockInfo(stocks[n]).None?
  {
    UnshowableFrom(stocks, 0)
  }

  /** Index of the first stock at or after `i` that cannot be shown, or the length. */
  function UnshowableFrom(stocks: seq<Json>, i: nat): (n: nat)
    requires i <= |stocks|
    ensures i <= n <= |stocks|
    ensures forall k :: i <= k < n ==> StockInfo(stocks[k]).Some?
    ensures n < |stocks| ==> StockInfo(stocks[n]).None?
    decreases |stocks| - i
  {
    if i == |stocks| || StockInfo(stocks[i]).None? then i else UnshowableFrom(stocks, i + 1)
  }

  /** The `for stock in ...` loop: one line per stock, in order, until a stock raises. */
  function StockLines(stocks: seq<Json>): (h: Handled)
    ensures h.crashed <==> exists k :: 0 <= k < |stocks| && StockInfo(stocks[k]).None?
    ensures |h.outputs| <= |stocks|
    ensures forall k :: 0 <= k < |h.outputs| ==> StockInfo(stocks[k]) == Some(h.outputs[k])
    ensures !h.crashed ==> |h.outputs| == |stocks|
    ensures h.crashed ==> StockInfo(stocks[|h.outputs|]).None?
  {
    var n := FirstUnshowable(stocks);
    Handled(seq(n, k requires 0 <= k < n => StockInfo(stocks[k]).value), n < |stocks|)
  }

  /** `if data: ... else: print("Could not retrieve data.")` for the movers handlers. */
  function ShowMovers(title: string, data: Option<Json>): Handled {
    if data.None? || !Truthy(data.value) then Handled([CouldNotRetrieve], false)
    else
      match data.value
      case JArray(items) =>
        var lines := StockLines(FirstFive(items));
        Handled([Heading(title)] + lines.outputs, lines.crashed)
      case JString(_) => Handled([Heading(title)], true)   // the slice succeeds; indexing a character raises
      case _ => Handled([], true)                          // slicing a dict, number or `true` raises
  }

  /** `handle_top_stocks` / `handle_bottom_stocks` */
  function Movers(progress: string, title: string, outcome: FetchOutcome): (h: Handled)
    ensures h.outputs != [] && h.outputs[0] == Progress(progress)
  {
    var (printed, data) := FetchStockData(outcome);
    var shown := ShowMovers(title, data);
    Handled([Progress(progress)] + printed + shown.outputs, shown.crashed)
  }

  /** The movers handlers show the first min(5, n) entries, in their order, and nothing else. */
  lemma {:induction false} MoversShowFirstFive(progress: string, title: string, items: seq<Json>)
    requires items != []
    requires forall k :: 0 <= k < |items| && k < MoversShown ==> StockInfo(items[k]).Some?
    ensures var h := Movers(progress, title, Received(JArray(items)));
      && !h.crashed
      && |h.outputs| == 2 + (if |items| < 5 then |items| else 5)
      && h.outputs[..2] == [Progress(progress), Heading(title)]
      && forall k :: 2 <= k < |h.outputs| ==> Some(h.outputs[k]) == StockInfo(items[k - 2])
  {
    var lines := StockLines(FirstFive(items));
    assert !lines.crashed;
  }

  /** "Could not retrieve data." is printed exactly when the request failed or
      its body is empty, null, false or zero; the handler then carries on. */
  lemma {:induction false} CouldNotRetrieveExactly(progress: string, title: string, outcome: FetchOutcome)
    ensures var h := Movers(progress, title, outcome);
      (CouldNotRetrieve in h.outputs <==> !outcome.Received? || !Truthy(outcome.body))
      && (CouldNotRetrieve in h.outputs ==> !h.crashed)
  {
    var h := Movers(progress, title, outcome);
    var (printed, data) := FetchStockData(outcome);
    var shown := ShowMovers(title, data);
    assert h.outputs == [Progress(progress)] + printed + shown.outputs;
    assert CouldNotRetrieve !in printed;
    if data.Some? && Truthy(data.value) && data.value.JArray? {
      var lines := StockLines(FirstFive(data.value.items));
      assert forall k :: 0 <= k < |lines.outputs| ==> lines.outputs[k].StockShown?;
    }
  }

  /** A daily body `display` can print: an object with `date`, `open` and `close`. */
  predicate HasQuote(body: Json) {
    body.JObject? && HasKey(body.members, "date") && HasKey(body.members, "open") && HasKey(body.members, "close")
  }

  /** `if data: print(...) else: print("Could not retrieve data.")` for the daily handler. */
  function ShowQuote(data: Option<Json>): (h: Handled)
    ensures h.outputs == [CouldNotRetrieve] <==> data.None? || !Truthy(data.value)
    ensures h.crashed <==> data.Some? && Truthy(data.value) && !HasQuote(data.value)
    ensures data.Some? && HasQuote(data.value) ==>
      var m := data.value.members;
      h.outputs == [QuoteShown(Lookup(m, "date"), Lookup(m, "open"), Lookup(m, "close"))]
    ensures h.crashed ==> h.outputs == []
  {
    if data.None? || !Truthy(data.value) then Handled([CouldNotRetrieve], false)
    else if HasQuote(data.value) then
      var m := data.value.members;
      Handled([QuoteShown(Lookup(m, "date"), Lookup(m, "open"), Lookup(m, "close"))], false)
    else Handled([], true)   // indexing a list, string or number, or a missing key, raises
  }

  /** A movers handler raises exactly on a truthy body that is not a list
      whose first five entries can all be shown. */
  lemma {:induction false} MoversCrashExactly(progress: string, title: string, outcome: FetchOutcome)
    ensures Movers(progress, title, outcome).crashed <==>
      outcome.Received? && Truthy(outcome.body) &&
      (!outcome.body.JArray? ||
       exists k :: 0 <= k < |outcome.body.items| && k < MoversShown && StockInfo(outcome.body.items[k]).None?)
  {
    if outcome.Received? && Truthy(outcome.body) && outcome.body.JArray? {
      var items := outcome.body.items;
      var lines := StockLines(FirstFive(items));
      assert lines.crashed <==> exists k :: 0 <= k < |items| && k < MoversShown && StockInfo(items[k]).None? by {
        if lines.crashed {
          var k :| 0 <= k < |FirstFive(items)| && StockInfo(FirstFive(items)[k]).None?;
          assert StockInfo(items[k]).None?;
        }
        if exists k :: 0 <= k < |items| && k < MoversShown && StockInfo(items[k]).None? {
          var k :| 0 <= k < |items| && k < MoversShown && StockInfo(items[k]).None?;
          assert StockInfo(FirstFive(items)[k]).None?;
        }
      }
    }
  }

  /** A body of `NaN` passes `if data:` and then `data[:5]` raises: the run ends. */
  lemma {:induction false} NotANumberCrashes(progress: string, title: string)
    ensures Movers(progress, title, Received(JNumber("NaN"))).crashed
  {
  }

  /** `handle_daily_open_close` after the symbol was read. */
  function Quote(symbol: string, outcome: FetchOutcome): (h: Handled)
    ensures h.outputs != [] && h.outputs[0] == Progress("Fetching the most recent open and close prices for " + symbol + "...")
    // "Could not retrieve data." exactly when the request failed or its body is falsy
    ensures CouldNotRetrieve in h.outputs <==> !outcome.Received? || !Truthy(outcome.body)
    // a body without the three fields makes the print raise
    ensures h.crashed <==> outcome.Received? && Truthy(outcome.body) && !HasQuote(outcome.body)
    // otherwise the progress line and the quote, and nothing else
    ensures outcome.Received? && HasQuote(outcome.body) ==>
      var m := outcome.body.members;
      h.outputs == [h.outputs[0], QuoteShown(Lookup(m, "date"), Lookup(m, "open"), Lookup(m, "close"))]
  {
    var (printed, data) := FetchStockData(outcome);
    var shown := ShowQuote(data);
    assert CouldNotRetrieve !in printed;
    Handled([Progress("Fetching the most recent open and close prices for " + symbol + "...")] + printed + shown.outputs, shown.crashed)
  }

  /** A daily body from the service shows its date, open and close, ignoring the echoed symbol. */
  lemma {:induction false} QuoteShowsServiceBody(symbol: string, date: Json, open: Json, close: Json)
    ensures var body := JObject([("close", close), ("date", date), ("open", open), ("symbol", JString(symbol))]);
      Quote(symbol, Received(body)) ==
        Handled([Progress("Fetching the most recent open and close prices for " + symbol + "..."), QuoteShown(date, open, close)], false)
  {
    var m := [("close", close), ("date", date), ("open", open), ("symbol", JString(symbol))];
    assert m[0].0 == "close" && m[1].0 == "date" && m[2].0 == "open";
    assert LastIndex(m, "close") == 0;
    assert LastIndex(m, "date") == 1;
    assert LastIndex(m, "open") == 2;
  }

  // ---------------------------------------------------------------- the loop

  /** `rest` run after something that printed `outputs`, made `requests`,
      dispatched `commands` and read `consumed` lines. */
  function Extend(outputs: seq<Output>, requests: seq<Request>, commands: seq<string>, consumed: nat, rest: Trace): Trace {
    Trace(outputs + rest.outputs, requests + rest.requests, commands + rest.commands, consumed + rest.consumed, rest.stop)
  }

  /** Every request the client makes: a movers list, or a daily quote for a normalised symbol. */
  predicate Sent(r: Request) {
    r == TopStocks || r == BottomStocks ||
    (r.endpoint == "daily_open_close" && |r.params| == 1 && r.params[0].0 == "symbol"
     && r.params[0].1 == NormaliseSymbol(r.params[0].1))
  }

  /** One pass of the loop body: the command read, how many lines it read,
      the requests it made, what it printed, and whether the loop stops there. */
  datatype Dispatched = Dispatched(command: string, read: nat, requests: seq<Request>, outputs: seq<Output>, stop: Option<Stop>)

  /** One pass of the `while True` body on the line at `next`. */
  function Dispatch(inputs: seq<string>, next: nat, fetch: (seq<Request>, Request) -> FetchOutcome, before: seq<Request>): (d: Dispatched)
    requires next < |inputs|
    ensures d.command == Normalise(inputs[next])
    ensures PassLaws(inputs, next, d)
  {
    var command := Normalise(inputs[next]);
    match Classify(command)
    case Exit => Dispatched(command, 1, [], [Goodbye], Some(Exited))
    case TopStocksCommand =>
      var h := Movers(TopProgress, TopTitle, fetch(before, TopStocks));
      Dispatched(command, 1, [TopStocks], h.outputs, if h.crashed then Some(Crashed) else None)
    case BottomStocksCommand =>
      var h := Movers(BottomProgress, BottomTitle, fetch(before, BottomStocks));
      Dispatched(command, 1, [BottomStocks], h.outputs, if h.crashed then Some(Crashed) else None)
    case DailyOpenCloseCommand =>
      if next + 1 == |inputs| then Dispatched(command, 1, [], [], Some(InputExhausted))
      else
        var symbol := NormaliseSymbol(inputs[next + 1]);
        var request := DailyRequest(symbol);
        var h := Quote(symbol, fetch(before, request));
        Dispatched(command, 2, [request], h.outputs, if h.crashed then Some(Crashed) else None)
    case HelpCommand => Dispatched(command, 1, [], HelpOutputs(), None)
    case Unknown(c) => Dispatched(command, 1, [], [UnknownCommand(c)], None)
  }

  /** Each command runs its own handler: the exit message, the movers list
      it names, the quote for the symbol typed on the next line, the help, or
      the unknown-command message; only the data commands make a request. */
  lemma {:induction false} DispatchRunsHandler(inputs: seq<string>, next: nat, fetch: (seq<Request>, Request) -> FetchOutcome, before: seq<Request>)
    requires next < |inputs|
    ensures var d := Dispatch(inputs, next, fetch, before);
      && (d.command == "exit" ==> d.read == 1 && d.requests == [] && d.outputs == [Goodbye])
      && (d.command == "top-stocks" ==>
         var h := Movers(TopProgress, TopTitle, fetch(before, TopStocks));
         d.read == 1 && d.requests == [TopStocks] && d.outputs == h.outputs && d.stop == (if h.crashed then Some(Crashed) else None))
      && (d.command == "bottom-stocks" ==>
         var h := Movers(BottomProgress, BottomTitle, fetch(before, BottomStocks));
         d.read == 1 && d.requests == [BottomStocks] && d.outputs == h.outputs && d.stop == (if h.crashed then Some(Crashed) else None))
      && (d.command == "daily-open-close" && next + 1 < |inputs| ==>
         var symbol := NormaliseSymbol(inputs[next + 1]);
         var h := Quote(symbol, fetch(before, DailyRequest(symbol)));
         d.read == 2 && d.requests == [DailyRequest(symbol)] && d.outputs == h.outputs && d.stop == (if h.crashed then Some(Crashed) else None))
      && (d.command == "daily-open-close" && next + 1 == |inputs| ==> d.requests == [] && d.outputs == [] && d.stop == Some(InputExhausted))
      && (d.command == "help" ==> d.read == 1 && d.requests == [] && d.outputs == HelpOutputs() && d.stop.None?)
      && (Classify(d.command).Unknown? ==>
         d.read == 1 && d.requests == [] && d.outputs == [UnknownCommand(d.command)] && d.stop.None?)
  {
  }

  /** What one pass of a loop body does on the line at `n` when the requests `b` were answered before it. */
  type Body = (nat, seq<Request>) -> Dispatched

  /** The laws every pass of the `while True` body keeps, whatever the command:
      it reads one or two of the lines there are, stops on `exit` and on no
      other command typed, runs out of input only at the last line, and makes
      at most one request. */
  predicate PassLaws(inputs: seq<string>, n: nat, d: Dispatched) {
    && 1 <= d.read && n + d.read <= |inputs|
    && (d.stop == Some(Exited) <==> d.command == "exit")
    && (d.stop == Some(InputExhausted) ==> n + d.read == |inputs|)
    && |d.requests| <= 1
  }

  /** `body` keeps the pass laws on every line of `inputs`, whatever was asked before. */
  ghost predicate Lawful(inputs: seq<string>, body: Body) {
    forall n: nat, b: seq<Request> :: n < |inputs| ==> PassLaws(inputs, n, body(n, b))
  }

  /** `body` dispatches the line it starts at, as `read` turns a line into a command. */
  ghost predicate ReadsItsLine(inputs: seq<string>, body: Body, read: string -> string) {
    forall n: nat, b: seq<Request> :: n < |inputs| ==> body(n, b).command == read(inputs[n])
  }
  /** The `while True` loop of `run()` from line `next` of the input on, for
      any body that keeps the pass laws; `before` requests were answered
      before this point. */
  function WhileTrue(inputs: seq<string>, next: nat, body: Body, before: seq<Request>): (t: Trace)
    requires next <= |inputs| && Lawful(inputs, body)
    ensures t.consumed <= |inputs| - next
    // the loop stops on `exit` and on nothing else that was typed
    ensures t.stop == Exited <==> t.commands != [] && t.commands[|t.commands| - 1] == "exit"
    // it runs out of input only after reading all of it
    ensures t.stop == InputExhausted ==> next + t.consumed == |inputs|
    ensures |t.requests| <= |t.commands| <= t.consumed
    decreases |inputs| - next
  {
    if next == |inputs| then Trace([], [], [], 0, InputExhausted)
    else
      var d := body(next, before);
      if d.stop.Some? then Trace(d.outputs, d.requests, [d.command], d.read, d.stop.value)
      else Extend(d.outputs, d.requests, [d.command], d.read, WhileTrue(inputs, next + d.read, body, before + d.requests))
  }

  /** One pass of the loop that does not stop is followed by the rest of the loop. */
  lemma {:induction false} LoopContinues(inputs: seq<string>, next: nat, body: Body, before: seq<Request>)
    requires next < |inputs| && Lawful(inputs, body)
    requires body(next, before).stop.None?
    ensures var d := body(next, before);
      WhileTrue(inputs, next, body, before) ==
        Extend(d.outputs, d.requests, [d.command], d.read, WhileTrue(inputs, next + d.read, body, before + d.requests))
  {
  }

  /** A pass of the loop that stops is the end of the loop. */
  lemma {:induction false} LoopStops(inputs: seq<string>, next: nat, body: Body, before: seq<Request>)
    requires next < |inputs| && Lawful(inputs, body)
    requires body(next, before).stop.Some?
    ensures var d := body(next, before);
      WhileTrue(inputs, next, body, before) == Trace(d.outputs, d.requests, [d.command], d.read, d.stop.value)
  {
  }

  /** The loop stops at the first `exit`: no command before the last one is `exit`. */
  lemma {:induction false} ExitIsLast(inputs: seq<string>, next: nat, body: Body, before: seq<Request>, k: nat)
    requires next <= |inputs| && Lawful(inputs, body)
    requires k + 1 < |WhileTrue(inputs, next, body, before).commands|
    ensures WhileTrue(inputs, next, body, before).commands[k] != "exit"
    decreases |inputs| - next
  {
    var d := body(next, before);
    if d.stop.Some? {
      LoopStops(inputs, next, body, before);
      assert false;
    } else {
      LoopContinues(inputs, next, body, before);
      if k > 0 {
        ExitIsLast(inputs, next + d.read, body, before + d.requests, k - 1);
      }
    }
  }

  /** Every dispatched command is a line that the loop read, as `read` turns
      it into a command: the `k`-th command is line `j`, one of the lines the
      loop consumed. */
  lemma {:induction false} CommandIsReadLine(inputs: seq<string>, next: nat, body: Body, read: string -> string,
                                             before: seq<Request>, k: nat)
    returns (j: nat)
    requires next <= |inputs| && Lawful(inputs, body) && ReadsItsLine(inputs, body, read)
    requires k < |WhileTrue(inputs, next, body, before).commands|
    ensures next <= j < next + WhileTrue(inputs, next, body, before).consumed
    ensures WhileTrue(inputs, next, body, before).commands[k] == read(inputs[j])
    decreases |inputs| - next
  {
    var d := body(next, before);
    if d.stop.Some? {
      LoopStops(inputs, next, body, before);
      j := next;
    } else if k == 0 {
      LoopContinues(inputs, next, body, before);
      j := next;
    } else {
      LoopContinues(inputs, next, body, before);
      j := CommandIsReadLine(inputs, next + d.read, body, read, before + d.requests, k - 1);
    }
  }

  /** The body of the loop of `run()`: `Dispatch` on the line at `n`. */
  function DispatchBody(inputs: seq<string>, fetch: (seq<Request>, Request) -> FetchOutcome): Body {
    (n: nat, b: seq<Request>) =>
      if n < |inputs| then Dispatch(inputs, n, fetch, b) else Dispatched("", 1, [], [], Some(InputExhausted))
  }

  /** `body` does what `Dispatch` does on every line of `inputs`. */
  ghost predicate Agrees(inputs: seq<string>, fetch: (seq<Request>, Request) -> FetchOutcome, body: Body) {
    forall n: nat, b: seq<Request> {:trigger Dispatch(inputs, n, fetch, b)} ::
      n < |inputs| ==> body(n, b) == Dispatch(inputs, n, fetch, b)
  }

  /** `Dispatch` keeps the pass laws and dispatches the line it starts at. */
  lemma {:induction false} DispatchIsLawful(inputs: seq<string>, fetch: (seq<Request>, Request) -> FetchOutcome)
    ensures Lawful(inputs, DispatchBody(inputs, fetch))
    ensures ReadsItsLine(inputs, DispatchBody(inputs, fetch), Normalise)
    ensures Agrees(inputs, fetch, DispatchBody(inputs, fetch))
  {
    forall n: nat, b: seq<Request> | n < |inputs|
      ensures PassLaws(inputs, n, DispatchBody(inputs, fetch)(n, b))
      ensures DispatchBody(inputs, fetch)(n, b).command == Normalise(inputs[n])
    {
      assert DispatchBody(inputs, fetch)(n, b) == Dispatch(inputs, n, fetch, b);
    }
  }

  /** The `while True` loop of `run()` from line `next` on, with `Dispatch` as its body. */
  function Loop(inputs: seq<string>, next: nat, fetch: (seq<Request>, Request) -> FetchOutcome, before: seq<Request>): Trace
    requires next <= |inputs|
  {
    DispatchIsLawful(inputs, fetch);
    WhileTrue(inputs, next, DispatchBody(inputs, fetch), before)
  }

  /** `r` is a movers list, or the quote for line `j` normalised as a symbol. */
  predicate AsksFor(r: Request, inputs: seq<string>, j: nat) {
    r == TopStocks || r == BottomStocks || (j < |inputs| && r == DailyRequest(NormaliseSymbol(inputs[j])))
  }

  /** The request a pass makes names the last line the pass read: a movers
      command asks for its list, a daily command for the symbol on the line after it. */
  lemma {:induction false} DispatchAsks(inputs: seq<string>, next: nat, fetch: (seq<Request>, Request) -> FetchOutcome, before: seq<Request>)
    requires next < |inputs|
    requires Dispatch(inputs, next, fetch, before).requests != []
    ensures AsksFor(Dispatch(inputs, next, fetch, before).requests[0], inputs, next + Dispatch(inputs, next, fetch, before).read - 1)
  {
    match Classify(Normalise(inputs[next])) {
      case TopStocksCommand =>
      case BottomStocksCommand =>
      case DailyOpenCloseCommand =>
        if next + 1 == |inputs| {
          assert false;
        }
      case _ =>
        assert false;
    }
  }

  /** A quote is only ever asked for a symbol in the form the client normalises to. */
  lemma {:induction false} AskedIsSent(r: Request, inputs: seq<string>, j: nat)
    requires AsksFor(r, inputs, j)
    ensures Sent(r)
  {
    if r != TopStocks && r != BottomStocks {
      NormaliseSymbolIdempotent(inputs[j]);
    }
  }

  /** `run()`: the welcome banner, then the loop. */
  function Session(inputs: seq<string>, fetch: (seq<Request>, Request) -> FetchOutcome): Trace {
    Extend([Welcome], [], [], 0, Loop(inputs, 0, fetch, []))
  }

  /** A command line typed in any case or with surrounding blanks is the same command. */
  lemma {:induction false} ExitAnySpelling(raw: string, rest: seq<string>, fetch: (seq<Request>, Request) -> FetchOutcome)
    requires Normalise(raw) == "exit"
    ensures Session([raw] + rest, fetch) == Trace([Welcome, Goodbye], [], ["exit"], 1, Exited)
  {
    var inputs := [raw] + rest;
    assert inputs[0] == raw;
    DispatchIsLawful(inputs, fetch);
    assert DispatchBody(inputs, fetch)(0, []) == Dispatch(inputs, 0, fetch, []);
    LoopStops(inputs, 0, DispatchBody(inputs, fetch), []);
  }

  /** Without `exit` among the lines the loop does not end by exiting:
      it runs out of input or crashes. */
  lemma {:induction false} NoExitNoGoodbye(inputs: seq<string>, fetch: (seq<Request>, Request) -> FetchOutcome)
    requires forall j :: 0 <= j < |inputs| ==> Normalise(inputs[j]) != "exit"
    ensures Session(inputs, fetch).stop in {InputExhausted, Crashed}
  {
    DispatchIsLawful(inputs, fetch);
    var body := DispatchBody(inputs, fetch);
    var t := WhileTrue(inputs, 0, body, []);
    if t.stop == Exited {
      var j := CommandIsReadLine(inputs, 0, body, Normalise, [], |t.commands| - 1);
      assert false;
    }
  }

  /** An unknown command prints its normalised form and the loop carries on
      with the next line, without a request. */
  lemma {:induction false} UnknownCarriesOn(inputs: seq<string>, next: nat, fetch: (seq<Request>, Request) -> FetchOutcome, before: seq<Request>)
    requires next < |inputs|
    requires Classify(Normalise(inputs[next])).Unknown?
    ensures Loop(inputs, next, fetch, before) ==
      Extend([UnknownCommand(Normalise(inputs[next]))], [], [Normalise(inputs[next])], 1, Loop(inputs, next + 1, fetch, before))
  {
    var c := Normalise(inputs[next]);
    DispatchIsLawful(inputs, fetch);
    var body := DispatchBody(inputs, fetch);
    assert body(next, before) == Dispatched(c, 1, [], [UnknownCommand(c)], None) by {
      DispatchUnknown(inputs, next, fetch, before);
    }
    LoopContinues(inputs, next, body, before);
    assert before + [] == before;
  }

  lemma {:induction false} DispatchUnknown(inputs: seq<string>, next: nat, fetch: (seq<Request>, Request) -> FetchOutcome, before: seq<Request>)
    requires next < |inputs|
    requires Classify(Normalise(inputs[next])).Unknown?
    ensures Dispatch(inputs, next, fetch, before) ==
      Dispatched(Normalise(inputs[next]), 1, [], [UnknownCommand(Normalise(inputs[next]))], None)
  {
  }

  // ---------------------------------------------------------------- the imperative client

  /** The display loop of the movers handlers. */
  method DisplayStocks(stocks: seq<Json>) returns (h: Handled)
    ensures h == StockLines(stocks)
  {
    var outputs: seq<Output> := [];
    var k := 0;
    while k < |stocks| && StockInfo(stocks[k]).Some?
      invariant 0 <= k <= |stocks| && |outputs| == k
      invariant forall j :: 0 <= j < k ==> StockInfo(stocks[j]) == Some(outputs[j])
    {
      outputs := outputs + [StockInfo(stocks[k]).value];
      k := k + 1;
    }
    h := Handled(outputs, k < |stocks|);
    assert k < |stocks| ==> StockInfo(stocks[k]).None?;
  }

  /** `handle_top_stocks` / `handle_bottom_stocks` */
  method HandleMovers(progress: string, title: string, outcome: FetchOutcome) returns (h: Handled)
    ensures h == Movers(progress, title, outcome)
  {
    var (printed, data) := FetchStockData(outcome);
    var outputs := [Progress(progress)] + printed;
    if data.None? || !Truthy(data.value) {
      return Handled(outputs + [CouldNotRetrieve], false);
    }
    match data.value {
      case JArray(items) =>
        var lines := DisplayStocks(FirstFive(items));
        h := Handled(outputs + ([Heading(title)] + lines.outputs), lines.crashed);
      case JString(_) =>
        h := Handled(outputs + [Heading(title)], true);
      case _ =>
        h := Handled(outputs, true);
    }
  }

  /** One pass of the `while True` body of `run()` on the line at `i`:
      `before` requests were answered before it. */
  method Pass(inputs: seq<string>, i: nat, fetch: (seq<Request>, Request) -> FetchOutcome, ghost body: Body, before: seq<Request>)
    returns (d: Dispatched)
    requires i < |inputs| && Agrees(inputs, fetch, body)
    ensures d == body(i, before)
  {
    var command := Normalise(inputs[i]);
    match Classify(command) {
      case Exit =>
        d := Dispatched(command, 1, [], [Goodbye], Some(Exited));
      case TopStocksCommand =>
        var h := HandleMovers(TopProgress, TopTitle, fetch(before, TopStocks));
        d := Dispatched(command, 1, [TopStocks], h.outputs, if h.crashed then Some(Crashed) else None);
      case BottomStocksCommand =>
        var h := HandleMovers(BottomProgress, BottomTitle, fetch(before, BottomStocks));
        d := Dispatched(command, 1, [BottomStocks], h.outputs, if h.crashed then Some(Crashed) else None);
      case DailyOpenCloseCommand =>
        if i + 1 == |inputs| {
          d := Dispatched(command, 1, [], [], Some(InputExhausted));
        } else {
          var symbol := NormaliseSymbol(inputs[i + 1]);
          var request := DailyRequest(symbol);
          var h := Quote(symbol, fetch(before, request));
          d := Dispatched(command, 2, [request], h.outputs, if h.crashed then Some(Crashed) else None);
        }
      case HelpCommand =>
        d := Dispatched(command, 1, [], HelpOutputs(), None);
      case Unknown(c) =>
        d := Dispatched(command, 1, [], [UnknownCommand(c)], None);
    }
    assert d == Dispatch(inputs, i, fetch, before);
  }

  /** What came before, then a pass `d`, then `rest`: the pass's output,
      requests, command and lines join those before it. */
  lemma {:induction false} ExtendTwice(outputs: seq<Output>, requests: seq<Request>, commands: seq<string>, consumed: nat,
                                       d: Dispatched, rest: Trace)
    ensures Extend(outputs, requests, commands, consumed, Extend(d.outputs, d.requests, [d.command], d.read, rest))
      == Extend(outputs + d.outputs, requests + d.requests, commands + [d.command], consumed + d.read, rest)
  {
    ConcatAssoc(outputs, d.outputs, rest.outputs);
    ConcatAssoc(requests, d.requests, rest.requests);
    ConcatAssoc(commands, [d.command], rest.commands);
  }

  /** One pass `d` of `run()` keeps its state in step with the session
      `goal`: what came before, this pass, and the rest of the loop, or,
      if the pass stops the loop, what came before and this pass. */
  lemma {:induction false} PassKeepsSession(outputs: seq<Output>, requests: seq<Request>, commands: seq<string>,
                                            inputs: seq<string>, i: nat, body: Body, d: Dispatched, goal: Trace)
    requires i < |inputs| && Lawful(inputs, body) && d == body(i, requests)
    requires Extend(outputs, requests, commands, i, WhileTrue(inputs, i, body, requests)) == goal
    ensures d.stop.None? ==>
      Extend(outputs + d.outputs, requests + d.requests, commands + [d.command], i + d.read,
             WhileTrue(inputs, i + d.read, body, requests + d.requests)) == goal
    ensures d.stop.Some? ==>
      Trace(outputs + d.outputs, requests + d.requests, commands + [d.command], i + d.read, d.stop.value) == goal
  {
    if d.stop.None? {
      LoopContinues(inputs, i, body, requests);
      ExtendTwice(outputs, requests, commands, i, d, WhileTrue(inputs, i + d.read, body, requests + d.requests));
    } else {
      LoopStops(inputs, i, body, requests);
    }
  }

  /** The state of `run()` when `input()` finds no more lines. */
  lemma {:induction false} InputEnds(outputs: seq<Output>, requests: seq<Request>, commands: seq<string>,
                                     inputs: seq<string>, body: Body)
    requires Lawful(inputs, body)
    ensures Extend(outputs, requests, commands, |inputs|, WhileTrue(inputs, |inputs|, body, requests))
      == Trace(outputs, requests, commands, |inputs|, InputExhausted)
  {
    assert outputs + [] == outputs && requests + [] == requests && commands + [] == commands;
  }

  /** The imperative `while True` loop of `run()`, after the banner, with
      `body` standing for the pass that `Pass` carries out. */
  method RunLoop(inputs: seq<string>, fetch: (seq<Request>, Request) -> FetchOutcome, ghost body: Body) returns (t: Trace)
    requires Lawful(inputs, body) && Agrees(inputs, fetch, body)
    ensures t == Extend([Welcome], [], [], 0, WhileTrue(inputs, 0, body, []))
  {
    ghost var goal := Extend([Welcome], [], [], 0, WhileTrue(inputs, 0, body, []));
    var outputs := [Welcome];
    var requests: seq<Request> := [];
    var commands: seq<string> := [];
    var i := 0;
    var stop: Option<Stop> := None;
    while stop.None?
      invariant 0 <= i <= |inputs|
      invariant stop.None? ==> Extend(outputs, requests, commands, i, WhileTrue(inputs, i, body, requests)) == goal
      invariant stop.Some? ==> Trace(outputs, requests, commands, i, stop.value) == goal
      decreases |inputs| - i, if stop.None? then 1 else 0
    {
      if i == |inputs| {
        InputEnds(outputs, requests, commands, inputs, body);
        stop := Some(InputExhausted);
      } else {
        var d := Pass(inputs, i, fetch, body, requests);
        PassKeepsSession(outputs, requests, commands, inputs, i, body, d, goal);
        outputs, requests, commands, i, stop := outputs + d.outputs, requests + d.requests, commands + [d.command], i + d.read, d.stop;
      }
    }
    t := Trace(outputs, requests, commands, i, stop.value);
  }

  /** `run()` over the lines `inputs`, with the service answering through `fetch`. */
  method Run(inputs: seq<string>, fetch: (seq<Request>, Request) -> FetchOutcome) returns (t: Trace)
    ensures t == Session(inputs, fetch)
  {
    DispatchIsLawful(inputs, fetch);
    t := RunLoop(inputs, fetch, DispatchBody(inputs, fetch));
  }
}
