/** The watchlist service: `add_to_watchlist` checks the request body, asks
    for the symbol's current price, and only then appends one line
    "{symbol} {price}\n" to the watchlist file; `view_watchlist` reads the
    file back line by line into (symbol, price) pairs. The file is the
    service's only persistent state. */
module Watchlist {
  import opened Common
  import opened Text

  /** A member of the posted JSON body. A string is the common case; any
      other JSON value is described by what Python makes of it: its truth
      value and the text `f"{value}"` writes. */
  datatype Field = Str(s: string) | NonStr(truthy: bool, shown: string)

  /** Python truthiness of the value (`if symbol and price`). */
  function Truthy(f: Field): bool {
    match f
    case Str(s) => s != []
    case NonStr(t, _) => t
  }

  /** The text an f-string writes for the value. */
  function Shown(f: Field): string {
    match f
    case Str(s) => s
    case NonStr(_, shown) => shown
  }

  /** `request.get_json()` followed by `data.get('symbol')` and `data.get('price')`:
      either a JSON object, of which only the two members matter, or a body
      on which those calls raise. */
  datatype Body = Object(symbol: Option<Field>, price: Option<Field>) | NotAnObject(detail: string)

  /** What `get_current_price(symbol)` does: returns a price, returns None, or raises. */
  datatype PriceLookup = Found(price: string) | NoPrice | LookupRaised(detail: string)

  /** The success body: `{'message': ..., 'current_price': ...}`. */
  datatype Added = Added(message: string, currentPrice: string)

  /** One watchlist entry, `{'symbol': ..., 'price': ...}`. */
  datatype Entry = Entry(symbol: string, price: string)

  /** What one add decides: the response and the text to append, if any. */
  datatype AddDecision = AddDecision(response: Response<Added>, line: Option<string>)

  const AddedMessage := "Stock added to watchlist successfully"
  const PriceUnavailable := "Failed to fetch current stock price"
  const FieldsRequired := "Symbol and price are required parameters"

  /** The member is present and truthy. */
  predicate Given(f: Option<Field>) {
    f.Some? && Truthy(f.value)
  }

  /** Both members pass `if symbol and price`. */
  predicate Complete(body: Body) {
    body.Object? && Given(body.symbol) && Given(body.price)
  }

  /** The entry a complete body asks to store. */
  function Requested(body: Body): Entry
    requires Complete(body)
  {
    Entry(Shown(body.symbol.value), Shown(body.price.value))
  }

  /** `f"{symbol} {price}\n"` */
  function FormatLine(e: Entry): string {
    e.symbol + " " + e.price + "\n"
  }

  /** `add_to_watchlist` without the file: the response, and the line to
      append. A line is appended exactly when the response is a success; the
      fields are checked before the price is asked for; the reply carries the
      looked-up price while the line carries the caller's price. */
  function DecideAdd(body: Body, lookup: PriceLookup): (d: AddDecision)
    ensures d.line.Some? <==> d.response.Ok?
    ensures d.response.Ok? <==> Complete(body) && lookup.Found?
    ensures d.response.Ok? ==> d.line.value == FormatLine(Requested(body))
    ensures d.response.Ok? ==> d.response.payload == Added(AddedMessage, lookup.price)
    ensures body.Object? && !Complete(body) ==> d.response == Err(400, Said(FieldsRequired))
    ensures Complete(body) && lookup.NoPrice? ==> d.response == Err(500, Said(PriceUnavailable))
    ensures d.response.Err? && d.response.status != 400 ==> d.response.status == 500
    // 400 only for an object lacking a field; a raised lookup or a body that is not an object is 500
    ensures d.response.Err? && d.response.status == 400 ==> body.Object? && !Complete(body)
  {
    match body
    case NotAnObject(detail) => AddDecision(Err(500, Unexpected(Raised(detail))), None)
    case Object(symbol, price) =>
      if Given(symbol) && Given(price) then
        match lookup
        case NoPrice => AddDecision(Err(500, Said(PriceUnavailable)), None)
        case LookupRaised(detail) => AddDecision(Err(500, Unexpected(Raised(detail))), None)
        case Found(p) => AddDecision(Ok(Added(AddedMessage, p)), Some(FormatLine(Requested(body))))
      else
        AddDecision(Err(400, Said(FieldsRequired)), None)
  }

  /** `line.strip().split()` */
  function Tokens(line: string): seq<string> {
    Split(Strip(line))
  }

  /** The first comprehension of `view_watchlist`: every line read from the
      file, split into its tokens. */
  function TokenizeLines(lines: seq<string>): (items: seq<seq<string>>)
    ensures |items| == |lines|
    ensures forall i :: 0 <= i < |lines| ==> items[i] == Tokens(lines[i])
  {
    seq(|lines|, i requires 0 <= i < |lines| => Tokens(lines[i]))
  }

  /** The second comprehension of `view_watchlist`: each item gives its
      first two tokens as symbol and price, later tokens are dropped, and an
      item with fewer than two tokens makes `item[1]` raise IndexError,
      which the handler reports as a 500. */
  function Entries(items: seq<seq<string>>): (r: Response<seq<Entry>>)
    ensures r.Ok? <==> forall i :: 0 <= i < |items| ==> |items[i]| >= 2
    ensures r.Ok? ==> |r.payload| == |items|
    ensures r.Ok? ==> forall i :: 0 <= i < |items| ==> r.payload[i] == Entry(items[i][0], items[i][1])
    ensures r.Err? ==> r == Err(500, Unexpected(IndexOutOfRange))
  {
    if items == [] then Ok([])
    else if |items[0]| < 2 then Err(500, Unexpected(IndexOutOfRange))
    else
      match Entries(items[1..])
      case Ok(rest) => Ok([Entry(items[0][0], items[0][1])] + rest)
      case Err(status, error) => Err(status, error)
  }

  /** `view_watchlist` on a file that is `present` (or absent) with contents
      `text`: an absent file is an empty watchlist, not an error. */
  function ParseWatchlist(present: bool, text: string): (r: Response<seq<Entry>>)
    ensures !present ==> r == Ok([])
    ensures text == [] ==> r == Ok([])
    // the only failure is the index error of a short line
    ensures r.Err? ==> present && r == Err(500, Unexpected(IndexOutOfRange))
  {
    if present then Entries(TokenizeLines(Lines(text))) else Ok([])
  }

  /** An existing file reads back exactly when every line holds at least two tokens. */
  lemma {:induction false} ViewNeedsTwoTokens(text: string)
    ensures ParseWatchlist(true, text).Ok? <==> forall k :: 0 <= k < |Lines(text)| ==> |Tokens(Lines(text)[k])| >= 2
  {
    EntriesOfLines(Lines(text));
    assert ParseWatchlist(true, text) == Entries(TokenizeLines(Lines(text)));
    if ParseWatchlist(true, text).Ok? {
      assert Entries(TokenizeLines(Lines(text))).Ok?;
    } else {
      assert !Entries(TokenizeLines(Lines(text))).Ok?;
    }
  }

  /** A file that reads back is one entry per line: that line's first two tokens. */
  lemma {:induction false} ViewReadsLines(text: string)
    ensures ParseWatchlist(true, text).Ok? ==>
      && |ParseWatchlist(true, text).payload| == |Lines(text)|
      && forall k :: 0 <= k < |Lines(text)| ==>
           ParseWatchlist(true, text).payload[k] == Entry(Tokens(Lines(text)[k])[0], Tokens(Lines(text)[k])[1])
  {
    EntriesOfLines(Lines(text));
    assert ParseWatchlist(true, text) == Entries(TokenizeLines(Lines(text)));
  }

  /** The entries of some lines: one per line, its first two tokens, or the
      index error when a line holds fewer than two. */
  lemma {:induction false} EntriesOfLines(lines: seq<string>)
    ensures Entries(TokenizeLines(lines)).Ok? <==> forall k :: 0 <= k < |lines| ==> |Tokens(lines[k])| >= 2
    ensures Entries(TokenizeLines(lines)).Ok? ==>
      && |Entries(TokenizeLines(lines)).payload| == |lines|
      && forall k :: 0 <= k < |lines| ==>
           Entries(TokenizeLines(lines)).payload[k] == Entry(Tokens(lines[k])[0], Tokens(lines[k])[1])
    ensures Entries(TokenizeLines(lines)).Err? ==> Entries(TokenizeLines(lines)) == Err(500, Unexpected(IndexOutOfRange))
  {
    var items := TokenizeLines(lines);
    assert forall k :: 0 <= k < |lines| ==> items[k] == Tokens(lines[k]);
  }

  /** An entry the file can give back unchanged: both strings are single tokens. */
  predicate Storable(e: Entry) {
    IsToken(e.symbol) && IsToken(e.price)
  }

  /** The file text that a sequence of successful adds to an absent file writes. */
  function Serialise(entries: seq<Entry>): (text: string)
    ensures EndsWithNewline(text)
    ensures text == [] <==> entries == []
  {
    if entries == [] then []
    else Serialise(entries[..|entries| - 1]) + FormatLine(entries[|entries| - 1])
  }

  /** Stripping first does not change the tokens of a line. */
  lemma TokensOfLine(line: string, tokens: seq<string>)
    requires Split(line) == tokens
    ensures Tokens(line) == tokens
  {
    SplitStrip(line);
  }

  /** A line holding two tokens and then whitespace, or nothing, yields those two tokens first. */
  lemma TokensOfPair(symbol: string, price: string, more: string)
    requires IsToken(symbol) && IsToken(price)
    requires more == [] || IsSpace(more[0])
    ensures Tokens(symbol + " " + price + more) == [symbol, price] + Split(more)
  {
    SplitPairThenMore(symbol, price, more);
    TokensOfLine(symbol + " " + price + more, [symbol, price] + Split(more));
  }

  /** A stored line of a storable entry reads back as one line holding the
      entry's two strings as its only tokens. */
  lemma LineReadsBack(e: Entry)
    requires Storable(e)
    ensures Lines(FormatLine(e)) == [FormatLine(e)]
    ensures Tokens(FormatLine(e)) == [e.symbol, e.price]
  {
    var body := e.symbol + " " + e.price;
    assert forall i :: 0 <= i < |body| ==> body[i] != '\n' && body[i] != '\r' by {
      forall i | 0 <= i < |body| ensures body[i] != '\n' && body[i] != '\r' {
        if i < |e.symbol| {
          assert body[i] == e.symbol[i];
        } else if i > |e.symbol| {
          assert body[i] == e.price[i - |e.symbol| - 1];
        }
      }
    }
    LinesOfOneLine(body);
    TokensOfPair(e.symbol, e.price, "\n");
    SplitBlank("\n");
  }

  /** Tokenizing one more line adds its tokens at the end. */
  lemma TokenizeSnoc(lines: seq<string>, line: string)
    ensures TokenizeLines(lines + [line]) == TokenizeLines(lines) + [Tokens(line)]
  {
    var all := lines + [line];
    assert forall i :: 0 <= i < |lines| ==> all[i] == lines[i];
    assert all[|lines|] == line;
  }

  /** One more item with two tokens adds its entry at the end, when the
      earlier items all parse. */
  lemma EntriesSnoc(items: seq<seq<string>>, before: seq<Entry>, item: seq<string>)
    requires Entries(items) == Ok(before)
    requires |item| >= 2
    ensures Entries(items + [item]) == Ok(before + [Entry(item[0], item[1])])
  {
    var all := items + [item];
    assert forall i :: 0 <= i < |items| ==> all[i] == items[i];
    assert all[|items|] == item;
    var r := Entries(all);
    assert r.Ok?;
    assert r.payload == before + [Entry(item[0], item[1])];
  }

  /** One more successful add to a file that ends with a newline: the
      watchlist read back grows by exactly the new entry, at the end, and
      every earlier entry is unchanged. */
  lemma AppendThenView(text: string, before: seq<Entry>, e: Entry)
    requires EndsWithNewline(text)
    requires ParseWatchlist(true, text) == Ok(before)
    requires Storable(e)
    ensures ParseWatchlist(true, text + FormatLine(e)) == Ok(before + [e])
  {
    var line := FormatLine(e);
    LinesAppend(text, line);
    LineReadsBack(e);
    TokenizeSnoc(Lines(text), line);
    EntriesSnoc(TokenizeLines(Lines(text)), before, [e.symbol, e.price]);
  }

  /** Round trip: N successful adds of storable entries, starting from an
      absent file, read back as exactly those N entries in insertion order. */
  lemma {:induction false} RoundTrip(entries: seq<Entry>)
    requires forall i :: 0 <= i < |entries| ==> Storable(entries[i])
    ensures ParseWatchlist(entries != [], Serialise(entries)) == Ok(entries)
    ensures ParseWatchlist(true, Serialise(entries)) == Ok(entries)
  {
    if entries == [] {
      assert Serialise(entries) == [];
    } else {
      var init := entries[..|entries| - 1];
      var last := entries[|entries| - 1];
      assert entries == init + [last];
      forall i | 0 <= i < |init| ensures Storable(init[i]) {
        assert init[i] == entries[i];
      }
      RoundTrip(init);
      RoundTripStep(init, last, entries);
    }
  }

  /** The inductive step of `RoundTrip`. */
  lemma RoundTripStep(init: seq<Entry>, last: Entry, entries: seq<Entry>)
    requires entries == init + [last]
    requires Storable(last)
    requires ParseWatchlist(true, Serialise(init)) == Ok(init)
    ensures ParseWatchlist(true, Serialise(entries)) == Ok(entries)
  {
    assert entries[..|entries| - 1] == init;
    assert Serialise(entries) == Serialise(init) + FormatLine(last);
    AppendThenView(Serialise(init), init, last);
  }

  /** A line with more than two tokens gives its first two; the rest are ignored. */
  lemma ExtraTokensIgnored(symbol: string, price: string, more: string)
    requires IsToken(symbol) && IsToken(price)
    requires more == [] || IsSpace(more[0])
    ensures Entries(TokenizeLines([symbol + " " + price + more])) == Ok([Entry(symbol, price)])
  {
    TokensOfPair(symbol, price, more);
    var items := TokenizeLines([symbol + " " + price + more]);
    assert items[0] == [symbol, price] + Split(more);
    var r := Entries(items);
    assert r.Ok?;
    assert r.payload == [Entry(symbol, price)];
  }

  /** A line with fewer than two tokens (a blank line, a lone symbol) fails
      the whole view, wherever it sits in the file. */
  lemma ShortLineFails(text: string, k: nat)
    requires k < |Lines(text)| && |Tokens(Lines(text)[k])| < 2
    ensures ParseWatchlist(true, text) == Err(500, Unexpected(IndexOutOfRange))
  {
    var items := TokenizeLines(Lines(text));
    assert |items[k]| < 2;
  }

  /** The watchlist file: whether it exists, and its text. */
  class WatchlistFile {
    var present: bool
    var text: string

    /** An absent file has no text. */
    ghost predicate Valid()
      reads this
    {
      !present ==> text == []
    }

    /** The file as the service finds it: absent (`None`) or holding some text. */
    constructor (initial: Option<string>)
      ensures Valid()
      ensures present == initial.Some? && text == initial.GetOr([])
    {
      present := initial.Some?;
      text := initial.GetOr([]);
    }

    /** `view_watchlist` on the file as it is now. */
    function View(): (r: Response<seq<Entry>>)
      reads this
      ensures !present ==> r == Ok([])
      ensures r.Err? ==> present && r == Err(500, Unexpected(IndexOutOfRange))
      ensures r.Ok? && present ==> |r.payload| == |Lines(text)|
    {
      ParseWatchlist(present, text)
    }

    /** `add_to_watchlist`: on success the file (created if absent) gains
        exactly one line at its end; on any failure it is untouched. */
    method Add(body: Body, lookup: PriceLookup) returns (r: Response<Added>)
      requires Valid()
      modifies this
      ensures Valid()
      ensures r == DecideAdd(body, lookup).response
      ensures r.Ok? ==> present && text == old(text) + FormatLine(Requested(body))
      ensures r.Err? ==> present == old(present) && text == old(text)
      ensures r.Ok? && Storable(Requested(body)) && EndsWithNewline(old(text)) && old(View()).Ok? ==>
        View() == Ok(old(View()).payload + [Requested(body)])
    {
      var d := DecideAdd(body, lookup);
      r := d.response;
      if d.line.Some? {
        present := true;
        text := text + d.line.value;
        if Storable(Requested(body)) && EndsWithNewline(old(text)) && old(View()).Ok? {
          AppendThenView(old(text), old(View()).payload, Requested(body));
        }
      }
    }
  }
}
