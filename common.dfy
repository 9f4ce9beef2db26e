/** Values shared by the services: optional parameters, parsed JSON documents,
    the outcome of one outbound HTTP request, and the (status, body) pair a
    Flask handler returns. */
module Common {

  datatype Option<+T> = None | Some(value: T) {
    /** `request.args.get(name, default)`: the supplied value, or the default when absent. */
    function GetOr(default: T): T {
      match this
      case Some(v) => v
      case None => default
    }
  }

  /** A parsed JSON document as Python's `json.loads` delivers it. Numbers keep
      their literal text. An object is its list of members in document order;
      see `HasKey` and `Lookup` for how a Python dict reads it. */
  datatype Json =
    | JNull
    | JBool(b: bool)
    | JNumber(literal: string)
    | JString(s: string)
    | JArray(items: seq<Json>)
    | JObject(members: seq<(string, Json)>)

  /** `key in d` for the dict built from `members`. */
  predicate HasKey(members: seq<(string, Json)>, key: string) {
    exists i :: 0 <= i < |members| && members[i].0 == key
  }

  /** Position of the member whose value the dict keeps for `key`: when a key
      repeats, the later value overwrites the earlier one. */
  function LastIndex(members: seq<(string, Json)>, key: string): (i: nat)
    requires HasKey(members, key)
    ensures i < |members| && members[i].0 == key
    ensures forall j :: i < j < |members| ==> members[j].0 != key
  {
    LastIndexBelow(members, key, |members|)
  }

  /** The last position before `n` that holds `key`. */
  function LastIndexBelow(members: seq<(string, Json)>, key: string, n: nat): (i: nat)
    requires n <= |members|
    requires exists w :: 0 <= w < n && members[w].0 == key
    ensures i < n && members[i].0 == key
    ensures forall j :: i < j < n ==> members[j].0 != key
  {
    if members[n - 1].0 == key then n - 1
    else
      assert exists w :: 0 <= w < n - 1 && members[w].0 == key by {
        var w :| 0 <= w < n && members[w].0 == key;
        assert w < n - 1;
      }
      LastIndexBelow(members, key, n - 1)
  }

  /** `d[key]` for the dict built from `members`. */
  function Lookup(members: seq<(string, Json)>, key: string): Json
    requires HasKey(members, key)
  {
    members[LastIndex(members, key)].1
  }

  /** `d.get(key)`: `None` when the key is absent. A key holding JSON null gives
      `Some(JNull)`; Python sees `None` there too, so callers test for both. */
  function Get(members: seq<(string, Json)>, key: string): Option<Json> {
    if HasKey(members, key) then Some(Lookup(members, key)) else None
  }

  /** Why a handler's `except Exception` branch was taken. */
  datatype Cause =
    | Raised(detail: string)   // raised inside code this model does not contain (the network, a JSON decoder, Flask)
    | MissingKey(key: string)  // KeyError from indexing a dict
    | IndexOutOfRange          // IndexError from indexing a list
    | WrongType                // TypeError or AttributeError: a JSON value of another kind than the code indexes

  /** The `{'error': ...}` body of a failed response. */
  datatype ErrorBody =
    | Said(text: string)               // a fixed message of the handler
    | Embedded(message: Json)          // a message copied from the upstream response
    | HttpErrorOccurred(detail: string) // 'HTTP error occurred: {http_err}'
    | Unexpected(cause: Cause)          // 'An unexpected error occurred: {err}'

  /** What a handler sends back: the JSON payload with status 200, or a status and an error body. */
  datatype Response<+T> = Ok(payload: T) | Err(status: nat, error: ErrorBody)

  /** How one `requests.get(url)` call followed by `raise_for_status()` and `.json()` ended. */
  datatype FetchOutcome =
    | HttpFailure(detail: string)  // raise_for_status raised requests.HTTPError
    | Failed(detail: string)       // any other exception: connection, timeout, undecodable body
    | Received(body: Json)

  /** A handler run: the URL it requested, if it got as far as a request, and its response. */
  datatype Exchange<+T> = Exchange(request: Option<string>, response: Response<T>)

  /** The shared `except` clauses: both kinds of failed request become status 500. */
  function FetchFailure<T>(upstream: FetchOutcome): (r: Response<T>)
    requires !upstream.Received?
    ensures r.Err? && r.status == 500
    ensures upstream.HttpFailure? <==> r.error.HttpErrorOccurred?
  {
    match upstream
    case HttpFailure(d) => Err(500, HttpErrorOccurred(d))
    case Failed(d) => Err(500, Unexpected(Raised(d)))
  }

  /** The body of a successful request handed back unchanged (`return jsonify(data)`). */
  function Relay(upstream: FetchOutcome): (r: Response<Json>)
    ensures r.Ok? <==> upstream.Received?
    ensures upstream.Received? ==> r.payload == upstream.body
    ensures r.Err? ==> r.status == 500
  {
    if upstream.Received? then Ok(upstream.body) else FetchFailure(upstream)
  }
}
