/** The places service: `/search_places` (text search) and `/search_nearby`
    (search around a point) check their query parameters, build a Places
    API URL by plain string concatenation, and relay the JSON body of the
    one request they make. Parameter values go into the URL as they are:
    nothing is percent-encoded. */
module Places {
  import opened Common
  import opened Text

  const PlacesHost := "https://maps.googleapis.com"
  const PlaceApi := "/maps/api/place"
  const TextSearchPath := PlacesHost + PlaceApi + "/textsearch/json"
  const NearbyPath := PlacesHost + PlaceApi + "/nearbysearch/json"

  const DefaultQuery := "veternarians in Corvallis"
  const DefaultRadius := "5000"
  const DefaultType := "veterinary_care"

  const QueryRequired := "Query parameter is required"
  const CoordinatesRequired := "Latitude and longitude are required parameters"

  /** `f'...textsearch/json?query={query}&key={google_places_api_key}'` */
  function TextSearchUrl(query: string, apiKey: string): string {
    TextSearchPath + "?query=" + query + "&key=" + apiKey
  }

  /** `f'...nearbysearch/json?location={lat},{lng}&radius={radius}&type={type}&key={google_places_api_key}'` */
  function NearbyUrl(lat: string, lng: string, radius: string, placeType: string, apiKey: string): string {
    NearbyPath + "?location=" + lat + "," + lng + "&radius=" + radius + "&type=" + placeType + "&key=" + apiKey
  }

  /** Python truthiness of a query parameter: present and not empty. */
  predicate Supplied(p: Option<string>) {
    p.Some? && p.value != []
  }

  /** `search_places()`; `apiKey` is the module-level `google_places_api_key`. */
  function SearchPlaces(query: Option<string>, apiKey: string, upstream: FetchOutcome): (e: Exchange<Json>)
    // only an explicitly empty query is refused, and before any request
    ensures e.request.None? <==> query == Some([])
    ensures e.request.None? ==> e.response == Err(400, Said(QueryRequired))
    // an absent query searches for the default text
    ensures query.None? ==> e.request == Some(TextSearchUrl(DefaultQuery, apiKey))
    ensures Supplied(query) ==> e.request == Some(TextSearchUrl(query.value, apiKey))
    // the upstream body is relayed unchanged
    ensures e.request.Some? ==> e.response == Relay(upstream)
  {
    var q := query.GetOr(DefaultQuery);
    if q == [] then Exchange(None, Err(400, Said(QueryRequired)))
    else Exchange(Some(TextSearchUrl(q, apiKey)), Relay(upstream))
  }

  /** `search_nearby()`; the parameter `type` is named `placeType` here. */
  function SearchNearby(lat: Option<string>, lng: Option<string>, radius: Option<string>,
                        placeType: Option<string>, apiKey: string, upstream: FetchOutcome): (e: Exchange<Json>)
    // both coordinates must be supplied and non-empty, checked before any request
    ensures e.request.None? <==> !Supplied(lat) || !Supplied(lng)
    ensures e.request.None? ==> e.response == Err(400, Said(CoordinatesRequired))
    // radius and type take their defaults only when absent (an empty value is sent as it is)
    ensures e.request.Some? ==>
      e.request.value == NearbyUrl(lat.value, lng.value, radius.GetOr(DefaultRadius), placeType.GetOr(DefaultType), apiKey)
    ensures e.request.Some? ==> e.response == Relay(upstream)
  {
    if !Supplied(lat) || !Supplied(lng) then Exchange(None, Err(400, Said(CoordinatesRequired)))
    else
      var url := NearbyUrl(lat.value, lng.value, radius.GetOr(DefaultRadius), placeType.GetOr(DefaultType), apiKey);
      Exchange(Some(url), Relay(upstream))
  }

  // ---------------------------------------------------------------- reading a URL back

  /** A name=value pair of a URL query, split at the first '='. */
  function Param(piece: string): (string, string) {
    var n := IndexOf(piece, '=');
    if n == |piece| then (piece, []) else (piece[..n], piece[n + 1..])
  }

  /** Every piece of a query read as a name=value pair, in order. */
  function Params(pieces: seq<string>): (r: seq<(string, string)>)
    ensures |r| == |pieces|
    ensures forall k :: 0 <= k < |pieces| ==> r[k] == Param(pieces[k])
  {
    if pieces == [] then [] else [Param(pieces[0])] + Params(pieces[1..])
  }

  /** The query of a URL split as written: the text after the first '?' and
      before any '#', split at every '&' into name=value pairs, with nothing
      percent-decoded. For plain names and values this is also what a
      receiving server decodes. */
  function QueryParams(url: string): seq<(string, string)> {
    var start := IndexOf(url, '?');
    var query := if start == |url| then [] else url[start + 1..];
    Params(SplitAt(query[..IndexOf(query, '#')], '&'))
  }

  /** A value a URL carries intact and a server decodes as itself: no '&'
      to end it early, no '#' to start a fragment, and no '%' or '+' that
      percent-decoding would rewrite. */
  predicate Plain(v: string) {
    Lacks(v, '&') && Lacks(v, '#') && Lacks(v, '%') && Lacks(v, '+')
  }

  lemma PlainJoin(a: string, b: string)
    requires Plain(a) && Plain(b)
    ensures Plain(a + b)
  {
    LacksJoin(a, b, '&');
    LacksJoin(a, b, '#');
    LacksJoin(a, b, '%');
    LacksJoin(a, b, '+');
  }

  /** A parameter that reads back as itself: a plain name without '=' and a plain value. */
  predicate WellFormed(p: (string, string)) {
    Plain(p.0) && Lacks(p.0, '=') && Plain(p.1)
  }

  /** `name=value` */
  function Assignment(p: (string, string)): string {
    p.0 + "=" + p.1
  }

  /** The pairs written as a query string, `name=value` joined by '&'. */
  function JoinParams(ps: seq<(string, string)>): string
    requires |ps| >= 1
  {
    if |ps| == 1 then Assignment(ps[0]) else Assignment(ps[0]) + "&" + JoinParams(ps[1..])
  }

  /** Neither URL path the service requests holds a '?'. */
  lemma PathsLackQuery()
    ensures Lacks(TextSearchPath, '?') && Lacks(NearbyPath, '?')
  {
    LacksJoin(PlacesHost, PlaceApi, '?');
    LacksJoin(PlacesHost + PlaceApi, "/textsearch/json", '?');
    LacksJoin(PlacesHost + PlaceApi, "/nearbysearch/json", '?');
  }

  lemma ParamOf(p: (string, string))
    requires Lacks(p.0, '=')
    ensures Param(Assignment(p)) == p
  {
    IndexOfAfter(p.0, '=', p.1);
    assert Assignment(p) == p.0 + ['='] + p.1;
    assert (p.0 + ['='] + p.1)[..|p.0|] == p.0;
    assert (p.0 + ['='] + p.1)[|p.0| + 1..] == p.1;
  }

  lemma AssignmentPlain(p: (string, string))
    requires WellFormed(p)
    ensures Plain(Assignment(p))
  {
    PlainJoin(p.0, "=");
    PlainJoin(p.0 + "=", p.1);
  }

  lemma ParamsCons(piece: string, pieces: seq<string>)
    ensures Params([piece] + pieces) == [Param(piece)] + Params(pieces)
  {
    assert ([piece] + pieces)[1..] == pieces;
  }

  /** One well-formed pair is one piece. */
  lemma SplitOneParam(p: (string, string))
    requires WellFormed(p)
    ensures SplitAt(Assignment(p), '&') == [Assignment(p)]
  {
    AssignmentPlain(p);
    SplitAtNone(Assignment(p), '&');
  }

  /** Splitting two or more joined pairs yields the first pair's piece, then the rest's pieces. */
  lemma SplitJoinedParams(ps: seq<(string, string)>)
    requires |ps| >= 2
    requires WellFormed(ps[0])
    ensures SplitAt(JoinParams(ps), '&') == [Assignment(ps[0])] + SplitAt(JoinParams(ps[1..]), '&')
  {
    assert JoinParams(ps) == Assignment(ps[0]) + ['&'] + JoinParams(ps[1..]);
    AssignmentPlain(ps[0]);
    SplitAtJoined(Assignment(ps[0]), '&', JoinParams(ps[1..]));
  }

  /** Well-formed pairs joined by '&' split back into the same pairs. */
  lemma {:induction false} JoinParamsReadsBack(ps: seq<(string, string)>)
    requires |ps| >= 1
    requires forall i :: 0 <= i < |ps| ==> WellFormed(ps[i])
    ensures Params(SplitAt(JoinParams(ps), '&')) == ps
    decreases |ps|
  {
    ParamOf(ps[0]);
    if |ps| == 1 {
      SplitOneParam(ps[0]);
      ParamsCons(Assignment(ps[0]), []);
    } else {
      JoinParamsReadsBack(ps[1..]);
      SplitJoinedParams(ps);
      ParamsCons(Assignment(ps[0]), SplitAt(JoinParams(ps[1..]), '&'));
      assert [ps[0]] + ps[1..] == ps;
    }
  }

  /** Well-formed pairs joined by '&' hold no '#'. */
  lemma {:induction false} JoinParamsPlain(ps: seq<(string, string)>)
    requires |ps| >= 1
    requires forall i :: 0 <= i < |ps| ==> WellFormed(ps[i])
    ensures Lacks(JoinParams(ps), '#')
    decreases |ps|
  {
    var head := Assignment(ps[0]);
    AssignmentPlain(ps[0]);
    if |ps| > 1 {
      var rest := JoinParams(ps[1..]);
      JoinParamsPlain(ps[1..]);
      assert JoinParams(ps) == head + "&" + rest;
      LacksJoin(head, "&", '#');
      LacksJoin(head + "&", rest, '#');
    }
  }

  /** Reads the query of `path + "?" + rest` when `path` holds no '?' and
      `rest` no fragment. */
  lemma QueryAfterPath(path: string, rest: string)
    requires Lacks(path, '?') && Lacks(rest, '#')
    ensures QueryParams(path + "?" + rest) == Params(SplitAt(rest, '&'))
  {
    var url := path + "?" + rest;
    assert url == path + ['?'] + rest;
    IndexOfAfter(path, '?', rest);
    assert url[|path| + 1..] == rest;
    IndexOfAbsent(rest, '#');
    assert rest[..|rest|] == rest;
  }

  /** A URL built from a path and well-formed pairs carries exactly those pairs. */
  lemma QueryParamsOfUrl(path: string, ps: seq<(string, string)>)
    requires Lacks(path, '?')
    requires |ps| >= 1
    requires forall i :: 0 <= i < |ps| ==> WellFormed(ps[i])
    ensures QueryParams(path + "?" + JoinParams(ps)) == ps
  {
    JoinParamsReadsBack(ps);
    JoinParamsPlain(ps);
    QueryAfterPath(path, JoinParams(ps));
  }

  /** With plain values, the text-search URL carries exactly two parameters:
      the query, verbatim, and the key. */
  lemma TextSearchParams(query: string, apiKey: string)
    requires Plain(query) && Plain(apiKey)
    ensures QueryParams(TextSearchUrl(query, apiKey)) == [("query", query), ("key", apiKey)]
  {
    var ps := [("query", query), ("key", apiKey)];
    assert ps[1..] == [("key", apiKey)];
    assert TextSearchUrl(query, apiKey) == TextSearchPath + "?" + JoinParams(ps);
    PathsLackQuery();
    QueryParamsOfUrl(TextSearchPath, ps);
  }

  /** Joining one more pair appends '&' and its assignment. */
  lemma {:induction false} JoinSnoc(ps: seq<(string, string)>, p: (string, string))
    requires |ps| >= 1
    ensures JoinParams(ps + [p]) == JoinParams(ps) + "&" + Assignment(p)
    decreases |ps|
  {
    var all := ps + [p];
    assert all[0] == ps[0];
    if |ps| == 1 {
      assert all[1..] == [p];
    } else {
      assert all[1..] == ps[1..] + [p];
      JoinSnoc(ps[1..], p);
      ConcatAssoc(Assignment(ps[0]) + "&", JoinParams(ps[1..]) + "&", Assignment(p));
      ConcatAssoc(Assignment(ps[0]) + "&", JoinParams(ps[1..]), "&");
    }
  }

  /** A URL ending in a joined query, extended by '&' and one more assignment. */
  lemma ExtendQuery(url: string, path: string, ps: seq<(string, string)>, p: (string, string))
    requires |ps| >= 1 && url == path + "?" + JoinParams(ps)
    ensures url + "&" + Assignment(p) == path + "?" + JoinParams(ps + [p])
  {
    JoinSnoc(ps, p);
    ConcatAssoc(path + "?", JoinParams(ps) + "&", Assignment(p));
    ConcatAssoc(path + "?", JoinParams(ps), "&");
  }

  /** `url + "&name=" + value` is `url` extended by the assignment `name=value`. */
  lemma AppendAssignment(url: string, name: string, value: string)
    ensures url + ("&" + name + "=") + value == url + "&" + Assignment((name, value))
  {
    ConcatAssoc(url + "&", name + "=", value);
    ConcatAssoc(url, "&", name + "=");
    ConcatAssoc(url, "&" + name, "=");
    ConcatAssoc(url, "&", name);
  }

  /** The nearby-search URL is its path followed by four joined parameters. */
  lemma NearbyUrlJoins(lat: string, lng: string, radius: string, placeType: string, apiKey: string)
    ensures NearbyUrl(lat, lng, radius, placeType, apiKey) == NearbyPath + "?" +
      JoinParams([("location", lat + "," + lng), ("radius", radius), ("type", placeType), ("key", apiKey)])
  {
    var a, b, c, d := ("location", lat + "," + lng), ("radius", radius), ("type", placeType), ("key", apiKey);
    var u0 := NearbyPath + "?location=" + lat + "," + lng;
    assert u0 == NearbyPath + "?" + JoinParams([a]) by {
      assert "?location=" == "?" + "location" + "=";
    }
    var u1 := u0 + "&radius=" + radius;
    assert u1 == NearbyPath + "?" + JoinParams([a, b]) by {
      assert "&radius=" == "&" + "radius" + "=";
      AppendAssignment(u0, "radius", radius);
      ExtendQuery(u0, NearbyPath, [a], b);
      assert [a] + [b] == [a, b];
    }
    var u2 := u1 + "&type=" + placeType;
    assert u2 == NearbyPath + "?" + JoinParams([a, b, c]) by {
      assert "&type=" == "&" + "type" + "=";
      AppendAssignment(u1, "type", placeType);
      ExtendQuery(u1, NearbyPath, [a, b], c);
      assert [a, b] + [c] == [a, b, c];
    }
    var u3 := u2 + "&key=" + apiKey;
    assert u3 == NearbyPath + "?" + JoinParams([a, b, c, d]) by {
      assert "&key=" == "&" + "key" + "=";
      AppendAssignment(u2, "key", apiKey);
      ExtendQuery(u2, NearbyPath, [a, b, c], d);
      assert [a, b, c] + [d] == [a, b, c, d];
    }
  }

  /** With plain values, the nearby-search URL carries four parameters: the
      two coordinates joined by a comma as `location`, then radius, type and key. */
  lemma NearbyParams(lat: string, lng: string, radius: string, placeType: string, apiKey: string)
    requires Plain(lat) && Plain(lng) && Plain(radius) && Plain(placeType) && Plain(apiKey)
    ensures QueryParams(NearbyUrl(lat, lng, radius, placeType, apiKey)) ==
      [("location", lat + "," + lng), ("radius", radius), ("type", placeType), ("key", apiKey)]
  {
    PlainJoin(lat, ",");
    PlainJoin(lat + ",", lng);
    NearbyUrlJoins(lat, lng, radius, placeType, apiKey);
    PathsLackQuery();
    QueryParamsOfUrl(NearbyPath, [("location", lat + "," + lng), ("radius", radius), ("type", placeType), ("key", apiKey)]);
  }

  /** Because the query is not encoded, an '&' in it ends the query early:
      the part after it arrives as a stray parameter of its own. */
  lemma AmpersandSplitsQuery(before: string, after: string, apiKey: string)
    requires Plain(before) && Plain(after) && Lacks(after, '=') && Plain(apiKey)
    ensures QueryParams(TextSearchUrl(before + "&" + after, apiKey)) ==
      [("query", before), (after, []), ("key", apiKey)]
  {
    AmpersandPieces(before, after, apiKey);
    StrayParams(before, after, apiKey);
  }

  /** The three pieces read back as the query, the stray name and the key. */
  lemma StrayParams(before: string, after: string, apiKey: string)
    requires Lacks(after, '=')
    ensures Params([Assignment(("query", before)), after, Assignment(("key", apiKey))]) ==
      [("query", before), (after, []), ("key", apiKey)]
  {
    ParamsOfThree(Assignment(("query", before)), after, Assignment(("key", apiKey)));
    ParamOf(("query", before));
    ParamOf(("key", apiKey));
    ParamBare(after);
  }

  /** A piece without '=' is a name with an empty value. */
  lemma ParamBare(piece: string)
    requires Lacks(piece, '=')
    ensures Param(piece) == (piece, [])
  {
    IndexOfAbsent(piece, '=');
  }

  /** The received query of a search for `before&after` is three pieces. */
  lemma AmpersandPieces(before: string, after: string, apiKey: string)
    requires Plain(before) && Plain(after) && Plain(apiKey)
    ensures QueryParams(TextSearchUrl(before + "&" + after, apiKey)) ==
      Params([Assignment(("query", before)), after, Assignment(("key", apiKey))])
  {
    var first := Assignment(("query", before));
    var last := Assignment(("key", apiKey));
    AmpersandUrlText(before, after, apiKey);
    AssignmentPlain(("query", before));
    AssignmentPlain(("key", apiKey));
    var pieces := StraySplit(first, after, last);
    PathsLackQuery();
    QueryAfterPath(TextSearchPath, first + ['&'] + (after + ['&'] + last));
  }

  lemma ParamsOfThree(a: string, b: string, c: string)
    ensures Params([a, b, c]) == [Param(a), Param(b), Param(c)]
  {
    ParamsCons(c, []);
    ParamsCons(b, [c]);
    ParamsCons(a, [b, c]);
    assert [b] + [c] == [b, c];
    assert [a] + [b, c] == [a, b, c];
  }

  lemma AmpersandUrlText(before: string, after: string, apiKey: string)
    ensures TextSearchUrl(before + "&" + after, apiKey) == TextSearchPath + "?" +
      (Assignment(("query", before)) + ['&'] + (after + ['&'] + Assignment(("key", apiKey))))
  {
    assert "?query=" == "?" + "query" + "=";
    assert "&key=" == ['&'] + "key" + "=";
  }

  /** Three plain pieces joined by '&' split back apart, with no '#' in the join. */
  lemma StraySplit(first: string, after: string, last: string) returns (pieces: seq<string>)
    requires Plain(first) && Plain(after) && Plain(last)
    ensures pieces == [first, after, last]
    ensures SplitAt(first + ['&'] + (after + ['&'] + last), '&') == pieces
    ensures Lacks(first + ['&'] + (after + ['&'] + last), '#')
  {
    pieces := [first, after, last];
    var tail := after + ['&'] + last;
    SplitAtJoined(first, '&', tail);
    SplitAtJoined(after, '&', last);
    SplitAtNone(last, '&');
    LacksJoin(first, ['&'], '#');
    LacksJoin(after, ['&'], '#');
    LacksJoin(after + ['&'], last, '#');
    LacksJoin(first + ['&'], tail, '#');
  }

  /** Searching for "cats&dogs" sends the query "cats" and a stray parameter "dogs". */
  lemma CatsAndDogs()
    ensures QueryParams(TextSearchUrl("cats&dogs", "K")) == [("query", "cats"), ("dogs", ""), ("key", "K")]
  {
    assert "cats&dogs" == "cats" + "&" + "dogs";
    AmpersandSplitsQuery("cats", "dogs", "K");
  }
}
