/** The two request handlers `assetsHandler` and `refreshHandler`
    (cmd/api/main.go) and the route patterns that reach them. A handler is a
    function from the table, its path parameters and the oracles to the
    response, the table afterwards and the interactions it performed. CORS
    headers and logging are not modelled. */
module Handlers {
  import opened Results
  import opened Validation
  import opened Assets
  import opened Store
  import opened Effects
  import opened Refresh

  const Ok200: nat := 200
  const InternalServerError: nat := 500

  datatype Body = Text(text: string) | Json(bundle: Bundle)

  datatype Response = Response(status: nat, body: Body)

  /** What handling one request produced. */
  datatype Served = Served(response: Response, table: Table, effects: seq<Effect>)

  /** Both path parameters pass validation. */
  predicate ValidRequest(chain: string, address: string)
  {
    ValidateChain(chain).Accept? && ValidateAddress(address).Accept?
  }

  /** The response of a request that fails validation: the first failing
      validator, chain before address, decides the message. */
  function Rejection(chain: string, address: string): (r: Response)
    requires !ValidRequest(chain, address)
    ensures r.status == BadRequest
    ensures ValidateChain(chain).Reject? ==> r.body == Text(ValidateChain(chain).message)
    ensures ValidateChain(chain).Accept? ==> r.body == Text(ValidateAddress(address).message)
  {
    var v := if ValidateChain(chain).Reject? then ValidateChain(chain) else ValidateAddress(address);
    Response(v.status, Text(v.message))
  }

  /** The assets handler once the parameters are validated and the lookup
      has answered: a lookup error is a generic 500, otherwise the bundle is
      the 200 body. A read never changes the table, and an invalid request
      gets its 400 before the query. */
  function AnswerAssets(t: Table, chain: string, address: string,
                        found: Result<Bundle, LookupError>): (s: Served)
    ensures s.table == t
    ensures !ValidRequest(chain, address) ==> s.response == Rejection(chain, address) && s.effects == []
    ensures ValidRequest(chain, address) ==> s.effects == [Query(chain, address)]
    ensures ValidRequest(chain, address) && found.Ok? ==> s.response == Response(Ok200, Json(found.value))
    ensures ValidRequest(chain, address) && found.Err? ==>
      s.response == Response(InternalServerError, Text("Internal Server Error\n"))
  {
    if !ValidRequest(chain, address) then Served(Rejection(chain, address), t, [])
    else
      var effects := [Query(chain, address)];
      match found
      case Err(_) => Served(Response(InternalServerError, Text("Internal Server Error\n")), t, effects)
      case Ok(b) => Served(Response(Ok200, Json(b)), t, effects)
  }

  /** `assetsHandler` as written, on the lookup as written: a valid request
      succeeds only for a key that owns no row, and then answers the empty
      bundle; a key that owns a row, or a failing query, gets a 500. */
  function AssetsHandler(t: Table, chain: string, address: string, queryFails: bool): (s: Served)
    ensures s.table == t
    ensures !ValidRequest(chain, address) ==> s.response == Rejection(chain, address) && s.effects == []
    ensures ValidRequest(chain, address) ==> s.effects == [Query(chain, address)]
    ensures s.response.status == Ok200 <==>
      ValidRequest(chain, address) && !queryFails && NoRow(t, chain, address)
    ensures s.response.status == Ok200 ==> s.response.body == Json(EmptyBundle)
    ensures ValidRequest(chain, address) && s.response.status != Ok200 ==>
      s.response == Response(InternalServerError, Text("Internal Server Error\n"))
  {
    AnswerAssets(t, chain, address, LookupAsWritten(t, chain, address, queryFails))
  }

  /** As written, reading any key that owns a row answers 500, even with a
      working query. */
  lemma AssetsHandlerFailsOnCachedKey(t: Table, chain: string, address: string)
    requires ValidRequest(chain, address)
    requires CountRows(t, chain, address) > 0
    ensures AssetsHandler(t, chain, address, false).response
         == Response(InternalServerError, Text("Internal Server Error\n"))
  {
    CountZeroIffNoRow(t, chain, address);
  }

  /** `assetsHandler` on the corrected lookup: 200 with the cached bundle
      (the empty one when nothing is cached) unless the query fails. */
  function FixedAssetsHandler(t: Table, chain: string, address: string, queryFails: bool): (s: Served)
    ensures s.table == t
    ensures !ValidRequest(chain, address) ==> s.response == Rejection(chain, address) && s.effects == []
    ensures ValidRequest(chain, address) ==> s.effects == [Query(chain, address)]
    ensures s.response.status == Ok200 <==> ValidRequest(chain, address) && !queryFails
    ensures s.response.status == Ok200 ==> s.response.body == Json(Lookup(t, chain, address, false).value)
    ensures ValidRequest(chain, address) && queryFails ==>
      s.response == Response(InternalServerError, Text("Internal Server Error\n"))
  {
    AnswerAssets(t, chain, address, Lookup(t, chain, address, queryFails))
  }

  /** `refreshHandler`: validate, then run the refresh; any refresh error is
      a generic 500, success is 200 "OK". */
  function RefreshHandler(t: Table, chain: string, address: string, o: Oracle): (s: Served)
    ensures !ValidRequest(chain, address) ==>
      s.response == Rejection(chain, address) && s.table == t && s.effects == []
    ensures s.response.status == Ok200 <==> ValidRequest(chain, address) && o.AllSucceed()
    ensures s.response.status == Ok200 ==>
      s.response.body == Text("OK\n")
      && s.table == t + [Row(chain, address, Bundle(o.tokens.value, o.nfts.value))]
    ensures s.response.status != Ok200 ==> s.table == t
    ensures ValidRequest(chain, address) && !o.AllSucceed() ==>
      s.response == Response(InternalServerError, Text("Internal Server Error\n"))
    ensures ValidRequest(chain, address) ==> s.effects == RefreshAssets(t, chain, address, o).effects
    ensures s.effects == [] <==> !ValidRequest(chain, address)
  {
    if !ValidRequest(chain, address) then Served(Rejection(chain, address), t, [])
    else
      var run := RefreshAssets(t, chain, address, o);
      if run.err.Some? then
        Served(Response(InternalServerError, Text("Internal Server Error\n")), run.table, run.effects)
      else
        Served(Response(Ok200, Text("OK\n")), run.table, run.effects)
  }

  /** Every cached row was written for a chain and an address that pass
      validation. */
  predicate ValidTable(t: Table)
  {
    forall i :: 0 <= i < |t| ==> ValidRequest(t[i].chain, t[i].address)
  }

  /** Since the refresh handler validates before it writes, the table never
      holds a row for a malformed key, whatever the requests and oracles. */
  lemma RefreshHandlerKeepsTableValid(t: Table, chain: string, address: string, o: Oracle)
    requires ValidTable(t)
    ensures ValidTable(RefreshHandler(t, chain, address, o).table)
  {
    var s := RefreshHandler(t, chain, address, o);
    if s.response.status == Ok200 {
      var row := Row(chain, address, Bundle(o.tokens.value, o.nfts.value));
      assert forall i :: 0 <= i < |t| ==> s.table[i] == t[i];
      assert s.table[|t|] == row;
    }
  }

  // Routing

  /** The values a matched route pattern binds, by wildcard name. */
  type PathParams = map<string, string>

  /** `Request.PathValue`: the bound value, or "" for a name the matched
      pattern has no wildcard for. */
  function PathValue(p: PathParams, name: string): (v: string)
    ensures name in p ==> v == p[name]
    ensures name !in p ==> v == ""
  {
    if name in p then p[name] else ""
  }

  /** Matching `/api/assets/{<chainWildcard>}/{address}[/refresh]` binds the
      two path segments under the two wildcard names. */
  function BindPattern(chainWildcard: string, chainSegment: string, addressSegment: string)
    : PathParams
  {
    map[chainWildcard := chainSegment, "address" := addressSegment]
  }

  /** The wildcard name the registered patterns use for the chain segment. */
  const RegisteredChainWildcard := "network"

  /** The wildcard name the handlers read the chain from. */
  const HandlerChainWildcard := "chain"

  /** A GET of `/api/assets/<chain>/<address>` as routed in the source: the
      pattern names the segment `network`, the handler reads `chain`. */
  function ServeAssetsAsWritten(t: Table, chainSegment: string, addressSegment: string,
                                queryFails: bool): (s: Served)
    ensures s.response == Response(BadRequest, Text(" is not a valid chain name\n"))
    ensures s.table == t && s.effects == []
  {
    var p := BindPattern(RegisteredChainWildcard, chainSegment, addressSegment);
    AssetsHandler(t, PathValue(p, HandlerChainWildcard), PathValue(p, "address"), queryFails)
  }

  /** A GET of `/api/assets/<chain>/<address>/refresh` as routed in the
      source. */
  function ServeRefreshAsWritten(t: Table, chainSegment: string, addressSegment: string,
                                 o: Oracle): (s: Served)
    ensures s.response == Response(BadRequest, Text(" is not a valid chain name\n"))
    ensures s.table == t && s.effects == []
  {
    var p := BindPattern(RegisteredChainWildcard, chainSegment, addressSegment);
    RefreshHandler(t, PathValue(p, HandlerChainWildcard), PathValue(p, "address"), o)
  }

  /** A GET of `/api/assets/<chain>/<address>` with the pattern wildcard
      named as the handler reads it: the handler sees the two segments. The
      corrected lookup is used here too. */
  function ServeAssets(t: Table, chainSegment: string, addressSegment: string,
                       queryFails: bool): (s: Served)
    ensures s == FixedAssetsHandler(t, chainSegment, addressSegment, queryFails)
  {
    var p := BindPattern(HandlerChainWildcard, chainSegment, addressSegment);
    FixedAssetsHandler(t, PathValue(p, HandlerChainWildcard), PathValue(p, "address"), queryFails)
  }

  /** A GET of `/api/assets/<chain>/<address>/refresh` with the corrected
      pattern. */
  function ServeRefresh(t: Table, chainSegment: string, addressSegment: string,
                        o: Oracle): (s: Served)
    ensures s == RefreshHandler(t, chainSegment, addressSegment, o)
  {
    var p := BindPattern(HandlerChainWildcard, chainSegment, addressSegment);
    RefreshHandler(t, PathValue(p, HandlerChainWildcard), PathValue(p, "address"), o)
  }

  /** With the corrected patterns and the corrected lookup, a valid refresh
      followed by a read of a fresh key returns the bundle just fetched. */
  lemma RoutedRefreshThenRead(t: Table, chain: string, address: string, o: Oracle)
    requires ValidRequest(chain, address) && o.AllSucceed()
    requires CountRows(t, chain, address) == 0
    ensures var after := ServeRefresh(t, chain, address, o).table;
      ServeAssets(after, chain, address, false).response
        == Response(Ok200, Json(Bundle(o.tokens.value, o.nfts.value)))
  {
    FirstRefreshIsLookedUp(t, chain, address, o);
  }
}
