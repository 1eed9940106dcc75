/** The two analyze endpoints: `/analyze` (a typed request) and `/analyze2` (a
    hand-read JSON body). Both strip and upper-case the symbol and refuse an empty
    one before any work; because that refusal is raised inside their own
    `except Exception`, it reaches the client re-wrapped as a 500. */
module Endpoints {
  import opened Wrappers
  import opened Strings
  import opened MarketData
  import opened AnalysisCache

  /** The body of `/analyze`. */
  datatype AnalysisRequest = AnalysisRequest(symbol: string, forceRefresh: bool)

  /** A parsed JSON value, as `request.json()` hands it to Python. */
  datatype Json =
    | JNull
    | JBool(b: bool)
    | JInt(i: int)
    | JFloat(x: real)
    | JString(s: string)
    | JArray(items: seq<Json>)
    | JObject(fields: map<string, Json>)

  /** The Python type name of a parsed JSON value. */
  function TypeName(v: Json): string {
    match v
    case JNull => "NoneType"
    case JBool(_) => "bool"
    case JInt(_) => "int"
    case JFloat(_) => "float"
    case JString(_) => "str"
    case JArray(_) => "list"
    case JObject(_) => "dict"
  }

  /** Python truthiness: None, false, zero and empty collections are false. */
  predicate Truthy(v: Json) {
    match v
    case JNull => false
    case JBool(b) => b
    case JInt(i) => i != 0
    case JFloat(x) => x != 0.0
    case JString(t) => t != []
    case JArray(items) => items != []
    case JObject(fields) => fields != map[]
  }

  /** The AttributeError message for a value lacking a method. */
  function MissingAttribute(v: Json, attribute: string): string {
    "'" + TypeName(v) + "' object has no attribute '" + attribute + "'"
  }

  /** What both endpoints answer with. */
  datatype AnalysisResponse = AnalysisResponse(symbol: string, report: string, rawData: Snapshot)

  const SymbolRequired := "Stock symbol is required"

  /** `symbol.strip().upper()`: the upper-cased text between the raw symbol's
      leading and trailing whitespace. */
  function NormalizeSymbol(raw: string): (s: string)
    ensures s == [] <==> forall k :: 0 <= k < |raw| ==> IsSpace(raw[k])
    ensures Upper(s) == s
    ensures s == [] || (!IsSpace(s[0]) && !IsSpace(s[|s| - 1]))
    ensures exists i, t :: SurroundedBySpace(raw, i, t) && (t == [] || (!IsSpace(t[0]) && !IsSpace(t[|t| - 1]))) &&
                           s == Upper(t)
  {
    var t := Strip(raw);
    TrimmedIsSurrounded(raw);
    assert SurroundedBySpace(raw, |raw| - |TrimStart(raw)|, t);
    UpperIdempotent(t);
    if t == [] then t
    else
      UpperCharKeepsSpace(t[0]);
      UpperCharKeepsSpace(t[|t| - 1]);
      Upper(t)
  }

  /** `str(e)` of an HTTPException: "<status>: <detail>", as for the 400 the
      endpoints raise and the 500 `analyze_stock` raises. */
  function Describe(e: HttpError): (d: string)
    ensures e.status == 400 ==> d == "400: " + e.detail
    ensures e.status == 500 ==> d == "500: " + e.detail
  {
    FourHundred();
    FiveHundred();
    DecimalDigits(e.status) + ": " + e.detail
  }

  /** The endpoints' `except Exception` clause: whatever was raised, the client
      gets a 500 whose detail quotes it. */
  function Rewrap(e: HttpError): (w: HttpError)
    ensures w.status == 500
    ensures w.detail == FailurePrefix + DecimalDigits(e.status) + ": " + e.detail
  {
    AnalysisFailure(Describe(e))
  }

  /** The symbol check both endpoints make: the normalised symbol, or, for a
      blank one, the error the client receives. */
  function Validate(raw: string): (r: Result<string, HttpError>)
    ensures r.Err? <==> forall k :: 0 <= k < |raw| ==> IsSpace(raw[k])
    ensures r.Err? ==> r.error.status == 500 && r.error == Rewrap(HttpError(400, SymbolRequired))
    ensures r.Ok? ==> r.value != [] && Upper(r.value) == r.value && r.value == NormalizeSymbol(raw)
  {
    var symbol := NormalizeSymbol(raw);
    if symbol == [] then Err(Rewrap(HttpError(400, SymbolRequired))) else Ok(symbol)
  }

  /** The answer an endpoint gives for `symbol` once `analyze_stock` has answered. */
  function Respond(symbol: string, result: Result<(string, Snapshot), HttpError>): (r: Result<AnalysisResponse, HttpError>)
    ensures result.Ok? ==> r == Ok(AnalysisResponse(symbol, result.value.0, result.value.1))
    ensures result.Err? ==> r == Err(Rewrap(result.error)) && r.error.status == 500
  {
    match result
    case Ok(pair) => Ok(AnalysisResponse(symbol, pair.0, pair.1))
    case Err(e) => Err(Rewrap(e))
  }

  /** `POST /analyze`. A blank symbol is refused before `analyze_stock` runs, so
      the cache is not touched and no work runs. */
  method AnalyzeEndpoint(cache: Cache, request: AnalysisRequest, now: real, up: Upstream)
    returns (r: Result<AnalysisResponse, HttpError>)
    requires cache.Valid() && ValidUpstream(up)
    modifies cache
    ensures cache.Valid()
    ensures match Validate(request.symbol)
            case Err(e) =>
              r == Err(e) && cache.entries == old(cache.entries) && cache.computations == old(cache.computations)
            case Ok(symbol) =>
              var o := AnalyzeOutcome(old(cache.entries), symbol, request.forceRefresh, now, up);
              cache.entries == o.entries && r == Respond(symbol, o.result) &&
              cache.computations == old(cache.computations) + (if o.computed then 1 else 0)
  {
    var symbol := NormalizeSymbol(request.symbol);
    if symbol == [] {
      return Err(Rewrap(HttpError(400, SymbolRequired)));
    }
    var result := cache.AnalyzeStock(symbol, request.forceRefresh, now, up);
    return Respond(symbol, result);
  }

  /** What `/analyze2` reads from its body: `body.get("symbol", "")`, which must
      be a string to be stripped, and `body.get("force_refresh", False)`, which
      `analyze_stock` only tests for truthiness. A body that is not an object, or
      a symbol that is not a string, raises AttributeError, which the handler
      turns into a 500. */
  function ReadBody(body: Json): (r: Result<(string, bool), HttpError>)
    ensures r.Err? <==> !body.JObject? || ("symbol" in body.fields && !body.fields["symbol"].JString?)
    ensures !body.JObject? ==> r == Err(AnalysisFailure(MissingAttribute(body, "get")))
    ensures r.Err? && body.JObject? ==> r == Err(AnalysisFailure(MissingAttribute(body.fields["symbol"], "strip")))
    ensures r.Ok? ==> r.value.0 == if "symbol" in body.fields then body.fields["symbol"].s else ""
    ensures r.Ok? ==> (r.value.1 <==> "force_refresh" in body.fields && Truthy(body.fields["force_refresh"]))
  {
    if !body.JObject? then Err(AnalysisFailure(MissingAttribute(body, "get")))
    else
      var symbol := if "symbol" in body.fields then body.fields["symbol"] else JString("");
      if !symbol.JString? then Err(AnalysisFailure(MissingAttribute(symbol, "strip")))
      else
        var force := if "force_refresh" in body.fields then body.fields["force_refresh"] else JBool(false);
        Ok((symbol.s, Truthy(force)))
  }

  /** `force_refresh` is taken by truthiness: the string "false" forces a
      refresh, while 0, null or an absent field do not. */
  lemma ForceRefreshByTruthiness(symbol: string)
    ensures ReadBody(JObject(map["symbol" := JString(symbol), "force_refresh" := JString("false")])) == Ok((symbol, true))
    ensures ReadBody(JObject(map["symbol" := JString(symbol), "force_refresh" := JInt(0)])) == Ok((symbol, false))
    ensures ReadBody(JObject(map["symbol" := JString(symbol), "force_refresh" := JNull])) == Ok((symbol, false))
    ensures ReadBody(JObject(map["symbol" := JString(symbol)])) == Ok((symbol, false))
  {
  }

  /** `POST /analyze2`: the same as `/analyze`, on the fields read from the raw
      JSON body. */
  method AnalyzeDirect(cache: Cache, body: Json, now: real, up: Upstream)
    returns (r: Result<AnalysisResponse, HttpError>)
    requires cache.Valid() && ValidUpstream(up)
    modifies cache
    ensures cache.Valid()
    ensures match ReadBody(body)
            case Err(e) =>
              r == Err(e) && cache.entries == old(cache.entries) && cache.computations == old(cache.computations)
            case Ok(fields) =>
              match Validate(fields.0)
              case Err(e) =>
                r == Err(e) && cache.entries == old(cache.entries) && cache.computations == old(cache.computations)
              case Ok(symbol) =>
                var o := AnalyzeOutcome(old(cache.entries), symbol, fields.1, now, up);
                cache.entries == o.entries && r == Respond(symbol, o.result) &&
                cache.computations == old(cache.computations) + (if o.computed then 1 else 0)
  {
    if !body.JObject? {
      return Err(AnalysisFailure(MissingAttribute(body, "get")));
    }
    var rawSymbol := if "symbol" in body.fields then body.fields["symbol"] else JString("");
    if !rawSymbol.JString? {
      return Err(AnalysisFailure(MissingAttribute(rawSymbol, "strip")));
    }
    var symbol := NormalizeSymbol(rawSymbol.s);
    var forceRefresh := if "force_refresh" in body.fields then body.fields["force_refresh"] else JBool(false);
    if symbol == [] {
      return Err(Rewrap(HttpError(400, SymbolRequired)));
    }
    var result := cache.AnalyzeStock(symbol, Truthy(forceRefresh), now, up);
    return Respond(symbol, result);
  }

  lemma FiveHundred()
    ensures DecimalDigits(500) == "500"
  {
    assert DecimalDigits(5) == "5";
    assert DecimalDigits(50) == DecimalDigits(5) + [DigitChar(0)] == "50";
    assert DecimalDigits(500) == DecimalDigits(50) + [DigitChar(0)];
  }

  lemma FourHundred()
    ensures DecimalDigits(400) == "400"
  {
    assert DecimalDigits(4) == "4";
    assert DecimalDigits(40) == DecimalDigits(4) + [DigitChar(0)] == "40";
    assert DecimalDigits(400) == DecimalDigits(40) + [DigitChar(0)];
  }

  /** A blank symbol never reaches the client as the 400 the code raises: the
      status is 500, and the detail names the 400 inside it. */
  lemma BlankSymbolIsServerError(raw: string)
    requires forall k :: 0 <= k < |raw| ==> IsSpace(raw[k])
    ensures Validate(raw).Err?
    ensures Validate(raw).error.status == 500
    ensures Validate(raw).error.detail == FailurePrefix + ("400: " + SymbolRequired)
  {
  }

  /** A failure inside `analyze_stock` is wrapped twice: once there, and once
      more by the endpoint's own handler. */
  lemma AnalysisFailureIsWrappedTwice(symbol: string, message: string)
    ensures Respond(symbol, Err(AnalysisFailure(message))) ==
            Err(HttpError(500, FailurePrefix + ("500: " + (FailurePrefix + message))))
  {
  }
}
