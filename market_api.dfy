/**
 * src/market_api.rs: spot tickers, candles and order-book depth, and the
 * extraction of the first ticker from the v2 envelope.
 */
module MarketApi {
  import opened Wrappers
  import opened Strings
  import opened JsonValues
  import opened Consts
  import opened Utils
  import opened Client
  import opened Exceptions

  const TICKER_PATH: string := "/api/spot/v1/market/ticker"
  const TICKER_V2_PATH: string := "/api/v2/spot/market/tickers"
  const CANDLES_PATH: string := "/api/v2/spot/market/candles"
  const DEPTH_PATH: string := "/api/v2/spot/market/orderbook"

  function TickerCall(symbol: string): ApiCall
  {
    ApiCall(GET, TICKER_PATH, map["symbol" := symbol])
  }

  function TickerV2Call(symbol: string): ApiCall
  {
    ApiCall(GET, TICKER_V2_PATH, map["symbol" := symbol])
  }

  /** A present limit is one more entry, in decimal. */
  function CandlesCall(symbol: string, period: string, limit: Option<u32>): ApiCall
  {
    var params := map["period" := period, "symbol" := symbol];
    ApiCall(GET, CANDLES_PATH, if limit.Some? then params["limit" := NatString(limit.value)] else params)
  }

  function DepthCall(symbol: string, limit: Option<u32>): ApiCall
  {
    var params := map["symbol" := symbol];
    ApiCall(GET, DEPTH_PATH, if limit.Some? then params["limit" := NatString(limit.value)] else params)
  }

  /** `get_ticker`. */
  method GetTicker(c: BitgetClient, symbol: string, nowMillis: int, mac: Mac, transport: Transport)
    returns (r: Result<string, Error>)
    ensures r == Execute(c, TickerCall(symbol), nowMillis, mac, transport)
  {
    var params: Params := map[];
    params := params["symbol" := symbol];
    r := Request(c, GET, TICKER_PATH, params, nowMillis, mac, transport);
  }

  /** What `get_ticker_v2` makes of the answer: the first element of "data",
      re-serialized, when the code is the string "00000". */
  function TickerV2Result(response: Result<string, Error>, parse: Parser): (r: Result<string, Error>)
    ensures response.Err? ==> r == response
    ensures response.Ok? && parse(response.value).None? ==> r == Err(DecodeFailed)
    ensures response.Ok? && parse(response.value).Some? ==>
      var v := parse(response.value).value;
      var data := Index(v, "data");
      && (r.Ok? <==> Index(v, "code") == JString(SUCCESS_CODE) && data.JArray? && |data.items| > 0)
      && (r.Ok? ==> r.value == Serialize(data.items[0]))
      && (Index(v, "code") == JString(SUCCESS_CODE) && r.Err? ==> r.error == NoTickerData(response.value))
      && (Index(v, "code") != JString(SUCCESS_CODE) ==> r == Err(TickerError(response.value)))
  {
    match response
    case Err(e) => Err(e)
    case Ok(text) =>
      match parse(text)
      case None => Err(DecodeFailed)
      case Some(v) =>
        if Index(v, "code") == JString(SUCCESS_CODE) then
          match Index(v, "data")
          case JArray(items) => if |items| > 0 then Ok(Serialize(items[0])) else Err(NoTickerData(text))
          case _ => Err(NoTickerData(text))
        else Err(TickerError(text))
  }

  /** `get_ticker_v2`: the request, then the envelope checks one by one. */
  method GetTickerV2(c: BitgetClient, symbol: string, nowMillis: int, mac: Mac, transport: Transport,
                     parse: Parser)
    returns (r: Result<string, Error>)
    ensures r == TickerV2Result(Execute(c, TickerV2Call(symbol), nowMillis, mac, transport), parse)
  {
    var params: Params := map[];
    params := params["symbol" := symbol];
    var resp := Request(c, GET, TICKER_V2_PATH, params, nowMillis, mac, transport);
    if resp.Err? {
      return Err(resp.error);
    }
    var v := parse(resp.value);
    if v.None? {
      return Err(DecodeFailed);
    }
    if Index(v.value, "code") == JString(SUCCESS_CODE) {
      var data := Index(v.value, "data");
      if data.JArray? && |data.items| > 0 {
        return Ok(Serialize(data.items[0]));
      }
      return Err(NoTickerData(resp.value));
    } else {
      return Err(TickerError(resp.value));
    }
  }

  /** `get_candles`. */
  method GetCandles(c: BitgetClient, symbol: string, period: string, limit: Option<u32>,
                    nowMillis: int, mac: Mac, transport: Transport)
    returns (r: Result<string, Error>)
    ensures r == Execute(c, CandlesCall(symbol, period, limit), nowMillis, mac, transport)
  {
    var params: Params := map[];
    params := params["symbol" := symbol];
    params := params["period" := period];
    match limit {
      case Some(limitVal) =>
        params := params["limit" := NatString(limitVal)];
      case None =>
    }
    assert params == CandlesCall(symbol, period, limit).params;
    r := Request(c, GET, CANDLES_PATH, params, nowMillis, mac, transport);
  }

  /** `get_depth`. */
  method GetDepth(c: BitgetClient, symbol: string, limit: Option<u32>,
                  nowMillis: int, mac: Mac, transport: Transport)
    returns (r: Result<string, Error>)
    ensures r == Execute(c, DepthCall(symbol, limit), nowMillis, mac, transport)
  {
    var params: Params := map[];
    params := params["symbol" := symbol];
    match limit {
      case Some(limitVal) =>
        params := params["limit" := NatString(limitVal)];
      case None =>
    }
    assert params == DepthCall(symbol, limit).params;
    r := Request(c, GET, DEPTH_PATH, params, nowMillis, mac, transport);
  }

  /** Both ticker versions ask for the symbol alone. */
  lemma TickerRequests(symbol: string)
    ensures var call := TickerCall(symbol);
      FullPath(call.verb, call.path, call.params) == TICKER_PATH + "?symbol=" + symbol
    ensures var call := TickerV2Call(symbol);
      FullPath(call.verb, call.path, call.params) == TICKER_V2_PATH + "?symbol=" + symbol
  {
    PathOfOne(TICKER_PATH, "symbol", symbol);
    PathOfOne(TICKER_V2_PATH, "symbol", symbol);
    MarketQuerySeparators();
  }

  /** The candle query: the limit in decimal exactly when one is given, then
      period and symbol. */
  lemma CandlesRequest(symbol: string, period: string, limit: Option<u32>)
    ensures var call := CandlesCall(symbol, period, limit);
      limit.None? ==>
      FullPath(call.verb, call.path, call.params) == CANDLES_PATH + "?period=" + period + "&symbol=" + symbol
    ensures var call := CandlesCall(symbol, period, limit);
      limit.Some? ==>
      FullPath(call.verb, call.path, call.params)
      == CANDLES_PATH + "?limit=" + NatString(limit.value) + "&period=" + period + "&symbol=" + symbol
  {
    if limit.Some? {
      CandlesPathWithLimit(symbol, period, NatString(limit.value));
    } else {
      CandlesPathWithout(symbol, period);
    }
  }

  lemma CandlesPathWithout(symbol: string, period: string)
    ensures FullPath(GET, CANDLES_PATH, map["period" := period, "symbol" := symbol])
         == CANDLES_PATH + "?period=" + period + "&symbol=" + symbol
  {
    PathOfTwo(CANDLES_PATH, "period", period, "symbol", symbol);
    MarketQuerySeparators();
  }

  lemma CandlesPathWithLimit(symbol: string, period: string, n: string)
    ensures FullPath(GET, CANDLES_PATH, map["period" := period, "symbol" := symbol]["limit" := n])
         == CANDLES_PATH + "?limit=" + n + "&period=" + period + "&symbol=" + symbol
  {
    assert map["period" := period, "symbol" := symbol]["limit" := n]
        == map["limit" := n, "period" := period, "symbol" := symbol];
    CandlesPathSorted(symbol, period, n);
  }

  lemma CandlesPathSorted(symbol: string, period: string, n: string)
    ensures FullPath(GET, CANDLES_PATH, map["limit" := n, "period" := period, "symbol" := symbol])
         == CANDLES_PATH + "?limit=" + n + "&period=" + period + "&symbol=" + symbol
  {
    assert Below("limit", "period") && Below("period", "symbol");
    PathOfThree(CANDLES_PATH, "limit", n, "period", period, "symbol", symbol);
    MarketQuerySeparators();
  }

  /** The depth query: the limit in decimal exactly when one is given, then the symbol. */
  lemma DepthRequest(symbol: string, limit: Option<u32>)
    ensures var call := DepthCall(symbol, limit);
      limit.None? ==> FullPath(call.verb, call.path, call.params) == DEPTH_PATH + "?symbol=" + symbol
    ensures var call := DepthCall(symbol, limit);
      limit.Some? ==>
      FullPath(call.verb, call.path, call.params)
      == DEPTH_PATH + "?limit=" + NatString(limit.value) + "&symbol=" + symbol
  {
    if limit.Some? {
      DepthPathWithLimit(symbol, NatString(limit.value));
    } else {
      PathOfOne(DEPTH_PATH, "symbol", symbol);
      MarketQuerySeparators();
    }
  }

  lemma DepthPathWithLimit(symbol: string, n: string)
    ensures FullPath(GET, DEPTH_PATH, map["symbol" := symbol]["limit" := n])
         == DEPTH_PATH + "?limit=" + n + "&symbol=" + symbol
  {
    assert map["symbol" := symbol]["limit" := n] == map["limit" := n, "symbol" := symbol];
    assert Below("limit", "symbol");
    PathOfTwo(DEPTH_PATH, "limit", n, "symbol", symbol);
    MarketQuerySeparators();
  }

  /** The two envelope checks agree: a body from which a ticker is extracted is
      never an error envelope. */
  lemma TickerNeverFromErrorEnvelope(text: string, parse: Parser)
    requires TickerV2Result(Ok(text), parse).Ok?
    ensures ParseErrorResponse(parse, text).None?
  {
  }

  /** ... and an error envelope always fails the ticker extraction as a ticker error. */
  lemma ErrorEnvelopeFailsTicker(text: string, parse: Parser)
    requires ParseErrorResponse(parse, text).Some?
    ensures TickerV2Result(Ok(text), parse) == Err(TickerError(text))
  {
    var v := parse(text).value;
    assert Get(v, "code").Some? && Get(v, "code").value.JString?;
    assert Index(v, "code") == Get(v, "code").value;
  }

  /** The separators of this module's queries, each joined to its key: the
      string-literal merges the path lemmas need, proved once here. */
  lemma MarketQuerySeparators()
    ensures "?" + "symbol" + "=" == "?symbol="
    ensures "?" + "period" + "=" == "?period="
    ensures "&" + "symbol" + "=" == "&symbol="
    ensures "?" + "limit" + "=" == "?limit="
    ensures "&" + "period" + "=" == "&period="
  {
    assert "?" + "symbol" + "=" == "?symbol=";
    assert "?" + "period" + "=" == "?period=";
    assert "&" + "symbol" + "=" == "&symbol=";
    assert "?" + "limit" + "=" == "?limit=";
    assert "&" + "period" + "=" == "&period=";
  }
}
