/**
 * src/account_api.rs: the futures account, its positions, and the leverage
 * setting. Each wrapper fills a parameter map entry by entry and sends it;
 * the `...Call` functions say what it sends.
 */
module AccountApi {
  import opened Wrappers
  import opened Strings
  import opened JsonValues
  import opened Consts
  import opened Utils
  import opened Client

  const ACCOUNT_PATH: string := "/api/mix/v1/account/account"
  const POSITIONS_PATH: string := "/api/mix/v1/position/allPosition"
  const LEVERAGE_PATH: string := "/api/mix/v1/account/setLeverage"

  function AccountInfoCall(symbol: string, marginCoin: string): ApiCall
  {
    ApiCall(GET, ACCOUNT_PATH, map["marginCoin" := marginCoin, "symbol" := symbol])
  }

  function PositionsCall(symbol: string, marginCoin: string): ApiCall
  {
    ApiCall(GET, POSITIONS_PATH, map["marginCoin" := marginCoin, "symbol" := symbol])
  }

  function SetLeverageCall(symbol: string, marginCoin: string, leverage: string, holdSide: string): ApiCall
  {
    ApiCall(POST, LEVERAGE_PATH,
            map["holdSide" := holdSide, "leverage" := leverage, "marginCoin" := marginCoin, "symbol" := symbol])
  }

  /** `get_account_info`. */
  method GetAccountInfo(c: BitgetClient, symbol: string, marginCoin: string,
                        nowMillis: int, mac: Mac, transport: Transport)
    returns (r: Result<string, Error>)
    ensures r == Execute(c, AccountInfoCall(symbol, marginCoin), nowMillis, mac, transport)
  {
    var params: Params := map[];
    params := params["symbol" := symbol];
    params := params["marginCoin" := marginCoin];
    assert params == AccountInfoCall(symbol, marginCoin).params;
    r := Request(c, GET, ACCOUNT_PATH, params, nowMillis, mac, transport);
  }

  /** `get_positions`. */
  method GetPositions(c: BitgetClient, symbol: string, marginCoin: string,
                      nowMillis: int, mac: Mac, transport: Transport)
    returns (r: Result<string, Error>)
    ensures r == Execute(c, PositionsCall(symbol, marginCoin), nowMillis, mac, transport)
  {
    var params: Params := map[];
    params := params["symbol" := symbol];
    params := params["marginCoin" := marginCoin];
    assert params == PositionsCall(symbol, marginCoin).params;
    r := Request(c, GET, POSITIONS_PATH, params, nowMillis, mac, transport);
  }

  /** `set_leverage`. */
  method SetLeverage(c: BitgetClient, symbol: string, marginCoin: string, leverage: string, holdSide: string,
                     nowMillis: int, mac: Mac, transport: Transport)
    returns (r: Result<string, Error>)
    ensures r == Execute(c, SetLeverageCall(symbol, marginCoin, leverage, holdSide), nowMillis, mac, transport)
  {
    var params: Params := map[];
    params := params["symbol" := symbol];
    params := params["marginCoin" := marginCoin];
    params := params["leverage" := leverage];
    params := params["holdSide" := holdSide];
    assert params == SetLeverageCall(symbol, marginCoin, leverage, holdSide).params;
    r := Request(c, POST, LEVERAGE_PATH, params, nowMillis, mac, transport);
  }

  /** The account query is signed and sent with marginCoin before symbol, and no body. */
  lemma AccountInfoRequest(symbol: string, marginCoin: string)
    ensures var call := AccountInfoCall(symbol, marginCoin);
      && FullPath(call.verb, call.path, call.params)
         == ACCOUNT_PATH + "?marginCoin=" + marginCoin + "&symbol=" + symbol
      && SignedBody(call.verb, call.params) == ""
  {
    PathOfTwo(ACCOUNT_PATH, "marginCoin", marginCoin, "symbol", symbol);
    AccountQuerySeparators();
  }

  /** The positions query has the same shape on its own path. */
  lemma PositionsRequest(symbol: string, marginCoin: string)
    ensures var call := PositionsCall(symbol, marginCoin);
      && FullPath(call.verb, call.path, call.params)
         == POSITIONS_PATH + "?marginCoin=" + marginCoin + "&symbol=" + symbol
      && SignedBody(call.verb, call.params) == ""
  {
    PathOfTwo(POSITIONS_PATH, "marginCoin", marginCoin, "symbol", symbol);
    AccountQuerySeparators();
  }

  /** The leverage change carries no query; its four fields travel, key-ordered,
      in the signed JSON body. */
  lemma SetLeverageRequest(symbol: string, marginCoin: string, leverage: string, holdSide: string)
    ensures var call := SetLeverageCall(symbol, marginCoin, leverage, holdSide);
      && FullPath(call.verb, call.path, call.params) == LEVERAGE_PATH
      && SignedBody(call.verb, call.params)
         == "{" + Member("holdSide", holdSide) + "," + Member("leverage", leverage) + ","
            + Member("marginCoin", marginCoin) + "," + Member("symbol", symbol) + "}"
  {
    ParamsJsonOfFour("holdSide", holdSide, "leverage", leverage, "marginCoin", marginCoin, "symbol", symbol);
  }

  /** End to end: the URL and the signed pre-hash carry the same
      `marginCoin=...&symbol=...` path, and nothing else is signed. */
  lemma AccountInfoSigned(c: BitgetClient, symbol: string, marginCoin: string, nowMillis: int, mac: Mac)
    requires Prepare(c, SIGN_TYPE, GET, ACCOUNT_PATH, AccountInfoCall(symbol, marginCoin).params,
                     nowMillis, mac).Ok?
    ensures var req := Prepare(c, SIGN_TYPE, GET, ACCOUNT_PATH, AccountInfoCall(symbol, marginCoin).params,
                               nowMillis, mac).value;
      var path := ACCOUNT_PATH + "?marginCoin=" + marginCoin + "&symbol=" + symbol;
      && req.url == c.baseUrl + path
      && req.body == None
      && "access-sign" in req.headers
      && req.headers["access-sign"] == Sign(mac, IntString(nowMillis) + GET + path, c.apiSecretKey)
  {
    var params := AccountInfoCall(symbol, marginCoin).params;
    AccountInfoRequest(symbol, marginCoin);
    var req := Prepare(c, SIGN_TYPE, GET, ACCOUNT_PATH, params, nowMillis, mac).value;
    SignatureCoversTransmitted(c, SIGN_TYPE, GET, ACCOUNT_PATH, params, nowMillis, mac, req);
    var path := ACCOUNT_PATH + "?marginCoin=" + marginCoin + "&symbol=" + symbol;
    assert req.url[|c.baseUrl|..] == path;
    assert req.headers["access-timestamp"] == IntString(nowMillis);
    assert PreHash(IntString(nowMillis), GET, path, "") == IntString(nowMillis) + GET + path;
  }

  /** The separators of this module's queries, each joined to its key: the
      string-literal merges the path lemmas need, proved once here. */
  lemma AccountQuerySeparators()
    ensures "?" + "marginCoin" + "=" == "?marginCoin="
    ensures "&" + "symbol" + "=" == "&symbol="
  {
    assert "?" + "marginCoin" + "=" == "?marginCoin=";
    assert "&" + "symbol" + "=" == "&symbol=";
  }
}
