/**
 * src/asset_api.rs: the spot balances, all at once (v1) or for one coin (v2).
 */
module AssetApi {
  import opened Wrappers
  import opened Strings
  import opened Consts
  import opened Utils
  import opened Client

  const ASSETS_PATH: string := "/api/spot/v1/account/assets"
  const ASSET_V2_PATH: string := "/api/v2/spot/account/assets"

  function AssetsCall(): ApiCall
  {
    ApiCall(GET, ASSETS_PATH, map[])
  }

  function AssetV2Call(coin: string): ApiCall
  {
    ApiCall(GET, ASSET_V2_PATH, map["coin" := coin])
  }

  /** `get_assets`: an empty map. */
  method GetAssets(c: BitgetClient, nowMillis: int, mac: Mac, transport: Transport)
    returns (r: Result<string, Error>)
    ensures r == Execute(c, AssetsCall(), nowMillis, mac, transport)
  {
    var params: Params := map[];
    r := Request(c, GET, ASSETS_PATH, params, nowMillis, mac, transport);
  }

  /** `get_asset_v2`. */
  method GetAssetV2(c: BitgetClient, coin: string, nowMillis: int, mac: Mac, transport: Transport)
    returns (r: Result<string, Error>)
    ensures r == Execute(c, AssetV2Call(coin), nowMillis, mac, transport)
  {
    var params: Params := map[];
    params := params["coin" := coin];
    r := Request(c, GET, ASSET_V2_PATH, params, nowMillis, mac, transport);
  }

  /** The empty query still leaves its `?`, and there is no body. */
  lemma AssetsRequest()
    ensures var call := AssetsCall();
      && FullPath(call.verb, call.path, call.params) == ASSETS_PATH + "?"
      && SignedBody(call.verb, call.params) == ""
  {
    assert BuildQuery(map[]) == "";
  }

  /** The one-coin query, with no body. */
  lemma AssetV2Request(coin: string)
    ensures var call := AssetV2Call(coin);
      && FullPath(call.verb, call.path, call.params) == ASSET_V2_PATH + "?coin=" + coin
      && SignedBody(call.verb, call.params) == ""
  {
    PathOfOne(ASSET_V2_PATH, "coin", coin);
    AssetQuerySeparators();
  }

  /** End to end: the URL ends in the bare `?`, and the same text is what is
      signed after the timestamp and the verb. */
  lemma AssetsSigned(c: BitgetClient, nowMillis: int, mac: Mac)
    requires Prepare(c, SIGN_TYPE, GET, ASSETS_PATH, map[], nowMillis, mac).Ok?
    ensures var req := Prepare(c, SIGN_TYPE, GET, ASSETS_PATH, map[], nowMillis, mac).value;
      && req.url == c.baseUrl + ASSETS_PATH + "?"
      && req.body == None
      && "access-sign" in req.headers
      && req.headers["access-sign"] == Sign(mac, IntString(nowMillis) + GET + ASSETS_PATH + "?", c.apiSecretKey)
  {
    AssetsRequest();
    var req := Prepare(c, SIGN_TYPE, GET, ASSETS_PATH, map[], nowMillis, mac).value;
    SignatureCoversTransmitted(c, SIGN_TYPE, GET, ASSETS_PATH, map[], nowMillis, mac, req);
    assert req.url[|c.baseUrl|..] == ASSETS_PATH + "?";
    assert req.headers["access-timestamp"] == IntString(nowMillis);
    assert PreHash(IntString(nowMillis), GET, ASSETS_PATH + "?", "") == IntString(nowMillis) + GET + ASSETS_PATH + "?";
  }

  /** The separators of this module's queries, each joined to its key: the
      string-literal merges the path lemmas need, proved once here. */
  lemma AssetQuerySeparators()
    ensures "?" + "coin" + "=" == "?coin="
  {
    assert "?" + "coin" + "=" == "?coin=";
  }
}
