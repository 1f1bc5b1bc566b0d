/**
 * src/order_api.rs: placing a spot order, cancelling one or several orders,
 * and reading the typed cancel response. Every call here is a POST, so its
 * parameters travel as the signed JSON body and the path carries no query.
 */
module OrderApi {
  import opened Wrappers
  import opened Strings
  import opened JsonValues
  import opened Consts
  import opened Utils
  import opened Client

  const PLACE_SPOT_ORDER_PATH: string := "/api/v2/spot/trade/place-order"
  const CANCEL_FUTURES_ORDER_PATH: string := "/api/mix/v1/order/cancel-order"
  const CANCEL_SPOT_ORDER_PATH: string := "/api/v2/spot/trade/cancel-order"
  const BATCH_CANCEL_SPOT_PATH: string := "/api/v2/spot/trade/batch-cancel-order"
  const CANCEL_FUTURES_ORDERS_PATH: string := "/api/mix/v1/order/cancel-batch-orders"
  const CANCEL_SPOT_SYMBOL_PATH: string := "/api/v2/spot/trade/cancel-symbol-order"

  /** `SpotOrderV2Req`. */
  datatype SpotOrderV2Req = SpotOrderV2Req(
    symbol: string, side: string, orderType: string, force: string,
    price: Option<string>, size: string, clientOid: Option<string>)

  // ---------------------------------------------------------------------------
  // What each call sends
  // ---------------------------------------------------------------------------

  /** The price is one more entry when it is given; the client order id never is. */
  function PlaceSpotOrderCall(req: SpotOrderV2Req): ApiCall
  {
    ApiCall(POST, PLACE_SPOT_ORDER_PATH,
            if req.price.Some? then
              map["force" := req.force, "orderType" := req.orderType, "price" := req.price.value,
                  "side" := req.side, "size" := req.size, "symbol" := req.symbol]
            else
              map["force" := req.force, "orderType" := req.orderType,
                  "side" := req.side, "size" := req.size, "symbol" := req.symbol])
  }

  function CancelFuturesOrderCall(symbol: string, orderId: string, marginCoin: string): ApiCall
  {
    ApiCall(POST, CANCEL_FUTURES_ORDER_PATH,
            map["marginCoin" := marginCoin, "orderId" := orderId, "symbol" := symbol])
  }

  function CancelSpotOrderCall(symbol: string, orderId: string): ApiCall
  {
    ApiCall(POST, CANCEL_SPOT_ORDER_PATH, map["orderId" := orderId, "symbol" := symbol])
  }

  /** The ids travel as one comma-separated value. */
  function CancelFuturesOrdersCall(symbol: string, orderIds: seq<string>, marginCoin: string): ApiCall
  {
    ApiCall(POST, CANCEL_FUTURES_ORDERS_PATH,
            map["marginCoin" := marginCoin, "orderIds" := Join(orderIds, ","), "symbol" := symbol])
  }

  function CancelSpotSymbolOrdersCall(symbol: string): ApiCall
  {
    ApiCall(POST, CANCEL_SPOT_SYMBOL_PATH, map["symbol" := symbol])
  }

  /** The local `OrderItem` of `batch_cancel_spot_order`, serialized: its fields in
      declaration order, without `client_oid`, which is always None and skipped. */
  function OrderItem(orderId: string, symbol: string): (v: Json)
    ensures Get(v, "order_id") == Some(JString(orderId))
    ensures Get(v, "symbol") == Some(JString(symbol))
    ensures Get(v, "client_oid") == None
  {
    var fields := [("order_id", JString(orderId)), ("symbol", JString(symbol))];
    assert fields[1..] == [("symbol", JString(symbol))];
    assert "order_id" != "symbol" by { assert |"order_id"| != |"symbol"|; }
    assert Lookup(fields[1..], "symbol") == Some(JString(symbol));
    JObject(fields)
  }

  /** The collected item list: one item per id, in input order. */
  function OrderListValue(symbol: string, orderIds: seq<string>): (v: Json)
    ensures v.JArray? && |v.items| == |orderIds|
    ensures forall i :: 0 <= i < |orderIds| ==>
      && Get(v.items[i], "order_id") == Some(JString(orderIds[i]))
      && Get(v.items[i], "symbol") == Some(JString(symbol))
      && Get(v.items[i], "client_oid") == None
  {
    JArray(seq(|orderIds|, i requires 0 <= i < |orderIds| => OrderItem(orderIds[i], symbol)))
  }

  /** `serde_json::to_string(&order_list)`. */
  function OrderList(symbol: string, orderIds: seq<string>): string
  {
    Serialize(OrderListValue(symbol, orderIds))
  }

  function BatchCancelCall(symbol: string, orderIds: seq<string>): ApiCall
  {
    ApiCall(POST, BATCH_CANCEL_SPOT_PATH,
            map["batchMode" := "multiple", "orderList" := OrderList(symbol, orderIds), "symbol" := symbol])
  }

  // ---------------------------------------------------------------------------
  // The typed cancel response
  // ---------------------------------------------------------------------------

  /** `CancelOrderResp`; `BatchCancelOrderResp` has the same fields and is read
      the same way. */
  datatype CancelOrderResp = CancelOrderResp(
    code: string, msg: Option<string>, requestTime: Option<u64>, data: Option<Json>)

  /** An `Option<String>` field: absent or null is None, a string is Some, any
      other value is a decoding error (the outer None). */
  function OptionalString(f: Option<Json>): (r: Option<Option<string>>)
    ensures r.Some? && r.value.Some? ==> f == Some(JString(r.value.value))
    ensures r.Some? && r.value.None? ==> f.None? || f == Some(JNull)
    ensures r.None? <==> f.Some? && !f.value.JNull? && !f.value.JString?
  {
    match f
    case None => Some(None)
    case Some(JNull) => Some(None)
    case Some(JString(s)) => Some(Some(s))
    case Some(_) => None
  }

  /** An `Option<u64>` field: absent or null is None, an integer in range is
      Some, anything else (a negative, too large or fractional number, a string)
      is a decoding error. */
  function OptionalU64(f: Option<Json>): (r: Option<Option<u64>>)
    ensures r.Some? && r.value.Some? ==> f == Some(JInt(r.value.value))
    ensures r.Some? && r.value.None? ==> f.None? || f == Some(JNull)
    ensures r.None? <==> f.Some? && !f.value.JNull?
                         && !(f.value.JInt? && 0 <= f.value.i < 0x1_0000_0000_0000_0000)
  {
    match f
    case None => Some(None)
    case Some(JNull) => Some(None)
    case Some(JInt(i)) => if 0 <= i < 0x1_0000_0000_0000_0000 then Some(Some(i)) else None
    case Some(_) => None
  }

  /** An `Option<Value>` field: absent and null both give None. */
  function OptionalValue(f: Option<Json>): (r: Option<Json>)
    ensures r.Some? ==> f == r && r.value != JNull
    ensures r.None? ==> f.None? || f == Some(JNull)
  {
    match f
    case None => None
    case Some(JNull) => None
    case Some(v) => Some(v)
  }

  /** Deserializing a `CancelOrderResp` (fields in camelCase; unknown fields are
      ignored): an object whose "code" is a string and whose "msg" and
      "requestTime", where present and not null, have the right type. */
  function DecodeCancelOrderResp(v: Json): (r: Option<CancelOrderResp>)
    ensures r.Some? <==> && v.JObject?
                         && Get(v, "code").Some? && Get(v, "code").value.JString?
                         && OptionalString(Get(v, "msg")).Some?
                         && OptionalU64(Get(v, "requestTime")).Some?
    ensures r.Some? ==> && Get(v, "code") == Some(JString(r.value.code))
                        && (r.value.msg.Some? ==> Get(v, "msg") == Some(JString(r.value.msg.value)))
                        && (r.value.requestTime.Some? ==> Get(v, "requestTime") == Some(JInt(r.value.requestTime.value)))
                        && (r.value.data.Some? ==> Get(v, "data") == r.value.data)
    ensures r.Some? ==> && (r.value.msg.None? ==> Get(v, "msg").None? || Get(v, "msg") == Some(JNull))
                        && (r.value.requestTime.None? ==>
                              Get(v, "requestTime").None? || Get(v, "requestTime") == Some(JNull))
                        && (r.value.data.None? ==> Get(v, "data").None? || Get(v, "data") == Some(JNull))
  {
    if v.JObject? && Get(v, "code").Some? && Get(v, "code").value.JString? then
      var msg := OptionalString(Get(v, "msg"));
      var time := OptionalU64(Get(v, "requestTime"));
      if msg.Some? && time.Some? then
        Some(CancelOrderResp(Get(v, "code").value.s, msg.value, time.value, OptionalValue(Get(v, "data"))))
      else None
    else None
  }

  /** A response written out as an object, None fields as null. */
  function EncodeCancelOrderResp(resp: CancelOrderResp): Json
  {
    JObject([("code", JString(resp.code)),
             ("msg", match resp.msg case Some(m) => JString(m) case None => JNull),
             ("requestTime", match resp.requestTime case Some(t) => JInt(t) case None => JNull),
             ("data", resp.data.GetOr(JNull))])
  }

  /** Reading back a written response gives it again, except that a `data` of
      JSON null cannot be told from an absent one. */
  lemma DecodeEncodeCancelOrderResp(resp: CancelOrderResp)
    requires resp.data != Some(JNull)
    ensures DecodeCancelOrderResp(EncodeCancelOrderResp(resp)) == Some(resp)
  {
    EncodedFields(resp);
    OptionalFieldsReadBack(resp);
  }

  /** ... and that one case is where the round trip loses information. */
  lemma NullDataReadsAsAbsent(resp: CancelOrderResp)
    requires resp.data == Some(JNull)
    ensures DecodeCancelOrderResp(EncodeCancelOrderResp(resp)) == Some(resp.(data := None))
  {
    EncodedFields(resp);
    OptionalFieldsReadBack(resp);
  }

  /** The written optional fields read back as they were, null data as absent. */
  lemma OptionalFieldsReadBack(resp: CancelOrderResp)
    ensures var v := EncodeCancelOrderResp(resp);
      && OptionalString(Some(v.fields[1].1)) == Some(resp.msg)
      && OptionalU64(Some(v.fields[2].1)) == Some(resp.requestTime)
      && OptionalValue(Some(resp.data.GetOr(JNull))) == if resp.data == Some(JNull) then None else resp.data
  {
  }

  /** Each field of the written object is found under its own name. */
  lemma EncodedFields(resp: CancelOrderResp)
    ensures var v := EncodeCancelOrderResp(resp);
      && v.JObject?
      && Get(v, "code") == Some(JString(resp.code))
      && Get(v, "msg") == Some(v.fields[1].1)
      && Get(v, "requestTime") == Some(v.fields[2].1)
      && Get(v, "data") == Some(resp.data.GetOr(JNull))
  {
    var v := EncodeCancelOrderResp(resp);
    assert "msg" != "code" && "requestTime" != "code" && "requestTime" != "msg" by {
      assert |"msg"| != |"code"| && |"requestTime"| != |"code"| && |"requestTime"| != |"msg"|;
    }
    assert "data" != "code" && "data" != "msg" && "data" != "requestTime" by {
      assert "data"[0] != "code"[0] && |"data"| != |"msg"| && |"data"| != |"requestTime"|;
    }
    assert v == JObject([("code", v.fields[0].1), ("msg", v.fields[1].1),
                         ("requestTime", v.fields[2].1), ("data", v.fields[3].1)]);
    FourFieldsGet("code", v.fields[0].1, "msg", v.fields[1].1,
                  "requestTime", v.fields[2].1, "data", v.fields[3].1);
  }

  /** In an object of four distinct keys each key finds its own value. */
  lemma FourFieldsGet(k1: string, v1: Json, k2: string, v2: Json, k3: string, v3: Json, k4: string, v4: Json)
    requires k1 != k2 && k1 != k3 && k1 != k4 && k2 != k3 && k2 != k4 && k3 != k4
    ensures var v := JObject([(k1, v1), (k2, v2), (k3, v3), (k4, v4)]);
      Get(v, k1) == Some(v1) && Get(v, k2) == Some(v2) && Get(v, k3) == Some(v3) && Get(v, k4) == Some(v4)
  {
    var f4 := [(k4, v4)];
    var f3 := [(k3, v3)] + f4;
    var f2 := [(k2, v2)] + f3;
    assert [(k1, v1)] + f2 == [(k1, v1), (k2, v2), (k3, v3), (k4, v4)];
    LookupFront(k1, v1, f2, k1);
    LookupFront(k1, v1, f2, k2);
    LookupFront(k1, v1, f2, k3);
    LookupFront(k1, v1, f2, k4);
    LookupFront(k2, v2, f3, k2);
    LookupFront(k2, v2, f3, k3);
    LookupFront(k2, v2, f3, k4);
    LookupFront(k3, v3, f4, k3);
    LookupFront(k3, v3, f4, k4);
    LookupFront(k4, v4, [], k4);
  }

  /** `serde_json::from_str::<CancelOrderResp>` on the text `request` returned. */
  function CancelResult(response: Result<string, Error>, parse: Parser): (r: Result<CancelOrderResp, Error>)
    ensures response.Err? ==> r == Err(response.error)
    ensures response.Ok? ==>
      (r.Ok? <==> parse(response.value).Some? && DecodeCancelOrderResp(parse(response.value).value).Some?)
    ensures r.Ok? ==> r.value == DecodeCancelOrderResp(parse(response.value).value).value
    ensures r.Err? && response.Ok? ==> r.error == DecodeFailed
  {
    match response
    case Err(e) => Err(e)
    case Ok(text) =>
      match parse(text)
      case None => Err(DecodeFailed)
      case Some(v) =>
        match DecodeCancelOrderResp(v)
        case None => Err(DecodeFailed)
        case Some(resp) => Ok(resp)
  }

  /** The client does not look at the code: an error envelope answered with a 2xx
      status is a successfully decoded cancel response carrying the error code. */
  lemma ErrorEnvelopeDecodesAsCancelResp(parse: Parser, text: string, e: Exceptions.ApiError)
    requires Exceptions.ParseErrorResponse(parse, text) == Some(e)
    requires Get(parse(text).value, "msg").value.JString?
    requires OptionalU64(Get(parse(text).value, "requestTime")).Some?
    ensures CancelResult(Ok(text), parse).Ok?
    ensures CancelResult(Ok(text), parse).value.code == e.code
    ensures CancelResult(Ok(text), parse).value.msg == Some(e.msg)
  {
    var v := parse(text).value;
    assert v.JObject?;
  }

  // ---------------------------------------------------------------------------
  // The wrappers
  // ---------------------------------------------------------------------------

  /** `place_spot_order_v2`. */
  method PlaceSpotOrderV2(c: BitgetClient, req: SpotOrderV2Req, nowMillis: int, mac: Mac, transport: Transport)
    returns (r: Result<string, Error>)
    ensures r == Execute(c, PlaceSpotOrderCall(req), nowMillis, mac, transport)
  {
    var params: Params := map[];
    params := params["symbol" := req.symbol];
    params := params["side" := req.side];
    params := params["orderType" := req.orderType];
    params := params["force" := req.force];
    match req.price {
      case Some(price) =>
        params := params["price" := price];
      case None =>
    }
    params := params["size" := req.size];
    assert params == PlaceSpotOrderCall(req).params;
    r := Request(c, POST, PLACE_SPOT_ORDER_PATH, params, nowMillis, mac, transport);
  }

  /** `cancel_futures_order`. */
  method CancelFuturesOrder(c: BitgetClient, symbol: string, orderId: string, marginCoin: string,
                            nowMillis: int, mac: Mac, transport: Transport)
    returns (r: Result<string, Error>)
    ensures r == Execute(c, CancelFuturesOrderCall(symbol, orderId, marginCoin), nowMillis, mac, transport)
  {
    var params: Params := map[];
    params := params["symbol" := symbol];
    params := params["orderId" := orderId];
    params := params["marginCoin" := marginCoin];
    assert params == CancelFuturesOrderCall(symbol, orderId, marginCoin).params;
    r := Request(c, POST, CANCEL_FUTURES_ORDER_PATH, params, nowMillis, mac, transport);
  }

  /** `cancel_spot_order`: the request, then the typed reading of its answer. */
  method CancelSpotOrder(c: BitgetClient, symbol: string, orderId: string,
                         nowMillis: int, mac: Mac, transport: Transport, parse: Parser)
    returns (r: Result<CancelOrderResp, Error>)
    ensures r == CancelResult(Execute(c, CancelSpotOrderCall(symbol, orderId), nowMillis, mac, transport), parse)
  {
    var params: Params := map[];
    params := params["symbol" := symbol];
    params := params["orderId" := orderId];
    assert params == CancelSpotOrderCall(symbol, orderId).params;
    var resp := Request(c, POST, CANCEL_SPOT_ORDER_PATH, params, nowMillis, mac, transport);
    r := ReadCancelResp(resp, parse);
  }

  /** The `?` on the request followed by `serde_json::from_str`. */
  method ReadCancelResp(resp: Result<string, Error>, parse: Parser) returns (r: Result<CancelOrderResp, Error>)
    ensures r == CancelResult(resp, parse)
  {
    if resp.Err? {
      return Err(resp.error);
    }
    var v := parse(resp.value);
    if v.None? {
      return Err(DecodeFailed);
    }
    var decoded := DecodeCancelOrderResp(v.value);
    if decoded.None? {
      return Err(DecodeFailed);
    }
    r := Ok(decoded.value);
  }

  /** `batch_cancel_spot_order`. */
  method BatchCancelSpotOrder(c: BitgetClient, symbol: string, orderIds: seq<string>,
                              nowMillis: int, mac: Mac, transport: Transport, parse: Parser)
    returns (r: Result<CancelOrderResp, Error>)
    ensures r == CancelResult(Execute(c, BatchCancelCall(symbol, orderIds), nowMillis, mac, transport), parse)
  {
    var orderList := OrderListValue(symbol, orderIds);
    var params: Params := map[];
    params := params["symbol" := symbol];
    params := params["batchMode" := "multiple"];
    params := params["orderList" := Serialize(orderList)];
    assert params == BatchCancelCall(symbol, orderIds).params;
    var resp := Request(c, POST, BATCH_CANCEL_SPOT_PATH, params, nowMillis, mac, transport);
    r := ReadCancelResp(resp, parse);
  }

  /** `cancel_futures_orders`. */
  method CancelFuturesOrders(c: BitgetClient, symbol: string, orderIds: seq<string>, marginCoin: string,
                             nowMillis: int, mac: Mac, transport: Transport)
    returns (r: Result<string, Error>)
    ensures r == Execute(c, CancelFuturesOrdersCall(symbol, orderIds, marginCoin), nowMillis, mac, transport)
  {
    var params: Params := map[];
    params := params["symbol" := symbol];
    params := params["orderIds" := Join(orderIds, ",")];
    params := params["marginCoin" := marginCoin];
    assert params == CancelFuturesOrdersCall(symbol, orderIds, marginCoin).params;
    r := Request(c, POST, CANCEL_FUTURES_ORDERS_PATH, params, nowMillis, mac, transport);
  }

  /** `cancel_spot_symbol_orders`. */
  method CancelSpotSymbolOrders(c: BitgetClient, symbol: string,
                                nowMillis: int, mac: Mac, transport: Transport, parse: Parser)
    returns (r: Result<CancelOrderResp, Error>)
    ensures r == CancelResult(Execute(c, CancelSpotSymbolOrdersCall(symbol), nowMillis, mac, transport), parse)
  {
    var params: Params := map[];
    params := params["symbol" := symbol];
    var resp := Request(c, POST, CANCEL_SPOT_SYMBOL_PATH, params, nowMillis, mac, transport);
    r := ReadCancelResp(resp, parse);
  }

  // ---------------------------------------------------------------------------
  // Facts about what is sent
  // ---------------------------------------------------------------------------

  /** The order always carries its five mandatory fields, the price exactly when
      one is given, and never the client order id. */
  lemma PlaceSpotOrderParams(req: SpotOrderV2Req)
    ensures var p := PlaceSpotOrderCall(req).params;
      && p.Keys == {"force", "orderType", "side", "size", "symbol"} + (if req.price.Some? then {"price"} else {})
      && p["force"] == req.force && p["orderType"] == req.orderType && p["side"] == req.side
      && p["size"] == req.size && p["symbol"] == req.symbol
      && (req.price.Some? ==> p["price"] == req.price.value)
  {
  }

  /** Setting a client order id changes nothing that is sent. */
  lemma ClientOidNeverSent(req: SpotOrderV2Req, clientOid: Option<string>)
    ensures PlaceSpotOrderCall(req.(clientOid := clientOid)) == PlaceSpotOrderCall(req)
  {
  }

  /** A POST signs and sends the JSON of its map; the path carries no query. */
  lemma PostHasNoQuery(call: ApiCall)
    requires call.verb == POST
    ensures FullPath(call.verb, call.path, call.params) == call.path
    ensures SignedBody(call.verb, call.params) == ParamsJson(call.params)
  {
  }

  /** The futures cancel body: marginCoin, orderId, symbol. */
  lemma CancelFuturesOrderRequest(symbol: string, orderId: string, marginCoin: string)
    ensures var call := CancelFuturesOrderCall(symbol, orderId, marginCoin);
      && FullPath(call.verb, call.path, call.params) == CANCEL_FUTURES_ORDER_PATH
      && SignedBody(call.verb, call.params)
         == "{" + Member("marginCoin", marginCoin) + "," + Member("orderId", orderId) + ","
            + Member("symbol", symbol) + "}"
  {
    ParamsJsonOfThree("marginCoin", marginCoin, "orderId", orderId, "symbol", symbol);
  }

  /** The spot cancel body: orderId, symbol. */
  lemma CancelSpotOrderRequest(symbol: string, orderId: string)
    ensures var call := CancelSpotOrderCall(symbol, orderId);
      && FullPath(call.verb, call.path, call.params) == CANCEL_SPOT_ORDER_PATH
      && SignedBody(call.verb, call.params) == "{" + Member("orderId", orderId) + "," + Member("symbol", symbol) + "}"
  {
    ParamsJsonOfTwo("orderId", orderId, "symbol", symbol);
  }

  /** The cancel-all body: the symbol alone. */
  lemma CancelSpotSymbolOrdersRequest(symbol: string)
    ensures var call := CancelSpotSymbolOrdersCall(symbol);
      && FullPath(call.verb, call.path, call.params) == CANCEL_SPOT_SYMBOL_PATH
      && SignedBody(call.verb, call.params) == "{" + Member("symbol", symbol) + "}"
  {
    ParamsJsonOfOne("symbol", symbol);
  }

  /** The futures batch cancel body: marginCoin, the joined ids, symbol. */
  lemma CancelFuturesOrdersRequest(symbol: string, orderIds: seq<string>, marginCoin: string)
    ensures var call := CancelFuturesOrdersCall(symbol, orderIds, marginCoin);
      && FullPath(call.verb, call.path, call.params) == CANCEL_FUTURES_ORDERS_PATH
      && SignedBody(call.verb, call.params)
         == "{" + Member("marginCoin", marginCoin) + "," + Member("orderIds", Join(orderIds, ",")) + ","
            + Member("symbol", symbol) + "}"
  {
    ParamsJsonOfThree("marginCoin", marginCoin, "orderIds", Join(orderIds, ","), "symbol", symbol);
  }

  /** When no id contains a comma, the joined value splits back into the ids, in
      input order. */
  lemma OrderIdsRecoverable(symbol: string, orderIds: seq<string>, marginCoin: string)
    requires |orderIds| > 0
    requires forall i :: 0 <= i < |orderIds| ==> ',' !in orderIds[i]
    ensures Split(CancelFuturesOrdersCall(symbol, orderIds, marginCoin).params["orderIds"], ',') == orderIds
  {
    assert "," == [','];
    SplitJoin(orderIds, ',');
  }

  /** The spot batch cancel body: the batch mode "multiple", the item list as a
      JSON string, and the symbol. */
  lemma BatchCancelRequest(symbol: string, orderIds: seq<string>)
    ensures var call := BatchCancelCall(symbol, orderIds);
      && FullPath(call.verb, call.path, call.params) == BATCH_CANCEL_SPOT_PATH
      && SignedBody(call.verb, call.params)
         == "{" + Member("batchMode", "multiple") + "," + Member("orderList", OrderList(symbol, orderIds)) + ","
            + Member("symbol", symbol) + "}"
  {
    ParamsJsonOfThree("batchMode", "multiple", "orderList", OrderList(symbol, orderIds), "symbol", symbol);
  }

  /** One item's text: the id, then the symbol. */
  lemma OrderItemText(orderId: string, symbol: string)
    ensures Serialize(OrderItem(orderId, symbol))
         == "{\"order_id\":" + Quote(orderId) + ",\"symbol\":" + Quote(symbol) + "}"
  {
    ItemSerialized(orderId, symbol);
    ItemKeys();
    RegroupItem(Quote("order_id"), Quote(orderId), Quote("symbol"), Quote(symbol));
  }

  lemma ItemSerialized(orderId: string, symbol: string)
    ensures Serialize(OrderItem(orderId, symbol))
         == "{" + Quote("order_id") + ":" + Quote(orderId) + "," + Quote("symbol") + ":" + Quote(symbol) + "}"
  {
    SerializeObjectTwo("order_id", JString(orderId), "symbol", JString(symbol));
    assert Serialize(JString(orderId)) == Quote(orderId);
    assert Serialize(JString(symbol)) == Quote(symbol);
  }

  lemma ItemKeys()
    ensures "{" + Quote("order_id") + ":" == "{\"order_id\":"
    ensures "," + Quote("symbol") + ":" == ",\"symbol\":"
  {
    ItemKeysPlain();
    KeyAfter("{", "order_id");
    KeyAfter(",", "symbol");
    ItemKeyLiterals();
  }

  lemma ItemKeysPlain()
    ensures Plain("order_id") && Plain("symbol")
  {
  }

  /** A plain key written after `open` and before its colon. */
  lemma KeyAfter(open: string, k: string)
    requires Plain(k)
    ensures open + Quote(k) + ":" == open + "\"" + k + "\":"
  {
    QuotePlain(k);
  }

  /** The string-literal merges of the item text, proved apart from `Quote`. */
  lemma ItemKeyLiterals()
    ensures "{" + "\"" + "order_id" + "\":" == "{\"order_id\":"
    ensures "," + "\"" + "symbol" + "\":" == ",\"symbol\":"
  {
  }

  /** Re-association of the item text only. */
  lemma RegroupItem(ko: string, a: string, ks: string, b: string)
    ensures "{" + ko + ":" + a + "," + ks + ":" + b + "}" == ("{" + ko + ":") + a + ("," + ks + ":") + b + "}"
  {
  }

  /** The list's text: the items' texts in input order, comma-separated, in brackets. */
  lemma OrderListText(symbol: string, orderIds: seq<string>)
    ensures OrderList(symbol, orderIds)
         == "[" + Join(seq(|orderIds|, i requires 0 <= i < |orderIds| =>
                             "{\"order_id\":" + Quote(orderIds[i]) + ",\"symbol\":" + Quote(symbol) + "}"), ",")
            + "]"
  {
    var items := OrderListValue(symbol, orderIds).items;
    var texts := seq(|items|, i requires 0 <= i < |items| => Serialize(items[i]));
    var expected := seq(|orderIds|, i requires 0 <= i < |orderIds| =>
                          "{\"order_id\":" + Quote(orderIds[i]) + ",\"symbol\":" + Quote(symbol) + "}");
    forall i | 0 <= i < |orderIds| ensures texts[i] == expected[i] {
      OrderItemText(orderIds[i], symbol);
    }
    assert texts == expected;
  }
}
