/**
 * src/order_query_api.rs: a futures order's details, and the open spot orders
 * of a symbol with optional time window and page size.
 */
module OrderQueryApi {
  import opened Wrappers
  import opened Strings
  import opened Consts
  import opened Utils
  import opened Client

  const ORDER_DETAIL_PATH: string := "/api/mix/v1/order/detail"
  const UNFILLED_ORDERS_PATH: string := "/api/v2/spot/trade/unfilled-orders"

  function OrderDetailCall(symbol: string, orderId: string): ApiCall
  {
    ApiCall(GET, ORDER_DETAIL_PATH, map["orderId" := orderId, "symbol" := symbol])
  }

  /** Each given option is one more entry, in decimal; the symbol is always there. */
  function UnfilledOrdersCall(symbol: string, startTime: Option<u64>, endTime: Option<u64>, limit: Option<u32>)
    : ApiCall
  {
    var p0 := map["symbol" := symbol];
    var p1 := if startTime.Some? then p0["startTime" := NatString(startTime.value)] else p0;
    var p2 := if endTime.Some? then p1["endTime" := NatString(endTime.value)] else p1;
    var p3 := if limit.Some? then p2["limit" := NatString(limit.value)] else p2;
    ApiCall(GET, UNFILLED_ORDERS_PATH, p3)
  }

  /** `get_order_detail`. */
  method GetOrderDetail(c: BitgetClient, symbol: string, orderId: string,
                        nowMillis: int, mac: Mac, transport: Transport)
    returns (r: Result<string, Error>)
    ensures r == Execute(c, OrderDetailCall(symbol, orderId), nowMillis, mac, transport)
  {
    var params: Params := map[];
    params := params["symbol" := symbol];
    params := params["orderId" := orderId];
    assert params == OrderDetailCall(symbol, orderId).params;
    r := Request(c, GET, ORDER_DETAIL_PATH, params, nowMillis, mac, transport);
  }

  /** `get_spot_unfilled_orders`. */
  method GetSpotUnfilledOrders(c: BitgetClient, symbol: string, startTime: Option<u64>, endTime: Option<u64>,
                               limit: Option<u32>, nowMillis: int, mac: Mac, transport: Transport)
    returns (r: Result<string, Error>)
    ensures r == Execute(c, UnfilledOrdersCall(symbol, startTime, endTime, limit), nowMillis, mac, transport)
  {
    var params: Params := map[];
    params := params["symbol" := symbol];
    if startTime.Some? {
      params := params["startTime" := NatString(startTime.value)];
    }
    if endTime.Some? {
      params := params["endTime" := NatString(endTime.value)];
    }
    if limit.Some? {
      params := params["limit" := NatString(limit.value)];
    }
    r := Request(c, GET, UNFILLED_ORDERS_PATH, params, nowMillis, mac, transport);
  }

  /** The detail query: orderId before symbol, no body. */
  lemma OrderDetailRequest(symbol: string, orderId: string)
    ensures var call := OrderDetailCall(symbol, orderId);
      && FullPath(call.verb, call.path, call.params) == ORDER_DETAIL_PATH + "?orderId=" + orderId + "&symbol=" + symbol
      && SignedBody(call.verb, call.params) == ""
  {
    PathOfTwo(ORDER_DETAIL_PATH, "orderId", orderId, "symbol", symbol);
    OrderQuerySeparators();
  }

  /** The symbol is always sent; each option exactly when it is given, as its
      decimal text. */
  lemma UnfilledOrdersParams(symbol: string, startTime: Option<u64>, endTime: Option<u64>, limit: Option<u32>)
    ensures var p := UnfilledOrdersCall(symbol, startTime, endTime, limit).params;
      && p.Keys == {"symbol"} + (if startTime.Some? then {"startTime"} else {})
                  + (if endTime.Some? then {"endTime"} else {}) + (if limit.Some? then {"limit"} else {})
      && p["symbol"] == symbol
      && (startTime.Some? ==> p["startTime"] == NatString(startTime.value))
      && (endTime.Some? ==> p["endTime"] == NatString(endTime.value))
      && (limit.Some? ==> p["limit"] == NatString(limit.value))
  {
  }

  /** With every option given, the query lists them in key order: endTime,
      limit, startTime, symbol. */
  lemma UnfilledOrdersAllOptions(symbol: string, startTime: u64, endTime: u64, limit: u32)
    ensures var call := UnfilledOrdersCall(symbol, Some(startTime), Some(endTime), Some(limit));
      FullPath(call.verb, call.path, call.params)
      == UNFILLED_ORDERS_PATH + "?endTime=" + NatString(endTime) + "&limit=" + NatString(limit)
         + "&startTime=" + NatString(startTime) + "&symbol=" + symbol
  {
    UnfilledOrdersPath(symbol, NatString(startTime), NatString(endTime), NatString(limit));
  }

  lemma UnfilledOrdersPath(symbol: string, s: string, e: string, l: string)
    ensures FullPath(GET, UNFILLED_ORDERS_PATH, map["symbol" := symbol]["startTime" := s]["endTime" := e]["limit" := l])
         == UNFILLED_ORDERS_PATH + "?endTime=" + e + "&limit=" + l + "&startTime=" + s + "&symbol=" + symbol
  {
    assert map["symbol" := symbol]["startTime" := s]["endTime" := e]["limit" := l]
        == map["endTime" := e, "limit" := l, "startTime" := s, "symbol" := symbol];
    UnfilledOrdersSorted(symbol, s, e, l);
  }

  lemma UnfilledOrdersSorted(symbol: string, s: string, e: string, l: string)
    ensures FullPath(GET, UNFILLED_ORDERS_PATH, map["endTime" := e, "limit" := l, "startTime" := s, "symbol" := symbol])
         == UNFILLED_ORDERS_PATH + "?endTime=" + e + "&limit=" + l + "&startTime=" + s + "&symbol=" + symbol
  {
    UnfilledKeysAscending();
    PathOfFour(UNFILLED_ORDERS_PATH, "endTime", e, "limit", l, "startTime", s, "symbol", symbol);
    OrderQuerySeparators();
  }

  lemma UnfilledKeysAscending()
    ensures Below("endTime", "limit") && Below("limit", "startTime") && Below("startTime", "symbol")
  {
    assert Below("endTime", "limit");
    assert Below("limit", "startTime");
    assert Below("startTime", "symbol");
  }

  /** With no option given, only the symbol is asked for. */
  lemma UnfilledOrdersNoOptions(symbol: string)
    ensures var call := UnfilledOrdersCall(symbol, None, None, None);
      FullPath(call.verb, call.path, call.params) == UNFILLED_ORDERS_PATH + "?symbol=" + symbol
  {
    PathOfOne(UNFILLED_ORDERS_PATH, "symbol", symbol);
    OrderQuerySeparators();
  }

  /** The separators of this module's queries, each joined to its key: the
      string-literal merges the path lemmas need, proved once here. */
  lemma OrderQuerySeparators()
    ensures "?" + "orderId" + "=" == "?orderId="
    ensures "&" + "symbol" + "=" == "&symbol="
    ensures "?" + "symbol" + "=" == "?symbol="
    ensures "?" + "endTime" + "=" == "?endTime="
    ensures "&" + "limit" + "=" == "&limit="
    ensures "&" + "startTime" + "=" == "&startTime="
  {
    assert "?" + "orderId" + "=" == "?orderId=";
    assert "&" + "symbol" + "=" == "&symbol=";
    assert "?" + "symbol" + "=" == "?symbol=";
    assert "?" + "endTime" + "=" == "?endTime=";
    assert "&" + "limit" + "=" == "&limit=";
    assert "&" + "startTime" + "=" == "&startTime=";
  }
}
