# bitget-rs request signing, modelled in Dafny

This project models the core of the bitget-rs REST client in Dafny 4.11 and
proves properties of that model. The core has three parts:

- **The signing pipeline.** It builds the canonical query string, the pre-hash
  `timestamp + method + path + body` and the header list. It signs the
  pre-hash with HMAC-SHA256 and encodes the result in base64.
- **Request assembly.** This is `BitgetClient::request` and `build_headers`.
  It decides the full path, the URL, the body, the signature scheme, the
  header map, the refusal of methods other than GET/POST, and the status
  check.
- **The response envelopes.** These are `parse_error_response`, the ticker
  extraction in `get_ticker_v2`, and the typed cancel responses.

On top of that sit the endpoint wrappers of `account_api.rs`, `market_api.rs`,
`order_api.rs`, `order_query_api.rs` and `asset_api.rs`. Each wrapper fills a
`BTreeMap` and hands it to `request`.

## Modules

- **`Wrappers`**: `Option` and `Result`.
- **`Strings`**: code-point lexicographic order and sorted key listings, which
  are the iteration order of a `BTreeMap<String, String>`. It also has
  `join`, `split`, `split_once` and decimal rendering.
- **`Base64`**: standard-alphabet base64 with padding (section 4 of RFC 4648),
  and its decoder.
- **`JsonValues`**: serde_json's `Value` as a datatype, with `get`, indexing,
  `as_str` and compact serialization (string escaping included). A parameter
  map serializes as a JSON object with its keys ascending.
- **`Consts`**: the constants the core uses.
- **`Utils`**: `build_query`, `parse_params_to_str` (a loop, as in the source),
  `pre_hash`, `get_header` and `sign`. It also holds a query reader used to
  state the round trip.
- **`Client`**: the client record and `new`.
  - The specification functions `FullPath`, `SignedBody`, `HeadersFor`,
    `Prepare`, `Classify` and `Dispatch`.
  - The methods `BuildHeaders`, `InsertAll` and `Request`, which follow the
    source step by step and are proved equal to those functions.
  - The lemmas about what is signed and sent.
- **`Exceptions`**: `BitgetApiError`, its `Display`, and `parse_error_response`.
- **One module per endpoint file:** `AccountApi`, `MarketApi`, `OrderApi`,
  `OrderQueryApi` and `AssetApi`.
  - Each wrapper has a function `...Call` giving the (method, path,
    parameters) it sends.
  - Each wrapper has a method that fills the map entry by entry as the source
    does, proved to send exactly that call.
  - Lemmas give the concrete path, query and body each wrapper produces.

Nothing in the model reads a clock, a network or a random source. The clock
reading (`nowMillis`), the HMAC-SHA256 primitive (`mac`), JSON text parsing
(`parse`) and the HTTP round trip (`transport`) are all arguments.

### Where the model follows the code rather than the documented intent

- **A GET with no parameters** still gets a `?`. The path then ends in a bare
  `?`, which is also signed (`AssetApi.AssetsRequest`, `AssetApi.AssetsSigned`).
- **`request` never inspects the response body.** An error envelope such as
  `{"code":"40001",...}` that arrives with a 2xx status is returned as `Ok`
  (`Client.ErrorEnvelopeStillOk`). Such an envelope also decodes as a
  successful typed cancel response (`OrderApi.ErrorEnvelopeDecodesAsCancelResp`).
- **Keys and values are not URL-escaped** in the query.
- **`use_server_time` has no effect.** Both branches read the local clock.

## Model

| member | source | states |
|---|---|---|
| Utils.BuildQuery | src/utils.rs:99-105 | the query is empty exactly when the map is empty |
| Utils.BuildQueryListed | src/utils.rs:99-105 | for any ascending listing of the keys, the query is their `k=v` entries in that order joined by single `&`; so every entry appears once, keys strictly ascending, unescaped |
| Utils.QueryRoundTrip | src/utils.rs:99-105 | when keys lack `=` and `&` and values lack `&`, splitting the query on `&` and each piece on its first `=` gives back the map |
| Utils.ParsePairsEntries | src/utils.rs:102 | reading `k=v` pieces back gives the map restricted to their keys |
| Utils.QueryOfOne | src/utils.rs:99-105 | a one-entry map gives `k=v` |
| Utils.QueryOfTwo | src/utils.rs:99-105 | two entries with k1 below k2 give `k1=v1&k2=v2`, whatever the insertion order |
| Utils.QueryOfThree | src/utils.rs:99-105 | three entries in key order give their three pieces joined by `&` |
| Utils.QueryOfFour | src/utils.rs:99-105 | four entries in key order give their four pieces joined by `&` |
| Utils.ParseParamsToStr | src/utils.rs:21-33 | the loop's result is "" exactly for the empty map, and otherwise `?` followed by the query |
| Utils.PreHash | src/utils.rs:53-55 | the four parts back to back with no separator: its length is the sum, and each part sits at its offset |
| Utils.GetHeader | src/utils.rs:83-96 | five pairs with distinct names: Content-Type=application/json, then ACCESS-KEY, ACCESS-SIGN, ACCESS-TIMESTAMP and ACCESS-PASSPHRASE carrying the key, signature, timestamp and passphrase verbatim |
| Utils.Sign | src/utils.rs:65-71 | the signature is 44 characters: 43 from the base64 alphabet, then one `=`; it decodes to the 32-byte HMAC of the pre-hash under the secret |
| Base64.DecodeEncode | src/utils.rs:70 | standard base64 decodes back to the encoded bytes |
| Base64.EncodeLayout | src/utils.rs:70 | every character of an encoding is in the alphabet, except the trailing padding `=` |
| Base64.Encode | src/utils.rs:70 | the encoding of n bytes has 4·⌈n/3⌉ characters |
| Strings.SortedKeys | src/utils.rs:100-101 | the BTreeMap's iteration order: each key once, strictly ascending |
| Strings.SortedKeysUnique | src/utils.rs:100-101 | that iteration order is the only ascending listing of the keys |
| Strings.DigitsValueOfNatString | src/order_query_api.rs:43-49 | an unsigned number's decimal text (Rust `to_string`) reads back as the number and has no leading zero |
| Strings.SplitJoin | src/order_api.rs:148 | joining pieces that lack the separator and splitting again gives the pieces, in order |
| JsonValues.Lookup | src/exceptions.rs:39 | a field lookup is None exactly when no field has the key, and otherwise returns a value stored under it |
| JsonValues.Get | src/exceptions.rs:39 | `Value::get`: None exactly for a non-object or an object with no field of that key; otherwise a value stored under the key |
| JsonValues.Escape | src/client.rs:99 | serde_json's escape table: a character other than `"`, `\` and the controls below U+0020 is written as it is; those are written as a backslash sequence |
| JsonValues.UnescapeEscapeAll | src/client.rs:99 | the escaped text reads back, escape by escape, as the original characters |
| JsonValues.UnquoteQuote | src/client.rs:99 | every string literal `to_string` writes reads back as its string, so keys and values in a body can be recovered exactly |
| JsonValues.Serialize | src/order_api.rs:128 | `to_string` writes an object between braces, an array between brackets, a string between quotes, and null and booleans as their keywords |
| JsonValues.Index | src/market_api.rs:101-102 | `v[key]` is the field's value when present and `null` otherwise |
| JsonValues.StringObject | src/client.rs:99 | a parameter map becomes a JSON object with one field per entry |
| JsonValues.StringObjectGet | src/client.rs:99 | each field of that object is the entry's string, and no other field exists |
| JsonValues.QuotePlain | src/client.rs:99 | a string with nothing to escape is serialized between quotes as it is |
| JsonValues.ParamsJsonListed | src/client.rs:98-102 | the POST body lists the members in ascending key order, comma-separated, in braces |
| JsonValues.ParamsJsonOfOne | src/client.rs:98-102 | the body of a one-entry map |
| JsonValues.ParamsJsonOfTwo | src/client.rs:98-102 | the body of two entries in key order |
| JsonValues.ParamsJsonOfThree | src/client.rs:98-102 | the body of three entries in key order |
| JsonValues.ParamsJsonOfFour | src/client.rs:98-102 | the body of four entries in key order |
| JsonValues.EmptyParamsJson | src/client.rs:98-102 | the empty map serializes as `{}` |
| JsonValues.SerializeObjectTwo | src/order_api.rs:128 | a two-field object serializes its members in stored order |
| Client.NewClient | src/client.rs:49-65 | the credentials are kept as given and the base URL is the API's |
| Client.HeaderMapOfGetHeader | src/client.rs:155-163 | inserting the five pairs fails exactly when one of the four values is not a valid header value (never on a name); on success the map holds exactly the five lower-cased names with their values |
| Client.GeneratedValuesAreValid | src/client.rs:133-155 | the decimal timestamp and the base64 signature are always valid header values |
| Client.Classify | src/client.rs:116-124 | a transport failure is an error; a 2xx status returns the text unchanged; any other status is an error carrying status and text |
| Client.BuildHeaders | src/client.rs:127-166 | the step-by-step header builder returns exactly the specification `HeadersFor` |
| Client.InsertAll | src/client.rs:157-165 | the insertion loop returns the map, or the first error, of inserting the pairs in order |
| Client.Request | src/client.rs:77-125 | the step-by-step `request` returns exactly the specification `Dispatch` |
| Client.PrepareSucceedsIff | src/client.rs:95-114 | a request is built exactly when the scheme is not RSA, key and passphrase are valid header values, and the method is GET or POST |
| Client.SignatureCoversTransmitted | src/client.rs:86-102 | the URL is the base plus the full path; GET appends `?` and the query, and other methods leave the path alone; the body is the parameter JSON for POST only; the header set is exactly the five names; the access-sign header is the signature of timestamp header + method + that same path + that same body |
| Client.UrlUnderApiBase | src/client.rs:63 | every request of a client built by `new` goes to the API URL plus the full path |
| Client.RsaRefusedBeforeSigning | src/client.rs:147-151 | with scheme "RSA", the result is the RSA error whatever the MAC and the transport |
| Client.ConfiguredSchemeIsHmac | src/client.rs:147-152 | under the configured scheme the signature is base64 of the HMAC of the pre-hash |
| Client.UnsupportedMethodNeverSent | src/client.rs:105-114 | another method is an error that no transport can change, and is the unsupported-method error once the headers are built |
| Client.ServerTimeFlagIrrelevant | src/client.rs:133-138 | `use_server_time` does not change the request |
| Client.StatusDecidesOutcome | src/client.rs:117-124 | once sent, the outcome is the 2xx text or the status error, independent of the body's content |
| Client.ErrorEnvelopeStillOk | src/client.rs:120-124 | an error envelope with a 2xx status is still returned as `Ok` |
| Exceptions.Display | src/exceptions.rs:20-24 | the rendering is the fixed prefix, the code, ", 消息: ", then the message, at those offsets |
| Exceptions.DisplayOmitsRequestId | src/exceptions.rs:20-24 | the request id does not affect the rendering |
| Exceptions.ParseErrorResponse | src/exceptions.rs:35-57 | unparseable text gives None; otherwise there is an error exactly when "code" and "msg" are present and the code is a string other than "00000"; the code is kept verbatim; a non-string msg and a missing or non-string requestId become "" |
| Exceptions.SuccessCodeIsNoError | src/exceptions.rs:41 | code "00000" never gives an error |
| Exceptions.BadSignExample | src/exceptions.rs:41-50 | `{"code":"40001","msg":"bad sign"}` gives code 40001, message "bad sign" and an empty request id |
| AccountApi.GetAccountInfo | src/account_api.rs:81-92 | the wrapper sends GET /api/mix/v1/account/account with exactly {symbol, marginCoin} |
| AccountApi.GetPositions | src/account_api.rs:123-139 | the wrapper sends GET /api/mix/v1/position/allPosition with exactly {symbol, marginCoin} |
| AccountApi.SetLeverage | src/account_api.rs:177-201 | the wrapper sends POST /api/mix/v1/account/setLeverage with exactly the four fields |
| AccountApi.AccountInfoRequest | src/account_api.rs:82-91 | the full path is `…/account?marginCoin=<mc>&symbol=<sym>` and the signed body is empty |
| AccountApi.PositionsRequest | src/account_api.rs:124-138 | the full path is `…/allPosition?marginCoin=<mc>&symbol=<sym>` and the signed body is empty |
| AccountApi.SetLeverageRequest | src/account_api.rs:184-200 | no query; the body is holdSide, leverage, marginCoin, symbol in that order |
| AccountApi.AccountInfoSigned | src/account_api.rs:82-91 | end to end: the URL ends in that path, no body is sent, and the pre-hash signed is `<ts>GET` + that path |
| MarketApi.GetTicker | src/market_api.rs:75-82 | the wrapper sends GET /api/spot/v1/market/ticker with exactly {symbol} |
| MarketApi.TickerV2Result | src/market_api.rs:97-110 | request errors pass through and unparseable text fails; success exactly when code is the string "00000" and data is a non-empty array, giving data[0] serialized; code "00000" otherwise gives the no-data error; any other code gives the ticker error |
| MarketApi.GetTickerV2 | src/market_api.rs:91-111 | the wrapper sends GET /api/v2/spot/market/tickers with {symbol} and returns its envelope check |
| MarketApi.GetCandles | src/market_api.rs:151-162 | the wrapper sends symbol and period, plus limit exactly when given |
| MarketApi.GetDepth | src/market_api.rs:199-209 | the wrapper sends symbol, plus limit exactly when given |
| MarketApi.TickerRequests | src/market_api.rs:75-97 | both tickers ask `?symbol=<sym>` on their own paths |
| MarketApi.CandlesRequest | src/market_api.rs:151-162 | the query is `limit=<n>&period=…&symbol=…` with a limit, and `period=…&symbol=…` without one |
| MarketApi.DepthRequest | src/market_api.rs:199-209 | the query is `limit=<n>&symbol=…` with a limit, and `symbol=…` without one |
| MarketApi.TickerNeverFromErrorEnvelope | src/market_api.rs:101-104 | a body yielding a ticker is never an error envelope |
| MarketApi.ErrorEnvelopeFailsTicker | src/market_api.rs:108-110 | an error envelope always gives the ticker error |
| OrderApi.OrderItem | src/order_api.rs:108-122 | an item carries its order_id and the symbol, and no client_oid field |
| OrderApi.OrderListValue | src/order_api.rs:116-123 | one item per id, in input order, each with that id, the common symbol and no client_oid |
| OrderApi.OrderItemText | src/order_api.rs:128 | an item serializes as `{"order_id":…,"symbol":…}` |
| OrderApi.OrderListText | src/order_api.rs:128 | the order list is the items' texts in input order, in brackets |
| OrderApi.OptionalString | src/order_api.rs:14 | an `Option<String>` field: absent or null is None, a string is Some, anything else fails |
| OrderApi.OptionalU64 | src/order_api.rs:15 | an `Option<u64>` field: absent or null is None, an integer in range is Some, anything else fails |
| OrderApi.OptionalValue | src/order_api.rs:16 | an `Option<Value>` field: absent and null are both None |
| OrderApi.DecodeCancelOrderResp | src/order_api.rs:10-17 | a response decodes exactly when it is an object with a string code and well-typed msg and requestTime; each field of the result is the object's field when that is present and not null, and None exactly when it is absent or null |
| OrderApi.DecodeEncodeCancelOrderResp | src/order_api.rs:10-17 | a written response reads back as itself unless its data is JSON null |
| OrderApi.NullDataReadsAsAbsent | src/order_api.rs:16 | data that is JSON null reads back as absent |
| OrderApi.CancelResult | src/order_api.rs:93-99 | request errors pass through; otherwise the result is the decoded response, or the decoding error when the text is not JSON or not a response |
| OrderApi.ErrorEnvelopeDecodesAsCancelResp | src/order_api.rs:93-99 | an error envelope whose msg is a string and whose requestTime is absent, null or a u64 decodes as a cancel response carrying its code and message |
| OrderApi.PlaceSpotOrderV2 | src/order_api.rs:51-67 | the wrapper sends POST /api/v2/spot/trade/place-order with the order's fields |
| OrderApi.PlaceSpotOrderParams | src/order_api.rs:51-67 | force, orderType, side, size and symbol are always sent, and price exactly when given |
| OrderApi.ClientOidNeverSent | src/order_api.rs:51-67 | the client order id does not affect what is sent |
| OrderApi.CancelFuturesOrder | src/order_api.rs:70-86 | the wrapper sends POST /api/mix/v1/order/cancel-order with exactly {symbol, orderId, marginCoin} |
| OrderApi.CancelFuturesOrderRequest | src/order_api.rs:70-86 | no query; the body is marginCoin, orderId, symbol |
| OrderApi.CancelSpotOrder | src/order_api.rs:89-100 | the wrapper sends {symbol, orderId} and returns the typed reading of the answer |
| OrderApi.ReadCancelResp | src/order_api.rs:98-99 | the `?` then `from_str` step agrees with `CancelResult` |
| OrderApi.CancelSpotOrderRequest | src/order_api.rs:89-100 | no query; the body is orderId, symbol |
| OrderApi.BatchCancelSpotOrder | src/order_api.rs:103-137 | the wrapper sends symbol, batchMode and the serialized order list, and returns the typed reading |
| OrderApi.BatchCancelRequest | src/order_api.rs:125-134 | no query; the body is batchMode "multiple", orderList as a JSON string, then symbol |
| OrderApi.CancelFuturesOrders | src/order_api.rs:140-156 | the wrapper sends symbol, the ids joined by commas, and marginCoin |
| OrderApi.CancelFuturesOrdersRequest | src/order_api.rs:140-156 | no query; the body is marginCoin, orderIds, symbol |
| OrderApi.OrderIdsRecoverable | src/order_api.rs:148 | ids without commas split back out of orderIds, in input order |
| OrderApi.CancelSpotSymbolOrders | src/order_api.rs:159-169 | the wrapper sends exactly {symbol} and returns the typed reading |
| OrderApi.CancelSpotSymbolOrdersRequest | src/order_api.rs:159-169 | no query; the body is the symbol alone |
| OrderApi.PostHasNoQuery | src/client.rs:86-102 | every POST is signed and sent on its bare path with its parameter JSON as body |
| OrderQueryApi.GetOrderDetail | src/order_query_api.rs:18-29 | the wrapper sends GET /api/mix/v1/order/detail with exactly {symbol, orderId} |
| OrderQueryApi.OrderDetailRequest | src/order_query_api.rs:18-29 | the query is `orderId=…&symbol=…` with no body |
| OrderQueryApi.GetSpotUnfilledOrders | src/order_query_api.rs:32-57 | the wrapper sends the symbol and each option when given |
| OrderQueryApi.UnfilledOrdersParams | src/order_query_api.rs:40-50 | the keys are symbol plus exactly the given options, each option as its decimal text |
| OrderQueryApi.UnfilledOrdersAllOptions | src/order_query_api.rs:40-56 | with all options the query is `endTime=…&limit=…&startTime=…&symbol=…` |
| OrderQueryApi.UnfilledOrdersNoOptions | src/order_query_api.rs:40-56 | with no option the query is `symbol=…` |
| AssetApi.GetAssets | src/asset_api.rs:18-26 | the wrapper sends GET /api/spot/v1/account/assets with an empty map |
| AssetApi.GetAssetV2 | src/asset_api.rs:29-38 | the wrapper sends GET /api/v2/spot/account/assets with exactly {coin} |
| AssetApi.AssetsRequest | src/asset_api.rs:18-26 | the full path ends in a bare `?` and there is no body |
| AssetApi.AssetV2Request | src/asset_api.rs:29-38 | the full path is `…/assets?coin=<coin>` and there is no body |
| AssetApi.AssetsSigned | src/asset_api.rs:19-25 | end to end: the URL ends in `assets?`, no body is sent, and `<ts>GET/api/spot/v1/account/assets?` is what is signed |

## Left out

- **The clock** (`get_timestamp`, src/utils.rs:39-41): the reading is the
  `nowMillis` argument, and the timestamp is its decimal text.
- **HMAC-SHA256 and SHA-256 internals**: the digest function is the `mac`
  argument. HMAC construction cannot fail for any key length, so `Sign` has no
  error path.
- **serde_json text parsing**: it is the `parse` argument. Typed decoding is
  modelled as parsing to a `Value` and then reading the fields.
- **serde details not modelled:**
  - the sequence form of struct deserialization;
  - errors on duplicate fields;
  - the exact float text of numbers (a float keeps its text).
- **URL normalisation by the HTTP client**: `reqwest` parses the URL it is
  given. In the query it percent-encodes spaces, `"`, `<`, `>` and non-ASCII
  characters, and it cuts the URL at `#`. For parameter values holding such
  characters, the bytes on the wire differ from the signed path. The model
  stops at the URL string handed to the client
  (`Client.SignatureCoversTransmitted`).
- **Duplicate keys in parsed JSON**: the `parse` argument may return an object
  that repeats a key. `Lookup` then finds the first occurrence, while
  serde_json's map keeps the last. The lemmas hold for every parser, but this
  difference is not modelled.
- **The HTTP client**: `reqwest` sending and reading the body are the
  `transport` argument. Its failures appear as `Failed(reason)`.
- **Header limits**: HeaderName's length limit and the byte-level (rather
  than character-level) rules of HeaderValue are not modelled.
- **Async twins**: each one is textually the same as its sync method and is
  modelled once.
- **Logging**: `tracing` calls are not modelled.
- **Struct definitions**: the response structs with no logic (TickerResp,
  OrderDetailResp, AssetInfoResp, SpotOrderV2Resp) are not modelled.
- **Other files**: src/ws_api.rs (a WebSocket connection),
  src/fund_flow_api.rs, src/history_api.rs, src/transfer_api.rs and src/lib.rs
  are not part of this model. The constants of src/consts.rs appear as the
  module `Consts`.
- **Unused arguments**: the `cursor` argument of `request` is dropped, since
  the source never reads it. The client's `first` flag is stored but never
  read.
- **Key listings**: the endpoint lemmas give concrete query and body texts
  only for the key sets each endpoint uses. The general statement is
  `Utils.BuildQueryListed`, and `JsonValues.ParamsJsonListed` for the body.
