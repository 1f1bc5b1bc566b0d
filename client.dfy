/**
 * src/client.rs: turning (method, path, parameters) into one signed HTTP request
 * and classifying the answer.
 *
 * The pure functions FullPath, HeadersFor, Prepare, Classify and Dispatch state
 * what a call does; the methods BuildHeaders and Request do it step by step, as
 * the source does, and are proved to agree with them. The clock reading, the
 * HMAC primitive and the transport are arguments.
 */
module Client {
  import opened Wrappers
  import opened Strings
  import opened Base64
  import opened JsonValues
  import opened Consts
  import opened Utils
  import opened Exceptions

  /** The client's errors, told apart by cause. */
  datatype Error =
    | RsaNotImplemented                      // the configured scheme is "RSA"
    | InvalidHeaderName                      // the http crate refused a header name
    | InvalidHeaderValue                     // the http crate refused a header value
    | UnsupportedMethod(name: string)        // neither GET nor POST
    | Transport(reason: string)              // sending, or reading the body, failed
    | HttpStatus(status: int, text: string)  // the status is not 2xx
    | DecodeFailed                           // serde_json could not read a response body
    | NoTickerData(text: string)             // success envelope without ticker data
    | TickerError(text: string)              // ticker envelope with another code

  /** A client's fixed configuration; nothing in it changes after construction. */
  datatype BitgetClient = BitgetClient(
    apiKey: string,
    apiSecretKey: string,
    passphrase: string,
    useServerTime: bool,
    first: bool,
    baseUrl: string)

  /** `BitgetClient::new`: the credentials as given, the base URL fixed to the API's. */
  function NewClient(apiKey: string, apiSecretKey: string, passphrase: string,
                     useServerTime: bool, first: bool): (c: BitgetClient)
    ensures c.baseUrl == API_URL
    ensures c.apiKey == apiKey && c.apiSecretKey == apiSecretKey && c.passphrase == passphrase
  {
    BitgetClient(apiKey, apiSecretKey, passphrase, useServerTime, first, API_URL)
  }

  /** What goes on the wire. */
  datatype SignedRequest = SignedRequest(
    verb: string,
    url: string,
    headers: map<string, string>,
    body: Option<string>)

  /** What the transport reports back. */
  datatype Response = Received(status: int, text: string) | Failed(reason: string)

  type Transport = SignedRequest -> Response

  /** The request an endpoint wrapper hands to `request`. */
  datatype ApiCall = ApiCall(verb: string, path: string, params: Params)

  // ---------------------------------------------------------------------------
  // Headers as the http crate stores them
  // ---------------------------------------------------------------------------

  function LowerAscii(c: char): char
  {
    if 'A' <= c <= 'Z' then (c as int + 32) as char else c
  }

  /** HeaderName stores names in lower case. */
  function HeaderName(name: string): string
  {
    seq(|name|, i requires 0 <= i < |name| => LowerAscii(name[i]))
  }

  /** The token characters of RFC 9110, section 5.6.2. */
  predicate TokenChar(c: char)
  {
    || ('a' <= c <= 'z') || ('A' <= c <= 'Z') || ('0' <= c <= '9')
    || c == '!' || ('#' <= c <= '\'') || c == '*' || c == '+' || c == '-' || c == '.'
    || c == '^' || c == '_' || c == '`' || c == '|' || c == '~'
  }

  /** What HeaderName::from_str accepts: a non-empty token. */
  predicate ValidHeaderName(name: string)
  {
    |name| > 0 && forall i :: 0 <= i < |name| ==> TokenChar(name[i])
  }

  /** What HeaderValue::from_str accepts: tab and every character from space up,
      except DEL. */
  predicate ValidHeaderValue(v: string)
  {
    forall i :: 0 <= i < |v| ==> v[i] == '\t' || (' ' <= v[i] && v[i] != 127 as char)
  }

  /** Inserting the pairs one by one into a HeaderMap; the first refused name or
      value ends it. */
  function InsertHeaders(m: map<string, string>, hs: seq<(string, string)>)
    : Result<map<string, string>, Error>
    decreases |hs|
  {
    if |hs| == 0 then Ok(m)
    else if !ValidHeaderName(hs[0].0) then Err(InvalidHeaderName)
    else if !ValidHeaderValue(hs[0].1) then Err(InvalidHeaderValue)
    else InsertHeaders(m[HeaderName(hs[0].0) := hs[0].1], hs[1..])
  }

  // The five names `get_header` uses are tokens; the map stores them in lower case.

  lemma ContentTypeName()
    ensures ValidHeaderName("Content-Type") && HeaderName("Content-Type") == "content-type"
  {
    assert forall i :: 0 <= i < 12 ==> HeaderName("Content-Type")[i] == "content-type"[i];
  }

  lemma AccessKeyName()
    ensures ValidHeaderName("ACCESS-KEY") && HeaderName("ACCESS-KEY") == "access-key"
  {
    assert forall i :: 0 <= i < 10 ==> HeaderName("ACCESS-KEY")[i] == "access-key"[i];
  }

  lemma AccessSignName()
    ensures ValidHeaderName("ACCESS-SIGN") && HeaderName("ACCESS-SIGN") == "access-sign"
  {
    assert forall i :: 0 <= i < 11 ==> HeaderName("ACCESS-SIGN")[i] == "access-sign"[i];
  }

  lemma AccessTimestampName()
    ensures ValidHeaderName("ACCESS-TIMESTAMP") && HeaderName("ACCESS-TIMESTAMP") == "access-timestamp"
  {
    assert forall i :: 0 <= i < 16 ==> HeaderName("ACCESS-TIMESTAMP")[i] == "access-timestamp"[i];
  }

  lemma AccessPassphraseName()
    ensures ValidHeaderName("ACCESS-PASSPHRASE") && HeaderName("ACCESS-PASSPHRASE") == "access-passphrase"
  {
    assert forall i :: 0 <= i < 17 ==> HeaderName("ACCESS-PASSPHRASE")[i] == "access-passphrase"[i];
  }

  /** One insertion under a valid name. */
  lemma InsertStep(m: map<string, string>, name: string, value: string, rest: seq<(string, string)>)
    requires ValidHeaderName(name)
    ensures InsertHeaders(m, [(name, value)] + rest)
         == if ValidHeaderValue(value) then InsertHeaders(m[HeaderName(name) := value], rest)
            else Err(InvalidHeaderValue)
  {
    assert ([(name, value)] + rest)[1..] == rest;
  }

  /** The header map built from `get_header` holds exactly its five pairs, under
      lower-case names, and is refused exactly when a value is. */
  lemma HeaderMapOfGetHeader(apiKey: string, sign: string, timestamp: string, passphrase: string)
    ensures var r := InsertHeaders(map[], GetHeader(apiKey, sign, timestamp, passphrase));
      && (r.Ok? <==> ValidHeaderValue(apiKey) && ValidHeaderValue(sign)
                     && ValidHeaderValue(timestamp) && ValidHeaderValue(passphrase))
      && (r.Err? ==> r.error == InvalidHeaderValue)
      && (r.Ok? ==> r.value == map["content-type" := CONTENT_TYPE, "access-key" := apiKey,
                                   "access-sign" := sign, "access-timestamp" := timestamp,
                                   "access-passphrase" := passphrase])
  {
    ContentTypeName();
    AccessKeyName();
    AccessSignName();
    AccessTimestampName();
    AccessPassphraseName();
    var h4: seq<(string, string)> := [("ACCESS-PASSPHRASE", passphrase)] + [];
    var h3 := [("ACCESS-TIMESTAMP", timestamp)] + h4;
    var h2 := [("ACCESS-SIGN", sign)] + h3;
    var h1 := [("ACCESS-KEY", apiKey)] + h2;
    var h0 := [("Content-Type", CONTENT_TYPE)] + h1;
    assert h0 == GetHeader(apiKey, sign, timestamp, passphrase);
    var m1 := map["content-type" := CONTENT_TYPE];
    var m2 := m1["access-key" := apiKey];
    var m3 := m2["access-sign" := sign];
    var m4 := m3["access-timestamp" := timestamp];
    var m5 := m4["access-passphrase" := passphrase];
    assert ValidHeaderValue(CONTENT_TYPE);
    InsertStep(map[], "Content-Type", CONTENT_TYPE, h1);
    InsertStep(m1, "ACCESS-KEY", apiKey, h2);
    InsertStep(m2, "ACCESS-SIGN", sign, h3);
    InsertStep(m3, "ACCESS-TIMESTAMP", timestamp, h4);
    InsertStep(m4, "ACCESS-PASSPHRASE", passphrase, []);
  }

  /** The timestamp and the signature are always acceptable header values. */
  lemma GeneratedValuesAreValid(mac: Mac, preHash: string, secret: string, nowMillis: int)
    ensures ValidHeaderValue(IntString(nowMillis))
    ensures ValidHeaderValue(Sign(mac, preHash, secret))
  {
    var s := IntString(nowMillis);
    if nowMillis < 0 {
      assert forall i :: 1 <= i < |s| ==> s[i] == NatString(-nowMillis)[i - 1];
    }
  }

  // ---------------------------------------------------------------------------
  // The specification of one call
  // ---------------------------------------------------------------------------

  /** The path that is both requested and signed: GET appends "?" and the query,
      even an empty one; any other method leaves the path alone. */
  function FullPath(verb: string, requestPath: string, params: Params): string
  {
    if verb == GET then requestPath + "?" + BuildQuery(params) else requestPath
  }

  /** The signed body: the JSON of the parameters for POST, nothing otherwise. */
  function SignedBody(verb: string, params: Params): string
  {
    if verb == POST then ParamsJson(params) else ""
  }

  /** The timestamp: the clock reading in decimal milliseconds. Both settings of
      `use_server_time` read the local clock. */
  function Timestamp(c: BitgetClient, nowMillis: int): string
  {
    if c.useServerTime then IntString(nowMillis) else IntString(nowMillis)
  }

  /** `build_headers`. */
  function HeadersFor(c: BitgetClient, signType: string, verb: string, fullPath: string,
                      params: Params, nowMillis: int, mac: Mac): Result<map<string, string>, Error>
  {
    var timestamp := Timestamp(c, nowMillis);
    var preHash := PreHash(timestamp, verb, fullPath, SignedBody(verb, params));
    if signType == "RSA" then Err(RsaNotImplemented)
    else InsertHeaders(map[], GetHeader(c.apiKey, Sign(mac, preHash, c.apiSecretKey), timestamp, c.passphrase))
  }

  /** Everything `request` decides before the network: URL, headers, body, and
      the refusal of methods other than GET and POST (after the headers). */
  function Prepare(c: BitgetClient, signType: string, verb: string, requestPath: string,
                   params: Params, nowMillis: int, mac: Mac): Result<SignedRequest, Error>
  {
    var fullPath := FullPath(verb, requestPath, params);
    var url := c.baseUrl + fullPath;
    match HeadersFor(c, signType, verb, fullPath, params, nowMillis, mac)
    case Err(e) => Err(e)
    case Ok(headers) =>
      if verb == GET then Ok(SignedRequest(GET, url, headers, None))
      else if verb == POST then Ok(SignedRequest(POST, url, headers, Some(ParamsJson(params))))
      else Err(UnsupportedMethod(verb))
  }

  /** The status check: a 2xx answer is the body text as it is, without looking
      inside it; anything else is an error carrying the status and the text. */
  function Classify(resp: Response): (r: Result<string, Error>)
    ensures resp.Failed? ==> r == Err(Transport(resp.reason))
    ensures resp.Received? ==> (r.Ok? <==> 200 <= resp.status < 300)
    ensures resp.Received? && r.Ok? ==> r.value == resp.text
    ensures resp.Received? && r.Err? ==> r.error == HttpStatus(resp.status, resp.text)
  {
    match resp
    case Failed(reason) => Err(Transport(reason))
    case Received(status, text) =>
      if 200 <= status < 300 then Ok(text) else Err(HttpStatus(status, text))
  }

  /** `request`, end to end, with the transport as an argument. */
  function Dispatch(c: BitgetClient, signType: string, verb: string, requestPath: string, params: Params,
                    nowMillis: int, mac: Mac, transport: Transport): Result<string, Error>
  {
    match Prepare(c, signType, verb, requestPath, params, nowMillis, mac)
    case Err(e) => Err(e)
    case Ok(req) => Classify(transport(req))
  }

  /** An endpoint's call, sent with the configured scheme. */
  function Execute(c: BitgetClient, call: ApiCall, nowMillis: int, mac: Mac, transport: Transport)
    : Result<string, Error>
  {
    Dispatch(c, SIGN_TYPE, call.verb, call.path, call.params, nowMillis, mac, transport)
  }

  // ---------------------------------------------------------------------------
  // The source's procedure
  // ---------------------------------------------------------------------------

  /** `build_headers`, filling the header map pair by pair. */
  method BuildHeaders(c: BitgetClient, signType: string, verb: string, fullPath: string,
                      params: Params, nowMillis: int, mac: Mac)
    returns (r: Result<map<string, string>, Error>)
    ensures r == HeadersFor(c, signType, verb, fullPath, params, nowMillis, mac)
  {
    var timestamp := if c.useServerTime then IntString(nowMillis) else IntString(nowMillis);
    var body := if verb == POST then ParamsJson(params) else "";
    var preHash := PreHash(timestamp, verb, fullPath, body);
    if signType == "RSA" {
      return Err(RsaNotImplemented);
    }
    var sign := Sign(mac, preHash, c.apiSecretKey);
    var headers := GetHeader(c.apiKey, sign, timestamp, c.passphrase);
    r := InsertAll(headers);
  }

  /** The loop of `build_headers`: each pair parsed and inserted into the map in turn. */
  method InsertAll(headers: seq<(string, string)>) returns (r: Result<map<string, string>, Error>)
    ensures r == InsertHeaders(map[], headers)
  {
    var headerMap := map[];
    for i := 0 to |headers|
      invariant InsertHeaders(headerMap, headers[i..]) == InsertHeaders(map[], headers)
    {
      var (k, v) := headers[i];
      if !ValidHeaderName(k) {
        return Err(InvalidHeaderName);
      }
      if !ValidHeaderValue(v) {
        return Err(InvalidHeaderValue);
      }
      assert headers[i..][1..] == headers[i + 1..];
      headerMap := headerMap[HeaderName(k) := v];
    }
    return Ok(headerMap);
  }

  /** `request` with the configured signature scheme: the path grows in place,
      headers come before the method check, and the status decides the result. */
  method Request(c: BitgetClient, verb: string, requestPath: string, params: Params,
                 nowMillis: int, mac: Mac, transport: Transport)
    returns (r: Result<string, Error>)
    ensures r == Dispatch(c, SIGN_TYPE, verb, requestPath, params, nowMillis, mac, transport)
  {
    var fullPath := requestPath;
    if verb == GET {
      fullPath := fullPath + "?";
      fullPath := fullPath + BuildQuery(params);
    }
    var url := c.baseUrl + fullPath;
    var headers := BuildHeaders(c, SIGN_TYPE, verb, fullPath, params, nowMillis, mac);
    if headers.Err? {
      return Err(headers.error);
    }
    var body := if verb == POST then Some(ParamsJson(params)) else None;
    var response;
    if verb == GET {
      response := transport(SignedRequest(GET, url, headers.value, None));
    } else if verb == POST {
      response := transport(SignedRequest(POST, url, headers.value, body));
    } else {
      return Err(UnsupportedMethod(verb));
    }
    match response {
      case Failed(reason) =>
        return Err(Transport(reason));
      case Received(status, text) =>
        if !(200 <= status < 300) {
          return Err(HttpStatus(status, text));
        }
        return Ok(text);
    }
  }

  // ---------------------------------------------------------------------------
  // What the specification guarantees
  // ---------------------------------------------------------------------------

  /** A request is built exactly when the scheme is not RSA, the key and the
      passphrase are acceptable header values, and the method is GET or POST. */
  lemma PrepareSucceedsIff(c: BitgetClient, signType: string, verb: string, requestPath: string,
                           params: Params, nowMillis: int, mac: Mac)
    ensures Prepare(c, signType, verb, requestPath, params, nowMillis, mac).Ok?
        <==> signType != "RSA" && ValidHeaderValue(c.apiKey) && ValidHeaderValue(c.passphrase)
             && (verb == GET || verb == POST)
  {
    var fullPath := FullPath(verb, requestPath, params);
    var timestamp := Timestamp(c, nowMillis);
    var preHash := PreHash(timestamp, verb, fullPath, SignedBody(verb, params));
    GeneratedValuesAreValid(mac, preHash, c.apiSecretKey, nowMillis);
    HeaderMapOfGetHeader(c.apiKey, Sign(mac, preHash, c.apiSecretKey), timestamp, c.passphrase);
  }

  /** What is signed is what is handed to the HTTP client: the path in the URL and
      the body given to it are the ones in the pre-hash, under the timestamp the
      headers carry. */
  lemma SignatureCoversTransmitted(c: BitgetClient, signType: string, verb: string, requestPath: string,
                                   params: Params, nowMillis: int, mac: Mac, req: SignedRequest)
    requires Prepare(c, signType, verb, requestPath, params, nowMillis, mac) == Ok(req)
    ensures var fullPath := req.url[|c.baseUrl|..];
      && req.verb == verb
      && req.url == c.baseUrl + fullPath
      && fullPath == requestPath + (if verb == GET then "?" + BuildQuery(params) else "")
      && req.body == (if verb == POST then Some(ParamsJson(params)) else None)
      && req.headers.Keys == {"content-type", "access-key", "access-sign", "access-timestamp", "access-passphrase"}
      && req.headers["content-type"] == CONTENT_TYPE
      && req.headers["access-key"] == c.apiKey
      && req.headers["access-passphrase"] == c.passphrase
      && req.headers["access-timestamp"] == IntString(nowMillis)
      && req.headers["access-sign"]
         == Sign(mac, PreHash(req.headers["access-timestamp"], req.verb, fullPath, req.body.GetOr("")),
                 c.apiSecretKey)
  {
    RequestLine(c, signType, verb, requestPath, params, nowMillis, mac, req);
    RequestHeaders(c, signType, verb, requestPath, params, nowMillis, mac, req);
  }

  /** Method, URL and body of a built request. */
  lemma RequestLine(c: BitgetClient, signType: string, verb: string, requestPath: string,
                    params: Params, nowMillis: int, mac: Mac, req: SignedRequest)
    requires Prepare(c, signType, verb, requestPath, params, nowMillis, mac) == Ok(req)
    ensures req.verb == verb
    ensures req.url == c.baseUrl + FullPath(verb, requestPath, params)
    ensures req.url[|c.baseUrl|..] == FullPath(verb, requestPath, params)
    ensures req.body == (if verb == POST then Some(ParamsJson(params)) else None)
    ensures req.body.GetOr("") == SignedBody(verb, params)
  {
    PreparedParts(c, signType, verb, requestPath, params, nowMillis, mac);
    assert req.url[|c.baseUrl|..] == FullPath(verb, requestPath, params);
  }

  /** The header map of a built request. */
  lemma RequestHeaders(c: BitgetClient, signType: string, verb: string, requestPath: string,
                       params: Params, nowMillis: int, mac: Mac, req: SignedRequest)
    requires Prepare(c, signType, verb, requestPath, params, nowMillis, mac) == Ok(req)
    ensures req.headers == map["content-type" := CONTENT_TYPE, "access-key" := c.apiKey,
                               "access-sign" := Sign(mac, PreHash(IntString(nowMillis), verb,
                                                                  FullPath(verb, requestPath, params),
                                                                  SignedBody(verb, params)),
                                                     c.apiSecretKey),
                               "access-timestamp" := IntString(nowMillis),
                               "access-passphrase" := c.passphrase]
  {
    PreparedParts(c, signType, verb, requestPath, params, nowMillis, mac);
    var fullPath := FullPath(verb, requestPath, params);
    var sign := Sign(mac, PreHash(IntString(nowMillis), verb, fullPath, SignedBody(verb, params)), c.apiSecretKey);
    HeaderMapOfGetHeader(c.apiKey, sign, IntString(nowMillis), c.passphrase);
  }

  /** The parts of a built request, the header map still unopened. */
  lemma PreparedParts(c: BitgetClient, signType: string, verb: string, requestPath: string,
                      params: Params, nowMillis: int, mac: Mac)
    requires Prepare(c, signType, verb, requestPath, params, nowMillis, mac).Ok?
    ensures var req := Prepare(c, signType, verb, requestPath, params, nowMillis, mac).value;
      var fullPath := FullPath(verb, requestPath, params);
      && req.verb == verb
      && req.url == c.baseUrl + fullPath
      && req.body == (if verb == POST then Some(ParamsJson(params)) else None)
      && req.body.GetOr("") == SignedBody(verb, params)
      && InsertHeaders(map[], GetHeader(c.apiKey,
                                        Sign(mac, PreHash(IntString(nowMillis), verb, fullPath, SignedBody(verb, params)),
                                             c.apiSecretKey),
                                        IntString(nowMillis), c.passphrase))
         == Ok(req.headers)
  {
  }

  /** A client made by `new` sends to the API's base URL. */
  lemma UrlUnderApiBase(apiKey: string, apiSecretKey: string, passphrase: string, useServerTime: bool,
                        first: bool, signType: string, verb: string, requestPath: string,
                        params: Params, nowMillis: int, mac: Mac)
    requires Prepare(NewClient(apiKey, apiSecretKey, passphrase, useServerTime, first),
                     signType, verb, requestPath, params, nowMillis, mac).Ok?
    ensures Prepare(NewClient(apiKey, apiSecretKey, passphrase, useServerTime, first),
                    signType, verb, requestPath, params, nowMillis, mac).value.url
            == API_URL + FullPath(verb, requestPath, params)
  {
  }

  /** The RSA scheme is refused before anything is signed or sent: the result
      depends on neither the MAC nor the transport. */
  lemma RsaRefusedBeforeSigning(c: BitgetClient, verb: string, requestPath: string, params: Params,
                                nowMillis: int, mac1: Mac, mac2: Mac, t1: Transport, t2: Transport)
    ensures Dispatch(c, "RSA", verb, requestPath, params, nowMillis, mac1, t1) == Err(RsaNotImplemented)
    ensures Dispatch(c, "RSA", verb, requestPath, params, nowMillis, mac2, t2) == Err(RsaNotImplemented)
  {
  }

  /** Any other scheme signs with the HMAC, and the configured one is such a scheme. */
  lemma ConfiguredSchemeIsHmac(c: BitgetClient, verb: string, requestPath: string,
                               params: Params, nowMillis: int, mac: Mac)
    requires Prepare(c, SIGN_TYPE, verb, requestPath, params, nowMillis, mac).Ok?
    ensures var fullPath := FullPath(verb, requestPath, params);
      var headers := Prepare(c, SIGN_TYPE, verb, requestPath, params, nowMillis, mac).value.headers;
      "access-sign" in headers && headers["access-sign"] == Encode(mac(c.apiSecretKey, PreHash(IntString(nowMillis), verb, fullPath, SignedBody(verb, params))))
  {
    var req := Prepare(c, SIGN_TYPE, verb, requestPath, params, nowMillis, mac).value;
    SignatureCoversTransmitted(c, SIGN_TYPE, verb, requestPath, params, nowMillis, mac, req);
    assert req.url[|c.baseUrl|..] == FullPath(verb, requestPath, params);
  }

  /** A method other than GET and POST never reaches the transport, and once the
      headers are built it is refused as unsupported. */
  lemma UnsupportedMethodNeverSent(c: BitgetClient, signType: string, verb: string, requestPath: string,
                                   params: Params, nowMillis: int, mac: Mac, t1: Transport, t2: Transport)
    requires verb != GET && verb != POST
    ensures Dispatch(c, signType, verb, requestPath, params, nowMillis, mac, t1)
         == Dispatch(c, signType, verb, requestPath, params, nowMillis, mac, t2)
    ensures Dispatch(c, signType, verb, requestPath, params, nowMillis, mac, t1).Err?
    ensures signType != "RSA" && ValidHeaderValue(c.apiKey) && ValidHeaderValue(c.passphrase) ==>
      Dispatch(c, signType, verb, requestPath, params, nowMillis, mac, t1) == Err(UnsupportedMethod(verb))
  {
    PrepareSucceedsIff(c, signType, verb, requestPath, params, nowMillis, mac);
    var fullPath := FullPath(verb, requestPath, params);
    var timestamp := Timestamp(c, nowMillis);
    var preHash := PreHash(timestamp, verb, fullPath, SignedBody(verb, params));
    GeneratedValuesAreValid(mac, preHash, c.apiSecretKey, nowMillis);
    HeaderMapOfGetHeader(c.apiKey, Sign(mac, preHash, c.apiSecretKey), timestamp, c.passphrase);
  }

  /** `use_server_time` does not change the request. */
  lemma ServerTimeFlagIrrelevant(c: BitgetClient, signType: string, verb: string, requestPath: string,
                                 params: Params, nowMillis: int, mac: Mac)
    ensures Prepare(c.(useServerTime := true), signType, verb, requestPath, params, nowMillis, mac)
         == Prepare(c.(useServerTime := false), signType, verb, requestPath, params, nowMillis, mac)
  {
  }

  /** Once sent, a 2xx answer is returned as it is, whatever its body says; any
      other status is an error, whatever its body says. */
  lemma StatusDecidesOutcome(c: BitgetClient, signType: string, verb: string, requestPath: string,
                             params: Params, nowMillis: int, mac: Mac, transport: Transport)
    requires Prepare(c, signType, verb, requestPath, params, nowMillis, mac).Ok?
    requires transport(Prepare(c, signType, verb, requestPath, params, nowMillis, mac).value).Received?
    ensures var resp := transport(Prepare(c, signType, verb, requestPath, params, nowMillis, mac).value);
      Dispatch(c, signType, verb, requestPath, params, nowMillis, mac, transport)
      == if 200 <= resp.status < 300 then Ok(resp.text) else Err(HttpStatus(resp.status, resp.text))
  {
  }

  /** `request` never consults `parse_error_response`: an error envelope that
      arrives with a 2xx status is returned as a success. */
  lemma ErrorEnvelopeStillOk(c: BitgetClient, signType: string, verb: string, requestPath: string,
                             params: Params, nowMillis: int, mac: Mac, transport: Transport,
                             parse: Parser, status: int, text: string)
    requires Prepare(c, signType, verb, requestPath, params, nowMillis, mac).Ok?
    requires transport(Prepare(c, signType, verb, requestPath, params, nowMillis, mac).value)
          == Received(status, text)
    requires 200 <= status < 300
    requires ParseErrorResponse(parse, text).Some?
    ensures Dispatch(c, signType, verb, requestPath, params, nowMillis, mac, transport) == Ok(text)
  {
  }
}
