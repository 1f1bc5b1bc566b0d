/**
 * src/exceptions.rs: recognising the API's error envelope
 * `{"code": "...", "msg": "...", "requestId": "..."}` and rendering it.
 */
module Exceptions {
  import opened Wrappers
  import opened JsonValues

  /** The code a successful envelope carries. */
  const SUCCESS_CODE: string := "00000"

  /** `BitgetApiError`. */
  datatype ApiError = ApiError(code: string, msg: string, requestId: string)

  const DISPLAY_PREFIX: string := "Bitget API 错误 - 代码: "
  const DISPLAY_MSG: string := ", 消息: "

  /** `Display`: the code, then the message; the request id is not shown. */
  function Display(e: ApiError): (s: string)
    ensures |s| == |DISPLAY_PREFIX| + |e.code| + |DISPLAY_MSG| + |e.msg|
    ensures s[..|DISPLAY_PREFIX|] == DISPLAY_PREFIX
    ensures s[|DISPLAY_PREFIX|..|DISPLAY_PREFIX| + |e.code|] == e.code
    ensures s[|DISPLAY_PREFIX| + |e.code|..|s| - |e.msg|] == DISPLAY_MSG
    ensures s[|s| - |e.msg|..] == e.msg
  {
    DISPLAY_PREFIX + e.code + DISPLAY_MSG + e.msg
  }

  /** Two errors that differ only in their request id render the same. */
  lemma DisplayOmitsRequestId(e: ApiError, id: string)
    ensures Display(e.(requestId := id)) == Display(e)
  {
  }

  /** The string inside a JSON string, "" for anything else. */
  function StrOrEmpty(v: Json): string
  {
    AsStr(v).GetOr("")
  }

  /** `parse_error_response`: an error exactly when the text is JSON with both
      "code" and "msg" and the code is a string other than "00000". */
  function ParseErrorResponse(parse: Parser, text: string): (r: Option<ApiError>)
    ensures parse(text).None? ==> r.None?
    ensures parse(text).Some? ==>
      var v := parse(text).value;
      (r.Some? <==> Get(v, "code").Some? && Get(v, "msg").Some?
                    && Get(v, "code").value.JString? && Get(v, "code").value.s != SUCCESS_CODE)
    ensures r.Some? ==>
      var v := parse(text).value;
      && r.value.code == Get(v, "code").value.s
      && r.value.msg == (if Get(v, "msg").value.JString? then Get(v, "msg").value.s else "")
      && r.value.requestId == (if Get(v, "requestId").Some? && Get(v, "requestId").value.JString?
                               then Get(v, "requestId").value.s else "")
  {
    match parse(text)
    case None => None
    case Some(value) =>
      match (Get(value, "code"), Get(value, "msg"))
      case (Some(code), Some(msg)) =>
        if AsStr(code).Some? && AsStr(code).value != SUCCESS_CODE then
          var requestId := match Get(value, "requestId") case Some(id) => StrOrEmpty(id) case None => "";
          Some(ApiError(StrOrEmpty(code), StrOrEmpty(msg), requestId))
        else None
      case _ => None
  }

  /** An envelope whose code is the string "00000" is never an error, whatever
      else it holds. */
  lemma SuccessCodeIsNoError(parse: Parser, text: string)
    requires parse(text).Some? && Index(parse(text).value, "code") == JString(SUCCESS_CODE)
    ensures ParseErrorResponse(parse, text).None?
  {
  }

  /** A rejected signature: `{"code":"40001","msg":"bad sign"}` is the error
      with that code and message and no request id. */
  lemma BadSignExample(parse: Parser, text: string)
    requires parse(text) == Some(JObject([("code", JString("40001")), ("msg", JString("bad sign"))]))
    ensures ParseErrorResponse(parse, text) == Some(ApiError("40001", "bad sign", ""))
  {
  }
}
