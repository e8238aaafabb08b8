/** The second half of `handleProxyRequest`: deciding whether an upstream
    response is a failure, and the reply sent to the caller for each result
    of the outbound call, including the three branches of its `catch`. */
module ResponseClassifier {
  import opened Wrappers
  import opened JsValues
  import opened ErrorNormaliser
  import opened RequestBuilder

  /** What the outbound HTTP call produced. Every HTTP status resolves the
      call (`validateStatus` accepts all of them); a rejection carries the
      upstream response, or only the fact that no response came (with the
      error's `code`), or neither. */
  datatype Transport =
    | Resolved(status: int, headers: map<string, string>, data: Json)
    | RejectedWithResponse(status: int, data: Json)
    | RejectedNoResponse(errorCode: Option<string>)
    | RejectedOther(message: string)

  /** What the caller receives. */
  datatype ReplyBody = Diagnostic(error: ErrorBody) | Forwarded(data: Json)

  /** A reply with the status, the headers the handler sets explicitly and
      the body; or no reply at all, when the `catch` block itself throws. */
  datatype Outcome =
    | Reply(status: int, headers: map<string, string>, body: ReplyBody)
    | NoReply(failure: string)

  const ProxyErrorCode := -9999

  /** `data.code !== 0 && data.code !== undefined`, on a non-null body. */
  predicate CodeSignalsError(data: Json)
  {
    var c := Get(data, "code");
    c != Some(JNum(0)) && c.Some?
  }

  /** The `isError` test exactly as written, where `&&` binds tighter than
      `||`: `(data && codeCheck) || data.status === 'ERROR' || status !== 200`.
      When the first operand is falsy, `data.status` is read, which throws a
      TypeError on a `null` body. */
  function IsError(status: int, data: Json): (r: Result<bool, string>)
    ensures r.Failure? <==> data == JNull
    ensures r.Failure? ==> r.error == ReadOfNullMessage("status")
  {
    if Truthy(data) && CodeSignalsError(data) then Success(true)
    else if data == JNull then Failure(ReadOfNullMessage("status"))
    else Success(Get(data, "status") == Some(JStr("ERROR")) || status != 200)
  }

  /** The response headers of the success branch: the upstream content type,
      or JSON when it has none. */
  function ForwardHeaders(upstream: map<string, string>): (h: map<string, string>)
    ensures h.Keys == {"Content-Type", "Access-Control-Allow-Origin"}
    ensures h["Access-Control-Allow-Origin"] == "*"
    ensures h["Content-Type"] == if HeaderGiven(upstream, "content-type") then upstream["content-type"] else "application/json"
  {
    map["Content-Type" := if HeaderGiven(upstream, "content-type") then upstream["content-type"] else "application/json",
        "Access-Control-Allow-Origin" := "*"]
  }

  const DiagnosticHeaders: map<string, string> :=
    map["Content-Type" := "application/json", "Access-Control-Allow-Origin" := "*"]

  /** The 503 diagnostic for a call that got no response. */
  function Unreachable(errorCode: Option<string>, now: int): (e: ErrorBody)
  {
    ErrorBody(ProxyErrorCode, "PROXY_ERROR: Connection timeout",
      ErrorData("ERROR", "UPSTREAM_ERROR", "PROXY_001", "Could not reach TokoCrypto API servers",
        Details(JStr(if errorCode == Some("ETIMEDOUT") then "Connection timeout after 30 seconds" else "Network error"),
                "TokoCrypto may be experiencing issues. Try again later.", None)),
      now)
  }

  /** The 500 diagnostic for any other failure, carrying its message. */
  function Internal(message: string, now: int): (e: ErrorBody)
  {
    ErrorBody(ProxyErrorCode, "PROXY_ERROR: Internal server error",
      ErrorData("ERROR", "INTERNAL_ERROR", "PROXY_002", "Proxy server error: " + message,
        Details(JStr(message), "Contact system administrator", None)),
      now)
  }

  /** The reply `handleProxyRequest` gives for the result of the outbound
      call, at time `now`. */
  function Respond(t: Transport, now: int): (o: Outcome)
  {
    match t
    case Resolved(status, headers, data) =>
      (match IsError(status, data)
       case Failure(message) => Reply(500, map[], Diagnostic(Internal(message, now)))
       case Success(isError) =>
         if isError then Reply(status, DiagnosticHeaders, Diagnostic(TransformErrorResponse(data, now).value))
         else Reply(status, ForwardHeaders(headers), Forwarded(data)))
    case RejectedWithResponse(status, data) =>
      (match TransformErrorResponse(data, now)
       case Failure(message) => NoReply(message)
       case Success(e) => Reply(status, map["Content-Type" := "application/json"], Diagnostic(e)))
    case RejectedNoResponse(errorCode) => Reply(503, map[], Diagnostic(Unreachable(errorCode, now)))
    case RejectedOther(message) => Reply(500, map[], Diagnostic(Internal(message, now)))
  }

  /** One relay: build the outbound request, make the call (`upstream`
      stands for the HTTP client and the network) and shape the reply. */
  method HandleProxyRequest(req: Inbound, target: Option<string>, formEncode: Body -> string,
                            upstream: Outbound -> Transport, now: int)
    returns (sent: Outbound, reply: Outcome)
    ensures BuiltFrom(req, target, formEncode, sent)
    ensures reply == Respond(upstream(sent), now)
    ensures forall k, h | k in sent.headers && h in IdentityHeaders :: !SameHeaderName(k, h)
  {
    sent := BuildOutbound(req, target, formEncode);
    var result := upstream(sent);
    reply := Respond(result, now);
  }

  /** On every body but `null`, the test as written agrees with the plain
      rule: a `code` that is present and not the number 0, or a `status` of
      "ERROR", or an HTTP status other than 200. The `data &&` guard never
      matters, because falsy bodies have no fields. */
  lemma IsErrorMatchesRule(status: int, data: Json)
    requires data != JNull
    ensures IsError(status, data) ==
              Success(CodeSignalsError(data) || Get(data, "status") == Some(JStr("ERROR")) || status != 200)
  {
  }

  /** A resolved call is answered with the upstream status either way: with
      the body unchanged when the rule finds no error, and with the
      normalised diagnostic when it does. */
  lemma ResolvedReply(status: int, headers: map<string, string>, data: Json, now: int)
    requires data != JNull
    ensures var failed := CodeSignalsError(data) || Get(data, "status") == Some(JStr("ERROR")) || status != 200;
            Respond(Resolved(status, headers, data), now) ==
              if failed then Reply(status, DiagnosticHeaders, Diagnostic(TransformErrorResponse(data, now).value))
              else Reply(status, ForwardHeaders(headers), Forwarded(data))
  {
  }

  /** A body is forwarded only with status 200 and only unchanged, from a
      resolved call whose body is not `null`, under the upstream content
      type (JSON when it has none) and the open CORS header. */
  lemma ForwardedOnlyAt200(t: Transport, now: int)
    requires Respond(t, now).Reply? && Respond(t, now).body.Forwarded?
    ensures t.Resolved? && t.data != JNull && !CodeSignalsError(t.data)
    ensures Respond(t, now).status == 200 && t.status == 200
    ensures Respond(t, now).body.data == t.data
    ensures Respond(t, now).headers["Access-Control-Allow-Origin"] == "*"
    ensures Respond(t, now).headers["Content-Type"] ==
              if HeaderGiven(t.headers, "content-type") then t.headers["content-type"] else "application/json"
  {
  }

  /** A `null` body makes the test itself throw when it reads `status`; the
      handler's catch answers 500 with that TypeError's message. */
  lemma NullBodyIsInternalError(status: int, headers: map<string, string>, now: int)
    ensures var o := Respond(Resolved(status, headers, JNull), now);
            && o == Reply(500, map[], Diagnostic(Internal(ReadOfNullMessage("status"), now)))
            && o.body.error.code == -9999
            && o.body.error.data.errorType == "INTERNAL_ERROR"
  {
  }

  /** A rejection that carries a response is answered with that response's
      status and its normalised diagnostic; with a `null` body the
      normaliser throws inside the catch and no reply is sent. */
  lemma RejectedWithResponseReply(status: int, data: Json, now: int)
    ensures var o := Respond(RejectedWithResponse(status, data), now);
            && (data == JNull ==> o == NoReply(ReadOfNullMessage("code")))
            && (data != JNull ==>
                  && o.Reply? && o.status == status && o.body.Diagnostic?
                  && o.body.error == TransformErrorResponse(data, now).value
                  && o.headers == map["Content-Type" := "application/json"])
  {
  }

  /** No response: 503 with code -9999 and type UPSTREAM_ERROR, whose reason
      names the 30-second timeout exactly when the error code is ETIMEDOUT. */
  lemma NoResponseReply(errorCode: Option<string>, now: int)
    ensures var o := Respond(RejectedNoResponse(errorCode), now);
            && o.Reply? && o.status == 503 && o.body.Diagnostic?
            && o.body.error.code == -9999
            && o.body.error.data.status == "ERROR"
            && o.body.error.data.errorType == "UPSTREAM_ERROR"
            && (o.body.error.data.details.reason == JStr("Connection timeout after 30 seconds")
                <==> errorCode == Some("ETIMEDOUT"))
            && (errorCode != Some("ETIMEDOUT") ==> o.body.error.data.details.reason == JStr("Network error"))
  {
  }

  /** Any other failure: 500 with code -9999, type INTERNAL_ERROR, and the
      failure's message as the reason and inside the error text. */
  lemma OtherFailureReply(message: string, now: int)
    ensures var o := Respond(RejectedOther(message), now);
            && o.Reply? && o.status == 500 && o.body.Diagnostic?
            && o.body.error.code == -9999
            && o.body.error.data.errorType == "INTERNAL_ERROR"
            && o.body.error.data.errorData == "Proxy server error: " + message
            && o.body.error.data.details.reason == JStr(message)
  {
  }

  /** Every diagnostic the relay sends, whatever the call's result, is marked
      "ERROR", has a non-zero numeric code and carries the reply time. */
  lemma EveryDiagnosticIsMarked(t: Transport, now: int)
    requires Respond(t, now).Reply? && Respond(t, now).body.Diagnostic?
    ensures var e := Respond(t, now).body.error;
            e.data.status == "ERROR" && e.code != 0 && e.timestamp == now
  {
  }

  /** HTTP 200 with a body whose `code` is the number -2 is not a success:
      it is reshaped into the insufficient-balance diagnostic, still with
      status 200. */
  lemma InsufficientBalanceAt200(headers: map<string, string>, data: Json, now: int)
    requires Get(data, "code") == Some(JNum(-2))
    ensures var o := Respond(Resolved(200, headers, data), now);
            && o.Reply? && o.status == 200 && o.body.Diagnostic?
            && o.body.error.code == -2
            && o.body.error.msg == "BALANCE_ERROR" + ": " + "Insufficient funds"
            && o.body.error.data.errorType == "INSUFFICIENT_BALANCE"
            && o.body.error.data.details.suggestion == "Deposit more funds to your account"
  {
    IsErrorMatchesRule(200, data);
    MinusTwoCode(data);
    BalanceEntry();
    DiagnosticFields(data, now);
    NumericBodyCodeKept(data, now, -2);
  }

  /** The comparison with 0 is strict: `{code: 0}` at 200 is forwarded,
      while `{code: "0"}` and `{code: null}` are errors. */
  lemma ZeroCodeStrictness(headers: map<string, string>, now: int)
    ensures Respond(Resolved(200, headers, JObj(map["code" := JNum(0)])), now).body.Forwarded?
    ensures Respond(Resolved(200, headers, JObj(map["code" := JStr("0")])), now).body.Diagnostic?
    ensures Respond(Resolved(200, headers, JObj(map["code" := JNull])), now).body.Diagnostic?
  {
    IsErrorMatchesRule(200, JObj(map["code" := JNum(0)]));
    IsErrorMatchesRule(200, JObj(map["code" := JStr("0")]));
    IsErrorMatchesRule(200, JObj(map["code" := JNull]));
  }
}
