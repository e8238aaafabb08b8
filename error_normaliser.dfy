/** The error normaliser of the relay: the static table of known upstream
    error codes (ERROR_MAP) and `transformErrorResponse`, which turns any
    upstream body into the fixed-shape diagnostic record sent to the caller. */
module ErrorNormaliser {
  import opened Wrappers
  import opened JsValues
  import JsNumbers

  /** One row of the table: the diagnostic type, the category prefixed to the
      top-level message, the human-readable message and the remediation. */
  datatype Entry = Entry(errorType: string, category: string, message: string, suggestion: string)

  /** The eight known upstream error codes, keyed by their string form. */
  const ErrorTable: map<string, Entry> := map[
    "-1" := Entry("AUTHENTICATION", "AUTH_ERROR",
                  "Invalid API key or signature",
                  "Check API credentials in TokoCrypto settings"),
    "-2" := Entry("INSUFFICIENT_BALANCE", "BALANCE_ERROR",
                  "Insufficient funds",
                  "Deposit more funds to your account"),
    "3203" := Entry("INVALID_PARAMETER", "PARAM_ERROR",
                    "Incorrect order quantity",
                    "Quantity must match stepSize precision"),
    "3204" := Entry("INVALID_PARAMETER", "PARAM_ERROR",
                    "Minimum notional not met",
                    "Increase order size to meet 20,000 IDR minimum"),
    "027037" := Entry("TOKOCRYPTO_ERROR", "TOKOCRYPTO_ERROR",
                      "TokoCrypto internal error",
                      "Check: API key active, account verified, IP whitelisted, sufficient balance"),
    "-1003" := Entry("RATE_LIMIT_EXCEEDED", "RATE_LIMIT",
                     "Too many requests",
                     "Wait 60 seconds before retrying"),
    "4001" := Entry("MARKET_CLOSED", "MARKET_ERROR",
                    "Trading suspended",
                    "Market maintenance in progress, try again later"),
    "4002" := Entry("INVALID_SYMBOL", "MARKET_ERROR",
                    "Symbol not found",
                    "Check available trading pairs at /open/v1/common/symbols")
  ]

  /** The entry synthesised for a code the table does not know. */
  function Fallback(code: string): (e: Entry)
    ensures e.errorType == "UNKNOWN" && e.category == "UNKNOWN_ERROR"
    ensures e.message == "Unmapped error code: " + code
    ensures e.suggestion == "Contact support with this error code"
    ensures e.category + ": " + e.message == "UNKNOWN_ERROR: Unmapped error code: " + code
  {
    Entry("UNKNOWN", "UNKNOWN_ERROR", "Unmapped error code: " + code,
          "Contact support with this error code")
  }

  /** `ERROR_MAP[code] || fallback`. */
  function Lookup(code: string): (e: Entry)
    ensures code in ErrorTable ==> e == ErrorTable[code]
    ensures code !in ErrorTable ==> e == Fallback(code)
  {
    if code in ErrorTable then ErrorTable[code] else Fallback(code)
  }

  /** The `details` block of a diagnostic; `originalResponse` is absent from
      the diagnostics the relay makes up itself. */
  datatype Details = Details(reason: Json, suggestion: string, originalResponse: Option<Json>)

  /** The `data` block of a diagnostic. */
  datatype ErrorData = ErrorData(status: string, errorType: string, code: string,
                                 errorData: string, details: Details)

  /** The JSON object the relay sends for every failure. */
  datatype ErrorBody = ErrorBody(code: int, msg: string, data: ErrorData, timestamp: int)

  /** The error code as text: `body.code?.toString()`, else
      `body.data?.code?.toString()`, else "UNKNOWN" (an empty string counts
      as missing). */
  function ErrorCodeOf(body: Json): (code: string)
    ensures code != ""
  {
    var direct := OptToString(Get(body, "code"));
    var nested := OptToString(OptGet(Get(body, "data"), "code"));
    if direct.Some? && direct.value != "" then direct.value
    else if nested.Some? && nested.value != "" then nested.value
    else "UNKNOWN"
  }

  /** The upstream message, kept as the raw value: `body.msg`, else
      `body.data?.errorData`, else the empty string (falsy values count as
      missing). */
  function ErrorMessageOf(body: Json): (m: Json)
    ensures Truthy(m) || m == JStr("")
  {
    var msg := Get(body, "msg");
    var nested := OptGet(Get(body, "data"), "errorData");
    if OptTruthy(msg) then msg.value
    else if OptTruthy(nested) then nested.value
    else JStr("")
  }

  /** `parseInt(code) || -1`: NaN and zero both become -1. */
  function NumericCode(code: string): (n: int)
    ensures n != 0
  {
    match JsNumbers.ParseInt(code)
    case None => -1
    case Some(v) => if v == 0 then -1 else v
  }

  /** `transformErrorResponse(body)` at time `now`. The only way it throws
      is a `null` body, whose `.code` raises a TypeError. */
  function TransformErrorResponse(body: Json, now: int): (r: Result<ErrorBody, string>)
    ensures r.Failure? <==> body == JNull
    ensures r.Failure? ==> r.error == ReadOfNullMessage("code")
    ensures r.Success? ==>
      && r.value.data.status == "ERROR"
      && r.value.data.code == ErrorCodeOf(body)
      && r.value.data.details.originalResponse == Some(body)
      && r.value.timestamp == now
      && r.value.code != 0
  {
    if body == JNull then Failure(ReadOfNullMessage("code"))
    else
      var errorCode := ErrorCodeOf(body);
      var errorMsg := ErrorMessageOf(body);
      var mapped := Lookup(errorCode);
      var errorData := mapped.message + (if Truthy(errorMsg) then " - " + ToStr(errorMsg) else "");
      var reason := if Truthy(errorMsg) then errorMsg else JStr("TokoCrypto error code " + errorCode);
      Success(ErrorBody(
        NumericCode(errorCode),
        mapped.category + ": " + mapped.message,
        ErrorData("ERROR", mapped.errorType, errorCode, errorData,
                  Details(reason, mapped.suggestion, Some(body))),
        now))
  }

  /** The fields of a diagnostic in terms of the extracted code, the
      extracted message and the table entry chosen for the code. */
  lemma DiagnosticFields(body: Json, now: int)
    requires body != JNull
    ensures var code := ErrorCodeOf(body);
            var e := Lookup(code);
            var r := TransformErrorResponse(body, now).value;
            && r.msg == e.category + ": " + e.message
            && r.data.errorType == e.errorType
            && r.data.details.suggestion == e.suggestion
            && r.data.errorData == e.message + (if Truthy(ErrorMessageOf(body)) then " - " + ToStr(ErrorMessageOf(body)) else "")
            && r.data.details.reason == (if Truthy(ErrorMessageOf(body)) then ErrorMessageOf(body) else JStr("TokoCrypto error code " + code))
  {
  }

  /** For every code of the table, the diagnostic carries that entry's type
      and suggestion, and its message is "<category>: <message>". */
  lemma KnownCodeNormalised(body: Json, now: int)
    requires body != JNull && ErrorCodeOf(body) in ErrorTable
    ensures var e := ErrorTable[ErrorCodeOf(body)];
            var r := TransformErrorResponse(body, now);
            && r.Success?
            && r.value.data.errorType == e.errorType
            && r.value.data.details.suggestion == e.suggestion
            && r.value.msg == e.category + ": " + e.message
  {
  }

  /** A code outside the table gets the UNKNOWN diagnostic, and the original
      code text appears both in the message and as `data.code`. */
  lemma UnmappedCodeNormalised(body: Json, now: int)
    requires body != JNull && ErrorCodeOf(body) !in ErrorTable
    ensures var code := ErrorCodeOf(body);
            var r := TransformErrorResponse(body, now);
            && r.Success?
            && r.value.data.errorType == "UNKNOWN"
            && r.value.msg == "UNKNOWN_ERROR: Unmapped error code: " + code
            && r.value.data.code == code
            && r.value.data.details.suggestion == "Contact support with this error code"
  {
  }

  /** The order in which the error code is looked for: a top-level `code`
      whose text is not empty wins (a number in decimal, so `0` gives "0";
      `false` gives "false"); a missing or null one, or one whose text is
      empty, defers to `data.code` under the same rule; "UNKNOWN" is used
      when neither gives any text. */
  lemma ErrorCodeSources(body: Json)
    ensures forall v :: Get(body, "code") == Some(v) && v != JNull && ToStr(v) != "" ==> ErrorCodeOf(body) == ToStr(v)
    ensures forall n :: Get(body, "code") == Some(JNum(n)) ==> ErrorCodeOf(body) == JsNumbers.IntToString(n)
    ensures OptToString(Get(body, "code")) in {None, Some("")} ==>
              var nested := OptGet(Get(body, "data"), "code");
              && (forall v :: nested == Some(v) && v != JNull && ToStr(v) != "" ==> ErrorCodeOf(body) == ToStr(v))
              && (forall n :: nested == Some(JNum(n)) ==> ErrorCodeOf(body) == JsNumbers.IntToString(n))
              && (OptToString(nested) in {None, Some("")} ==> ErrorCodeOf(body) == "UNKNOWN")
  {
    forall n: int
      ensures JsNumbers.IntToString(n) != ""
    {
      JsNumbers.IntToStringNonEmpty(n);
    }
  }

  /** With no top-level code, a numeric `data.code` is used: `{data: {code: -2}}` is
      reported under the code "-2". */
  lemma NestedNumericCode(now: int)
    ensures var r := TransformErrorResponse(JObj(map["data" := JObj(map["code" := JNum(-2)])]), now);
            r.Success? && r.value.data.code == "-2" && r.value.data.errorType == "INSUFFICIENT_BALANCE"
  {
    var body := JObj(map["data" := JObj(map["code" := JNum(-2)])]);
    assert Get(body, "code").None?;
    assert OptGet(Get(body, "data"), "code") == Some(JNum(-2));
    MinusTwoCode(body);
    BalanceEntry();
    DiagnosticFields(body, now);
  }

  /** A body whose code, top-level or nested, is the number -2 is reported
      under "-2". */
  lemma MinusTwoCode(body: Json)
    requires Get(body, "code") == Some(JNum(-2))
             || (Get(body, "code").None? && OptGet(Get(body, "data"), "code") == Some(JNum(-2)))
    ensures ErrorCodeOf(body) == "-2"
  {
    assert JsNumbers.IntToString(-2) == "-2" by {
      assert JsNumbers.NatToDigits(2) == "2";
    }
  }

  /** The entry of the code "-2". */
  lemma BalanceEntry()
    ensures "-2" in ErrorTable
    ensures ErrorTable["-2"] == Entry("INSUFFICIENT_BALANCE", "BALANCE_ERROR", "Insufficient funds",
                                      "Deposit more funds to your account")
  {
  }

  /** The table's own entries never use the UNKNOWN type or category, so
      the diagnostic's type shows whether the code was in the table. */
  lemma LookupShowsMapping(code: string)
    ensures Lookup(code).errorType == "UNKNOWN" <==> code !in ErrorTable
    ensures Lookup(code).category == "UNKNOWN_ERROR" <==> code !in ErrorTable
    ensures code !in ErrorTable ==> Lookup(code).message == "Unmapped error code: " + code
  {
    if code in ErrorTable {
      assert code in {"-1", "-2", "3203", "3204", "027037", "-1003", "4001", "4002"};
    }
  }

  /** `parseInt(String(n)) || -1` is `n` itself for every non-zero integer. */
  lemma {:induction false} NumericCodeOfRendering(n: int)
    requires n != 0
    ensures NumericCode(JsNumbers.IntToString(n)) == n
  {
    JsNumbers.ParseIntOfIntToString(n);
  }

  /** A non-zero numeric `code` in the upstream body comes back unchanged
      as the top-level numeric code of the diagnostic. */
  lemma NumericBodyCodeKept(body: Json, now: int, n: int)
    requires Get(body, "code") == Some(JNum(n)) && n != 0
    ensures TransformErrorResponse(body, now).Success?
    ensures TransformErrorResponse(body, now).value.code == n
  {
    JsNumbers.IntToStringNonEmpty(n);
    assert ErrorCodeOf(body) == JsNumbers.IntToString(n);
    NumericCodeOfRendering(n);
  }

  /** Text without any leading digit, and zero, both give -1. */
  lemma NumericCodeOfNonNumbers()
    ensures NumericCode("UNKNOWN") == -1
    ensures NumericCode("0") == -1
  {
    JsNumbers.ParseIntOfNonNumeric("UNKNOWN");
    JsNumbers.ParseIntOfDigits("0");
    assert "0"[..0] == "";
  }

  /** The leading zero of the code "027037" is dropped: its numeric code is
      27037. */
  lemma NumericCodeOfLeadingZero()
    ensures NumericCode("027037") == 27037
  {
    JsNumbers.ParseIntOfDigits("027037");
    ValueOfLeadingZeroCode();
  }

  lemma ValueOfLeadingZeroCode()
    ensures JsNumbers.DigitsValue("027037", 10) == 27037
  {
    assert "027037"[..5] == "02703";
    assert "02703"[..4] == "0270";
    assert "0270"[..3] == "027";
    assert "027"[..2] == "02";
    assert "02"[..1] == "0";
    assert "0"[..0] == "";
  }

  /** No integer renders as "027037": that entry of the table is reached only
      when the upstream sends its code as text. */
  lemma {:induction false} NoIntegerRendersAsLeadingZeroKey(n: int)
    ensures JsNumbers.IntToString(n) != "027037"
  {
    var m: nat := if n < 0 then -n else n;
    JsNumbers.NatToDigitsShape(m);
    var s := JsNumbers.IntToString(n);
    if n < 0 {
      assert s[0] == '-';
    } else {
      assert s[0] == JsNumbers.NatToDigits(m)[0];
      assert s[0] == '0' ==> s == "0";
    }
  }

  /** Every key of the table other than "027037" is the decimal rendering
      of its own numeric code, so a numeric upstream code selects exactly the
      entry whose key spells it. */
  lemma TableKeysReadBack()
    ensures ErrorTable.Keys == {"-1", "-2", "3203", "3204", "027037", "-1003", "4001", "4002"}
    ensures JsNumbers.IntToString(NumericCode("-1")) == "-1"
    ensures JsNumbers.IntToString(NumericCode("-2")) == "-2"
    ensures JsNumbers.IntToString(NumericCode("3203")) == "3203"
    ensures JsNumbers.IntToString(NumericCode("3204")) == "3204"
    ensures JsNumbers.IntToString(NumericCode("-1003")) == "-1003"
    ensures JsNumbers.IntToString(NumericCode("4001")) == "4001"
    ensures JsNumbers.IntToString(NumericCode("4002")) == "4002"
  {
    TableKeyRenderings();
    NumericCodeOfRendering(-1);
    NumericCodeOfRendering(-2);
    NumericCodeOfRendering(3203);
    NumericCodeOfRendering(3204);
    NumericCodeOfRendering(-1003);
    NumericCodeOfRendering(4001);
    NumericCodeOfRendering(4002);
  }

  lemma TableKeyRenderings()
    ensures JsNumbers.IntToString(-1) == "-1" && JsNumbers.IntToString(-2) == "-2"
    ensures JsNumbers.IntToString(3203) == "3203" && JsNumbers.IntToString(3204) == "3204"
    ensures JsNumbers.IntToString(-1003) == "-1003"
    ensures JsNumbers.IntToString(4001) == "4001" && JsNumbers.IntToString(4002) == "4002"
  {
    assert JsNumbers.NatToDigits(32) == "32";
    assert JsNumbers.NatToDigits(320) == "320";
    assert JsNumbers.NatToDigits(10) == "10";
    assert JsNumbers.NatToDigits(100) == "100";
    assert JsNumbers.NatToDigits(40) == "40";
    assert JsNumbers.NatToDigits(400) == "400";
  }

  /** The order in which the upstream message is looked for: a truthy `msg`
      wins, then a truthy `data.errorData`, and otherwise the empty string.
      The value is kept as it is, not converted to text. */
  lemma ErrorMessageSources(body: Json)
    ensures OptTruthy(Get(body, "msg")) ==> ErrorMessageOf(body) == Get(body, "msg").value
    ensures !OptTruthy(Get(body, "msg")) && OptTruthy(OptGet(Get(body, "data"), "errorData")) ==>
              ErrorMessageOf(body) == OptGet(Get(body, "data"), "errorData").value
    ensures !OptTruthy(Get(body, "msg")) && !OptTruthy(OptGet(Get(body, "data"), "errorData")) ==>
              ErrorMessageOf(body) == JStr("")
    ensures !body.JObj? ==> ErrorMessageOf(body) == JStr("")
  {
  }

  /** The error text is the table message, followed by " - " and the
      upstream message exactly when there is one; the reason is the upstream
      message, or "TokoCrypto error code <code>" when there is none. */
  lemma DiagnosticText(body: Json, now: int)
    requires body != JNull
    ensures var code := ErrorCodeOf(body);
            var m := ErrorMessageOf(body);
            var e := Lookup(code);
            var d := TransformErrorResponse(body, now).value.data;
            && (d.errorData == e.message <==> !Truthy(m))
            && (Truthy(m) ==> d.errorData == e.message + " - " + ToStr(m) && d.details.reason == m)
            && (!Truthy(m) ==> d.details.reason == JStr("TokoCrypto error code " + code))
  {
  }
}
