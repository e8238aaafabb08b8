/** The outbound request builder of `handleProxyRequest`: the target URL,
    the synthetic-identity header map and the body chosen for the call to
    the upstream API. */
module RequestBuilder {
  import opened Wrappers
  import opened JsValues

  /** `req.body` after Express's body parsers: a parsed JSON or form value
      (an empty object when no parser applied), or the raw bytes of an
      `application/octet-stream` body. */
  datatype Body = Parsed(value: Json) | Bytes(data: seq<bv8>)

  /** The inbound request as the handler reads it. Header names are the
      lower-case names Node.js gives them. */
  datatype Inbound = Inbound(httpMethod: string, path: string, url: string,
                             headers: map<string, string>, body: Body)

  /** The `data` handed to the HTTP client. */
  datatype Payload = NoPayload | FormEncoded(text: string) | AsIs(body: Body)

  /** The outbound call as it is handed to the HTTP client. */
  datatype Outbound = Outbound(httpMethod: string, url: string, headers: map<string, string>,
                               payload: Payload, maxRedirects: nat, timeoutMs: nat)

  const UserAgent := "Mozilla/5.0 (X11; Linux x86_64) AppleWebKit/537.36 (KHTML, like Gecko) Chrome/120.0.0.0 Safari/537.36"
  const FormContentType := "application/x-www-form-urlencoded"

  /** The five headers every outbound request starts from. */
  const Baseline: map<string, string> := map[
    "User-Agent" := UserAgent,
    "Accept" := "application/json, text/plain, */*",
    "Accept-Language" := "en-US,en;q=0.9,id;q=0.8",
    "Accept-Encoding" := "gzip, deflate, br",
    "Connection" := "keep-alive"
  ]

  /** Header names that would disclose the caller's network identity. */
  const IdentityHeaders: set<string> :=
    {"x-forwarded-for", "x-real-ip", "x-client-ip", "x-forwarded", "forwarded-for", "forwarded", "via"}

  /** The only header names the builder can ever write. */
  const OutboundNames: set<string> :=
    {"User-Agent", "Accept", "Accept-Language", "Accept-Encoding", "Connection", "X-MBX-APIKEY", "Content-Type"}

  function LowerChar(c: char): char
  {
    if 'A' <= c <= 'Z' then (c as int + 32) as char else c
  }

  /** Equality of header names, which HTTP compares without regard to case. */
  predicate SameHeaderName(a: string, b: string)
  {
    |a| == |b| && forall i :: 0 <= i < |a| ==> LowerChar(a[i]) == LowerChar(b[i])
  }

  /** `req.headers[name]` is truthy: present and not empty. */
  predicate HeaderGiven(headers: map<string, string>, name: string)
  {
    name in headers && headers[name] != ""
  }

  /** `req.body && Object.keys(req.body).length > 0`: an object with a key,
      a non-empty array or string, or a non-empty byte buffer. */
  predicate HasContent(body: Body)
  {
    match body
    case Bytes(data) => |data| > 0
    case Parsed(v) =>
      match v
      case JObj(fields) => |fields| > 0
      case JArr(items) => |items| > 0
      case JStr(s) => |s| > 0
      case _ => false
  }

  /** `${TARGET_URL}` in a template: an unset variable renders as "undefined". */
  function TargetText(target: Option<string>): string
  {
    match target
    case None => "undefined"
    case Some(t) => t
  }

  /** The index of the first occurrence of `c` in `s`. */
  function FirstIndex(s: string, c: char): (i: nat)
    requires c in s
    ensures i < |s| && s[i] == c && c !in s[..i]
  {
    if s[0] == c then 0 else 1 + FirstIndex(s[1..], c)
  }

  /** `s.split(sep)` for a one-character separator. */
  function Split(s: string, sep: char): (parts: seq<string>)
    ensures |parts| >= 1
    ensures forall i :: 0 <= i < |parts| ==> sep !in parts[i]
    ensures sep in s <==> |parts| >= 2
    decreases |s|
  {
    if sep !in s then [s]
    else
      var i := FirstIndex(s, sep);
      [s[..i]] + Split(s[i + 1..], sep)
  }

  /** `parts.join(sep)`. */
  function Join(parts: seq<string>, sep: char): string
    requires |parts| >= 1
  {
    if |parts| == 1 then parts[0] else parts[0] + [sep] + Join(parts[1..], sep)
  }

  /** Splitting and joining again gives back the original text. */
  lemma {:induction false} JoinSplit(s: string, sep: char)
    ensures Join(Split(s, sep), sep) == s
    decreases |s|
  {
    if sep in s {
      var i := FirstIndex(s, sep);
      var rest := s[i + 1..];
      JoinSplit(rest, sep);
      assert Split(s, sep) == [s[..i]] + Split(rest, sep);
      assert s == s[..i] + [sep] + rest;
    }
  }

  /** `req.url.includes('?') ? req.url.split('?')[1] : ''`. */
  function QueryString(url: string): string
  {
    if '?' in url then Split(url, '?')[1] else ""
  }

  /** The query is the text strictly between the first '?' of the URL and
      the next '?' (or the end): it holds no '?', and anything after a
      second '?' is dropped. */
  lemma {:induction false} QueryStringBetweenMarks(url: string)
    ensures '?' !in QueryString(url)
    ensures '?' !in url ==> QueryString(url) == ""
    ensures '?' in url ==>
              var i := FirstIndex(url, '?');
              var q := QueryString(url);
              && i + 1 + |q| <= |url|
              && url[i + 1..i + 1 + |q|] == q
              && (i + 1 + |q| == |url| || url[i + 1 + |q|] == '?')
  {
    if '?' in url {
      var i := FirstIndex(url, '?');
      var rest := url[i + 1..];
      assert Split(url, '?') == [url[..i]] + Split(rest, '?');
      var q := Split(rest, '?')[0];
      PrefixBeforeSeparator(rest, '?');
      assert url[i + 1..i + 1 + |q|] == rest[..|q|];
    }
  }

  /** The first piece of a split is the longest separator-free prefix. */
  lemma PrefixBeforeSeparator(s: string, sep: char)
    ensures var p := Split(s, sep)[0];
            |p| <= |s| && s[..|p|] == p && (|p| == |s| || s[|p|] == sep)
  {
  }

  /** `out` is the request `handleProxyRequest` builds for `req`: the URL
      is the target, the path and the query (only when there is one); the
      headers are the baseline plus the API key and the content type, each
      only when the caller sent a non-empty one, copied as they are; there is
      no body for GET, HEAD or an empty body, a form-encoded one only for the
      exact form content type, and the parsed body otherwise. */
  predicate BuiltFrom(req: Inbound, target: Option<string>, formEncode: Body -> string, out: Outbound)
  {
    var q := QueryString(req.url);
    && out.httpMethod == req.httpMethod
    && out.url == TargetText(target) + req.path + (if q == "" then "" else "?" + q)
    && out.headers.Keys ==
         Baseline.Keys
         + (if HeaderGiven(req.headers, "x-mbx-apikey") then {"X-MBX-APIKEY"} else {})
         + (if HeaderGiven(req.headers, "content-type") then {"Content-Type"} else {})
    && (forall k | k in Baseline :: out.headers[k] == Baseline[k])
    && (HeaderGiven(req.headers, "x-mbx-apikey") ==> out.headers["X-MBX-APIKEY"] == req.headers["x-mbx-apikey"])
    && (HeaderGiven(req.headers, "content-type") ==> out.headers["Content-Type"] == req.headers["content-type"])
    && ((req.httpMethod == "GET" || req.httpMethod == "HEAD" || !HasContent(req.body)) ==> out.payload == NoPayload)
    && (req.httpMethod != "GET" && req.httpMethod != "HEAD" && HasContent(req.body) ==>
          if HeaderGiven(req.headers, "content-type") && req.headers["content-type"] == FormContentType
          then out.payload == FormEncoded(formEncode(req.body))
          else out.payload == AsIs(req.body))
    && out.maxRedirects == 5 && out.timeoutMs == 30000
  }

  /** The outbound request for `req`, built as `handleProxyRequest` does:
      a fresh header map starting from the baseline, into which only the
      API key and the content type are copied, and a body chosen by method
      and content type. `formEncode` is `new URLSearchParams(body).toString()`. */
  method BuildOutbound(req: Inbound, target: Option<string>, formEncode: Body -> string)
    returns (out: Outbound)
    ensures BuiltFrom(req, target, formEncode, out)
    ensures forall k, h | k in out.headers && h in IdentityHeaders :: !SameHeaderName(k, h)
  {
    var query := QueryString(req.url);
    var finalUrl := if query != "" then TargetText(target) + req.path + "?" + query
                    else TargetText(target) + req.path;

    var apiHeaders := Baseline;
    if HeaderGiven(req.headers, "x-mbx-apikey") {
      apiHeaders := apiHeaders["X-MBX-APIKEY" := req.headers["x-mbx-apikey"]];
    }
    if HeaderGiven(req.headers, "content-type") {
      apiHeaders := apiHeaders["Content-Type" := req.headers["content-type"]];
    }

    var requestData := NoPayload;
    if req.httpMethod != "GET" && req.httpMethod != "HEAD" {
      if HasContent(req.body) {
        if "Content-Type" in apiHeaders && apiHeaders["Content-Type"] == FormContentType {
          requestData := FormEncoded(formEncode(req.body));
        } else {
          requestData := AsIs(req.body);
        }
      }
    }

    out := Outbound(req.httpMethod, finalUrl, apiHeaders, requestData, 5, 30000);
    BuiltRequestHidesIdentity(req, target, formEncode, out);
  }

  /** None of the names the builder writes matches, in any letter case, a
      header that reveals the caller's identity. */
  lemma OutboundNamesHideIdentity()
    ensures forall k, h | k in OutboundNames && h in IdentityHeaders :: !SameHeaderName(k, h)
  {
    forall k, h | k in OutboundNames && h in IdentityHeaders
      ensures !SameHeaderName(k, h)
    {
      if |k| == |h| {
        assert k in {"Accept-Language", "Accept-Encoding"} && h == "x-forwarded-for";
        assert LowerChar(k[0]) != LowerChar(h[0]);
      }
    }
  }

  /** Whatever request `BuiltFrom` accepts carries no header
      that reveals the caller's identity, in any letter case. */
  lemma BuiltRequestHidesIdentity(req: Inbound, target: Option<string>, formEncode: Body -> string, out: Outbound)
    requires BuiltFrom(req, target, formEncode, out)
    ensures forall k, h | k in out.headers && h in IdentityHeaders :: !SameHeaderName(k, h)
  {
    assert out.headers.Keys <= OutboundNames;
    OutboundNamesHideIdentity();
  }

  /** `BuiltFrom` pins the request down completely: two requests built
      from the same inputs are the same request. */
  lemma BuiltFromDeterminesRequest(req: Inbound, target: Option<string>, formEncode: Body -> string,
                                   a: Outbound, b: Outbound)
    requires BuiltFrom(req, target, formEncode, a) && BuiltFrom(req, target, formEncode, b)
    ensures a == b
  {
    forall k | k in a.headers
      ensures a.headers[k] == b.headers[k]
    {
      if k !in Baseline {
        assert k == "X-MBX-APIKEY" || k == "Content-Type";
      }
    }
    assert a.headers == b.headers;
  }
}
