/**
 * The Binance HTTP client: building the query string of a request,
 * signing it (timestamp first, then an HMAC signature over the query
 * string), assembling the URL, collecting rate-limit headers, and sorting
 * failed responses into client and server errors.
 *
 * The clock, the HMAC-SHA256 digest and the network are parameters: the
 * current time in milliseconds is an argument, the digest is the
 * function-valued field `hmac`, and the network is a function `transport`
 * from the request sent to the response received.
 */
module BinanceHttp {
  import opened Wrappers
  import opened Text
  import opened OrderedDict

  /** The endpoint used when no base URL is given. */
  const BASE_URL: string := "https://api.binance.com"
  const CONTENT_TYPE: string := "application/json;charset=utf-8"
  const USER_AGENT_PREFIX: string := "nautilus-trader/"

  /** Request parameters in insertion order (a `Dict[str, str]`). */
  type Params = seq<(string, string)>

  /** Request headers; the API-key header holds `None` when no key was given. */
  type Headers = seq<(string, Option<string>)>

  /** Response headers as received; a name may occur more than once. */
  type ResponseHeaders = seq<(string, string)>

  /** What is handed to the transport: method, full URL, headers, query string. */
  datatype Request = Request(httpMethod: string, url: string, headers: Headers, params: string)

  /** What the transport answers: a response error (with its status), or a body. */
  datatype Response =
    | HttpError(status: int, message: string, errorHeaders: ResponseHeaders)
    | Received(headers: ResponseHeaders, data: string)

  datatype BinanceError =
    | BinanceClientError(status: int, message: string, headers: ResponseHeaders)
    | BinanceServerError(status: int, message: string, headers: ResponseHeaders)

  /** The effect of the exception handler: return quietly, or raise an error. */
  datatype Handled = Ignored | Raised(error: BinanceError)

  /** What a request call gives its caller: nothing, the body, or a raised error. */
  datatype Outcome = NoData | Data(data: string) | Error(error: BinanceError)

  datatype Sent = Sent(request: Request, outcome: Outcome)

  /** Signing without a secret fails (the secret is `None`). */
  datatype SignError = SecretNotSet

  // ---------------------------------------------------------------------
  // Query strings

  function EntryStrings(params: Params): seq<string>
  {
    seq(|params|, i requires 0 <= i < |params| => params[i].0 + "=" + params[i].1)
  }

  /** `"&".join([k + "=" + v for k, v in params.items()])`. */
  function PrepareParams(params: Params): (r: string)
    ensures params == [] ==> r == ""
  {
    Join(EntryStrings(params), "&")
  }

  /** Reads a query string back into its entries (the inverse of PrepareParams). */
  function ParseQuery(s: string): Params
  {
    if s == "" then []
    else
      var parts := Split(s, '&');
      seq(|parts|, i requires 0 <= i < |parts| => SplitAtFirst(parts[i], '='))
  }

  /** No key holds `&` or `=`, and no value holds `&`. */
  predicate QuerySafe(params: Params) {
    forall i :: 0 <= i < |params| ==> '&' !in params[i].0 && '=' !in params[i].0 && '&' !in params[i].1
  }

  /**
   * The query string lists every entry as `key=value`, in the payload's
   * order, with one `&` between neighbours: reading it back gives the payload.
   */
  lemma QueryRoundTrip(params: Params)
    requires QuerySafe(params)
    ensures ParseQuery(PrepareParams(params)) == params
  {
    if params != [] {
      var items := EntryStrings(params);
      forall i | 0 <= i < |items| ensures '&' !in items[i] {
        assert items[i] == params[i].0 + ['='] + params[i].1;
      }
      SplitJoin(items, '&');
      assert "&" == ['&'];
      var q := PrepareParams(params);
      assert |items[0]| >= 1;
      assert |q| >= |items[0]|;
      var parts := Split(q, '&');
      assert parts == items;
      forall i | 0 <= i < |params| ensures SplitAtFirst(parts[i], '=') == params[i] {
        assert parts[i] == params[i].0 + ['='] + params[i].1;
        SplitAtFirstJoin(params[i].0, params[i].1, '=');
      }
    }
  }

  /** Adding an entry at the end adds `&key=value` (or just `key=value` to an empty payload). */
  lemma {:induction false} PrepareParamsAppend(params: Params, k: string, v: string)
    ensures PrepareParams(params + [(k, v)]) == (if params == [] then "" else PrepareParams(params) + "&") + k + "=" + v
  {
    assert EntryStrings(params + [(k, v)]) == EntryStrings(params) + [k + "=" + v];
    JoinAppend(EntryStrings(params), k + "=" + v, "&");
  }

  /** Every entry occurs in the query string as `key=value`. */
  lemma PrepareParamsContains(params: Params, i: nat)
    requires i < |params|
    ensures Contains(PrepareParams(params), params[i].0 + "=" + params[i].1)
  {
    JoinContains(EntryStrings(params), "&", i);
  }

  // ---------------------------------------------------------------------
  // Signing

  /** The payload after `payload["timestamp"] = str(now_ms)`. */
  function Stamped(params: Params, nowMs: nat): Params
  {
    Set(params, "timestamp", NatToDecimal(nowMs))
  }

  /** The payload after the timestamp and then the signature of its query string are set. */
  function Signed(params: Params, nowMs: nat, sign: string -> string): Params
  {
    var stamped := Stamped(params, nowMs);
    Set(stamped, "signature", sign(PrepareParams(stamped)))
  }

  /** The URL path of an encoded signed request: path, `?`, query string, `&signature=`, signature. */
  function EncodedPath(urlPath: string, params: Params, nowMs: nat, sign: string -> string): string
  {
    var queryString := PrepareParams(Stamped(params, nowMs));
    urlPath + "?" + queryString + "&signature=" + sign(queryString)
  }

  /**
   * The signed string always carries the timestamp: the stamped payload maps
   * `timestamp` to `str(now_ms)`, its query string contains
   * `timestamp=<now_ms>`, and no other entry changes.
   */
  lemma StampedCarriesTimestamp(params: Params, nowMs: nat)
    ensures Get(Stamped(params, nowMs), "timestamp") == Some(NatToDecimal(nowMs))
    ensures Contains(PrepareParams(Stamped(params, nowMs)), "timestamp=" + NatToDecimal(nowMs))
    ensures forall k :: k != "timestamp" ==> Get(Stamped(params, nowMs), k) == Get(params, k)
  {
    var stamped := Stamped(params, nowMs);
    var i :| 0 <= i < |stamped| && stamped[i] == ("timestamp", NatToDecimal(nowMs));
    PrepareParamsContains(stamped, i);
    assert stamped[i].0 + "=" + stamped[i].1 == "timestamp=" + NatToDecimal(nowMs);
    forall k | k != "timestamp" ensures Get(stamped, k) == Get(params, k) {
      SetOther(params, "timestamp", NatToDecimal(nowMs), k);
    }
  }

  /**
   * Without a prior `signature` entry, the signature is computed over the
   * stamped payload and appended as its last entry; every other entry is
   * unchanged, and the signed query string is the stamped one followed by
   * `&signature=<signature>`.
   */
  lemma SignatureAppended(params: Params, nowMs: nat, sign: string -> string)
    requires !HasKey(params, "signature")
    ensures var stamped := Stamped(params, nowMs);
      && Signed(params, nowMs, sign) == stamped + [("signature", sign(PrepareParams(stamped)))]
      && PrepareParams(Signed(params, nowMs, sign)) == PrepareParams(stamped) + "&signature=" + sign(PrepareParams(stamped))
    ensures forall k :: k != "timestamp" && k != "signature" ==> Get(Signed(params, nowMs, sign), k) == Get(params, k)
  {
    var stamped := Stamped(params, nowMs);
    var sig := sign(PrepareParams(stamped));
    StampedLacksSignature(params, nowMs);
    assert Signed(params, nowMs, sign) == stamped + [("signature", sig)];
    SignedQueryString(params, nowMs, sign);
    forall k | k != "timestamp" && k != "signature" ensures Get(Signed(params, nowMs, sign), k) == Get(params, k) {
      SetOther(params, "timestamp", NatToDecimal(nowMs), k);
      SetOther(stamped, "signature", sig, k);
    }
  }

  /** Setting the timestamp adds no `signature` entry, and leaves the payload non-empty. */
  lemma StampedLacksSignature(params: Params, nowMs: nat)
    requires !HasKey(params, "signature")
    ensures !HasKey(Stamped(params, nowMs), "signature") && Stamped(params, nowMs) != []
  {
    assert "signature"[0] != "timestamp"[0];
    SetOther(params, "timestamp", NatToDecimal(nowMs), "signature");
  }

  /** Appending the signature entry to a non-empty payload appends `&signature=<sig>` to its query string. */
  lemma SignedQuery(stamped: Params, sig: string)
    requires stamped != []
    ensures PrepareParams(stamped + [("signature", sig)]) == PrepareParams(stamped) + "&signature=" + sig
  {
    PrepareParamsAppend(stamped, "signature", sig);
    assert PrepareParams(stamped) + "&" + "signature" + "=" + sig == PrepareParams(stamped) + "&signature=" + sig;
  }

  /**
   * The encoded variant puts into its URL exactly the query string that the
   * plain signed request sends as parameters, when the payload had no
   * signature before.
   */
  lemma EncodedMatchesSigned(urlPath: string, params: Params, nowMs: nat, sign: string -> string)
    requires !HasKey(params, "signature")
    ensures EncodedPath(urlPath, params, nowMs, sign) == urlPath + "?" + PrepareParams(Signed(params, nowMs, sign))
  {
    var q := PrepareParams(Stamped(params, nowMs));
    var a := urlPath + "?";
    SignedQueryString(params, nowMs, sign);
    assert EncodedPath(urlPath, params, nowMs, sign) == a + q + "&signature=" + sign(q);
    ConcatAssoc(a, q + "&signature=", sign(q));
    ConcatAssoc(a, q, "&signature=");
  }

  lemma ConcatAssoc(a: string, b: string, c: string)
    ensures a + (b + c) == a + b + c
  {
  }

  /** The signed query string is the stamped one followed by `&signature=<signature>`. */
  lemma SignedQueryString(params: Params, nowMs: nat, sign: string -> string)
    requires !HasKey(params, "signature")
    ensures PrepareParams(Signed(params, nowMs, sign))
      == PrepareParams(Stamped(params, nowMs)) + "&signature=" + sign(PrepareParams(Stamped(params, nowMs)))
  {
    var stamped := Stamped(params, nowMs);
    StampedLacksSignature(params, nowMs);
    assert Signed(params, nowMs, sign) == stamped + [("signature", sign(PrepareParams(stamped)))];
    SignedQuery(stamped, sign(PrepareParams(stamped)));
  }

  /** The payload dictionary a caller hands in; signing updates it in place. */
  class Payload {
    var entries: Params

    ghost predicate Valid()
      reads this
    {
      DistinctKeys(entries)
    }

    constructor (initial: Params)
      requires DistinctKeys(initial)
      ensures Valid() && entries == initial
    {
      entries := initial;
    }

    /** `payload[k] = v`. */
    method Put(k: string, v: string)
      requires Valid()
      modifies this
      ensures Valid()
      ensures entries == Set(old(entries), k, v)
    {
      SetKeepsDistinct(entries, k, v);
      entries := Set(entries, k, v);
    }
  }

  // ---------------------------------------------------------------------
  // Headers

  /** The client's headers: content type, user agent, API key, and `timeout` when one is given. */
  function InitialHeaders(key: Option<string>, version: string, timeout: Option<string>): (h: Headers)
    ensures Get(h, "Content-Type") == Some(Some(CONTENT_TYPE))
    ensures Get(h, "User-Agent") == Some(Some(USER_AGENT_PREFIX + version))
    ensures Get(h, "X-MBX-APIKEY") == Some(key)
    ensures HasKey(h, "timeout") <==> timeout.Some?
    ensures timeout.Some? ==> Get(h, "timeout") == Some(timeout)
    ensures |h| == if timeout.Some? then 4 else 3
  {
    var base := BaseHeaders(key, version);
    BaseHeadersLookup(key, version);
    if timeout.Some? then
      SetOther(base, "timeout", timeout, "Content-Type");
      SetOther(base, "timeout", timeout, "User-Agent");
      SetOther(base, "timeout", timeout, "X-MBX-APIKEY");
      Set(base, "timeout", timeout)
    else base
  }

  /** The three headers every client sends. */
  function BaseHeaders(key: Option<string>, version: string): Headers
  {
    [("Content-Type", Some(CONTENT_TYPE)), ("User-Agent", Some(USER_AGENT_PREFIX + version)), ("X-MBX-APIKEY", key)]
  }

  lemma BaseHeadersLookup(key: Option<string>, version: string)
    ensures var base := BaseHeaders(key, version);
      && Get(base, "Content-Type") == Some(Some(CONTENT_TYPE))
      && Get(base, "User-Agent") == Some(Some(USER_AGENT_PREFIX + version))
      && Get(base, "X-MBX-APIKEY") == Some(key)
      && !HasKey(base, "timeout") && |base| == 3
      && "timeout" != "Content-Type" && "timeout" != "User-Agent" && "timeout" != "X-MBX-APIKEY"
  {
    var base := BaseHeaders(key, version);
    assert "Content-Type"[0] != "X-MBX-APIKEY"[0] && "User-Agent"[0] != "X-MBX-APIKEY"[0];
    assert base[1..][1..] == [("X-MBX-APIKEY", key)];
    assert Get(base[1..][1..], "X-MBX-APIKEY") == Some(key);
    assert Get(base[1..], "X-MBX-APIKEY") == Get(base[1..][1..], "X-MBX-APIKEY");
    assert Get(base, "X-MBX-APIKEY") == Get(base[1..], "X-MBX-APIKEY");
    assert "timeout"[0] != "Content-Type"[0] && "timeout"[0] != "User-Agent"[0] && "timeout"[0] != "X-MBX-APIKEY"[0];
  }

  /** The rate-limit headers: names starting with one of three prefixes. */
  predicate IsLimitHeader(name: string) {
    StartsWith(name, "x-mbx-used-weight") || StartsWith(name, "x-mbx-order-count") || StartsWith(name, "x-sapi-used")
  }

  /** `resp.headers[name]`: the first value whose name matches ignoring case. */
  function HeaderValue(hs: ResponseHeaders, name: string): Option<string>
  {
    if |hs| == 0 then None
    else if Lower(hs[0].0) == Lower(name) then Some(hs[0].1)
    else HeaderValue(hs[1..], name)
  }

  /** The lower-cased name of any received header finds a value. */
  lemma {:induction false} HeaderValueFound(hs: ResponseHeaders, i: nat)
    requires i < |hs|
    ensures HeaderValue(hs, Lower(hs[i].0)).Some?
  {
    LowerOfLower(Lower(hs[i].0));
    if i > 0 && Lower(hs[0].0) != Lower(Lower(hs[i].0)) {
      HeaderValueFound(hs[1..], i - 1);
    }
  }

  /** A name finds a value only when it matches, ignoring case, some received header, and the value is that header's. */
  lemma {:induction false} HeaderValueFrom(hs: ResponseHeaders, name: string)
    requires HeaderValue(hs, name).Some?
    ensures exists i :: 0 <= i < |hs| && Lower(hs[i].0) == Lower(name) && hs[i].1 == HeaderValue(hs, name).value
  {
    if Lower(hs[0].0) != Lower(name) {
      HeaderValueFrom(hs[1..], name);
      var i :| 0 <= i < |hs| - 1 && Lower(hs[1..][i].0) == Lower(name) && hs[1..][i].1 == HeaderValue(hs, name).value;
      assert Lower(hs[i + 1].0) == Lower(name);
    } else {
      assert Lower(hs[0].0) == Lower(name) && hs[0].1 == HeaderValue(hs, name).value;
    }
  }

  /** The value found is that of the first header whose name matches ignoring case. */
  lemma {:induction false} HeaderValueFirst(hs: ResponseHeaders, name: string, i: nat)
    requires i < |hs| && Lower(hs[i].0) == Lower(name)
    requires forall j :: 0 <= j < i ==> Lower(hs[j].0) != Lower(name)
    ensures HeaderValue(hs, name) == Some(hs[i].1)
  {
    if i > 0 {
      assert Lower(hs[0].0) != Lower(name);
      HeaderValueFirst(hs[1..], name, i - 1);
    }
  }

  /**
   * `u` is the limit usage of the headers: its keys are exactly the
   * lower-cased header names that are rate-limit names, each mapped to the
   * header's value.
   */
  ghost predicate IsLimitUsage(u: map<string, string>, hs: ResponseHeaders) {
    && (forall k :: k in u ==> IsLower(k) && IsLimitHeader(k) && HeaderValue(hs, k) == Some(u[k]))
    && (forall i :: 0 <= i < |hs| && IsLimitHeader(Lower(hs[i].0)) ==> Lower(hs[i].0) in u)
  }

  /** The limit usage of a list of headers is determined by it. */
  lemma LimitUsageUnique(u1: map<string, string>, u2: map<string, string>, hs: ResponseHeaders)
    requires IsLimitUsage(u1, hs) && IsLimitUsage(u2, hs)
    ensures u1 == u2
  {
    forall k | k in u1 ensures k in u2 {
      HeaderValueFrom(hs, k);
      LowerOfLower(k);
    }
    forall k | k in u2 ensures k in u1 {
      HeaderValueFrom(hs, k);
      LowerOfLower(k);
    }
  }

  /** A rate-limit header sent in upper case is collected under its lower-case name. */
  lemma UpperCaseLimitHeader()
    ensures Lower("X-MBX-USED-WEIGHT-1M") == "x-mbx-used-weight-1m"
    ensures IsLimitHeader(Lower("X-MBX-USED-WEIGHT-1M"))
  {
    var s := "X-MBX-USED-WEIGHT-1M";
    var l := Lower(s);
    forall i | 0 <= i < |s| ensures l[i] == "x-mbx-used-weight-1m"[i] {
    }
    assert l[..|"x-mbx-used-weight"|] == "x-mbx-used-weight";
  }

  /** The loop over the response headers that fills `limit_usage`. */
  method CollectLimitUsage(hs: ResponseHeaders) returns (u: map<string, string>)
    ensures IsLimitUsage(u, hs)
  {
    u := map[];
    var i := 0;
    while i < |hs|
      invariant 0 <= i <= |hs|
      invariant forall k :: k in u ==> IsLower(k) && IsLimitHeader(k) && HeaderValue(hs, k) == Some(u[k])
      invariant forall j :: 0 <= j < i && IsLimitHeader(Lower(hs[j].0)) ==> Lower(hs[j].0) in u
    {
      var name := Lower(hs[i].0);
      if IsLimitHeader(name) {
        HeaderValueFound(hs, i);
        u := u[name := HeaderValue(hs, name).value];
      }
      i := i + 1;
    }
  }

  // ---------------------------------------------------------------------
  // Errors

  /** Below 400 nothing is raised; 400 to 499 is a client error; 500 and above a server error. */
  function HandleException(status: int, message: string, headers: ResponseHeaders): (r: Handled)
    ensures r == Ignored <==> status < 400
    ensures r.Raised? && r.error.BinanceClientError? <==> 400 <= status < 500
    ensures r.Raised? && r.error.BinanceServerError? <==> 500 <= status
    ensures r.Raised? ==> r.error.status == status && r.error.message == message && r.error.headers == headers
  {
    if status < 400 then Ignored
    else if 400 <= status < 500 then Raised(BinanceClientError(status, message, headers))
    else Raised(BinanceServerError(status, message, headers))
  }

  /**
   * On the status codes of HTTP, the split follows the status class of
   * section 15 of RFC 9110: class 4 (4xx) is a client error, class 5 (5xx) a
   * server error, and the informational, success and redirection classes
   * raise nothing.
   */
  lemma HandleExceptionByStatusClass(status: int, message: string, headers: ResponseHeaders)
    requires 100 <= status <= 599
    ensures var r := HandleException(status, message, headers);
      && (r == Ignored <==> status / 100 <= 3)
      && (r == Raised(BinanceClientError(status, message, headers)) <==> status / 100 == 4)
      && (r == Raised(BinanceServerError(status, message, headers)) <==> status / 100 == 5)
  {
  }

  /** What the caller of a request gets for the response the transport gave. */
  function Complete(resp: Response): (r: Outcome)
    ensures r == NoData <==> resp.HttpError? && resp.status < 400
    ensures r.Error? <==> resp.HttpError? && 400 <= resp.status
    ensures r.Error? ==> r.error.status == resp.status && (r.error.BinanceClientError? <==> resp.status < 500)
    ensures r.Data? <==> resp.Received?
    ensures r.Data? ==> r.data == resp.data
  {
    match resp
    case HttpError(status, message, hs) =>
      (match HandleException(status, message, hs)
       case Ignored => NoData
       case Raised(e) => Error(e))
    case Received(_, data) => Data(data)
  }

  function Dispatch(req: Request, transport: Request -> Response): Sent
  {
    Sent(req, Complete(transport(req)))
  }

  // ---------------------------------------------------------------------
  // The client

  class BinanceHttpClient {
    const key: Option<string>
    const secret: Option<string>
    const baseUrl: string
    const showLimitUsage: bool
    const headers: Headers
    /** HMAC-SHA256 of the data (second argument) under the secret (first), as a hex digest. */
    const hmac: (string, string) -> string

    constructor (key: Option<string>, secret: Option<string>, baseUrl: Option<string>, timeout: Option<string>,
                 showLimitUsage: bool, version: string, hmac: (string, string) -> string)
      ensures this.key == key && this.secret == secret && this.showLimitUsage == showLimitUsage && this.hmac == hmac
      ensures this.baseUrl == OrElse(baseUrl, BASE_URL)
      ensures this.headers == InitialHeaders(key, version, timeout)
    {
      this.key := key;
      this.secret := secret;
      this.baseUrl := OrElse(baseUrl, BASE_URL);
      this.showLimitUsage := showLimitUsage;
      this.hmac := hmac;
      var h := BaseHeaders(key, version);
      if timeout.Some? {
        h := Set(h, "timeout", timeout);
      }
      this.headers := h;
    }

    /** `_get_sign`: fails when there is no secret. */
    function Sign(data: string): (r: Result<string, SignError>)
      ensures r.Failure? <==> secret.None?
      ensures secret.Some? ==> r == Success(hmac(secret.value, data))
    {
      if secret.None? then Failure(SecretNotSet) else Success(hmac(secret.value, data))
    }

    /** The signing function of a client that has a secret. */
    function Signer(): string -> string
      requires secret.Some?
    {
      (data: string) => hmac(secret.value, data)
    }

    /** The request sent for a path and a payload: base URL + path, the client's headers, the query string. */
    function RequestFor(httpMethod: string, urlPath: string, params: Params): Request
    {
      Request(httpMethod, baseUrl + urlPath, headers, PrepareParams(params))
    }

    /**
     * `send_request`: a missing payload is an empty one; the request goes to
     * base URL + path with the query string of the payload; a response error
     * goes through the exception handler; with `show_limit_usage` the
     * rate-limit headers of a received response are collected.
     */
    method SendRequest(httpMethod: string, urlPath: string, payload: Option<Params>, transport: Request -> Response)
      returns (sent: Sent, limitUsage: Option<map<string, string>>)
      ensures sent == Dispatch(RequestFor(httpMethod, urlPath, payload.GetOr([])), transport)
      ensures limitUsage.Some? <==> showLimitUsage && transport(sent.request).Received?
      ensures limitUsage.Some? ==> IsLimitUsage(limitUsage.value, transport(sent.request).headers)
    {
      var params := if payload.Some? then payload.value else [];
      var req := Request(httpMethod, baseUrl + urlPath, headers, PrepareParams(params));
      var resp := transport(req);
      limitUsage := None;
      if resp.HttpError? {
        var handled := HandleException(resp.status, resp.message, resp.errorHeaders);
        sent := Sent(req, if handled.Ignored? then NoData else Error(handled.error));
        return;
      }
      if showLimitUsage {
        var u := CollectLimitUsage(resp.headers);
        limitUsage := Some(u);
      }
      sent := Sent(req, Data(resp.data));
    }

    /** `query`: a GET request. */
    method Query(urlPath: string, payload: Option<Params>, transport: Request -> Response) returns (sent: Sent)
      ensures sent == Dispatch(RequestFor("GET", urlPath, payload.GetOr([])), transport)
    {
      var usage;
      sent, usage := SendRequest("GET", urlPath, payload, transport);
    }

    /** `limit_request`: an unsigned request with the API key in the headers. */
    method LimitRequest(httpMethod: string, urlPath: string, payload: Option<Params>, transport: Request -> Response)
      returns (sent: Sent)
      ensures sent == Dispatch(RequestFor(httpMethod, urlPath, payload.GetOr([])), transport)
    {
      var usage;
      sent, usage := SendRequest(httpMethod, urlPath, payload, transport);
    }

    /**
     * `sign_request`: sets the timestamp in the caller's payload (a fresh one
     * when there is none), signs its query string, sets the signature, and
     * sends the payload.
     */
    method SignRequest(httpMethod: string, urlPath: string, payload: Payload?, nowMs: nat, transport: Request -> Response)
      returns (r: Result<Sent, SignError>)
      requires payload != null ==> payload.Valid()
      modifies payload
      ensures payload != null ==> payload.Valid()
      ensures secret.None? ==> r == Failure(SecretNotSet)
      ensures secret.None? && payload != null ==> payload.entries == Stamped(old(payload.entries), nowMs)
      ensures secret.Some? ==>
        r == Success(Dispatch(RequestFor(httpMethod, urlPath, Signed(if payload == null then [] else old(payload.entries), nowMs, Signer())), transport))
      ensures secret.Some? && payload != null ==> payload.entries == Signed(old(payload.entries), nowMs, Signer())
    {
      var p := payload;
      if p == null {
        p := new Payload([]);
      }
      p.Put("timestamp", NatToDecimal(nowMs));
      var queryString := PrepareParams(p.entries);
      var signature := Sign(queryString);
      if signature.Failure? {
        return Failure(signature.error);
      }
      p.Put("signature", signature.value);
      var sent, _ := SendRequest(httpMethod, urlPath, Some(p.entries), transport);
      r := Success(sent);
    }

    /**
     * `limited_encoded_sign_request`: sets the timestamp in the caller's
     * payload, signs its query string, and sends no payload but the path
     * with the query string and the signature appended.
     */
    method LimitedEncodedSignRequest(httpMethod: string, urlPath: string, payload: Payload?, nowMs: nat, transport: Request -> Response)
      returns (r: Result<Sent, SignError>)
      requires payload != null ==> payload.Valid()
      modifies payload
      ensures payload != null ==> payload.Valid() && payload.entries == Stamped(old(payload.entries), nowMs)
      ensures secret.None? ==> r == Failure(SecretNotSet)
      ensures secret.Some? ==>
        r == Success(Dispatch(RequestFor(httpMethod, EncodedPath(urlPath, if payload == null then [] else old(payload.entries), nowMs, Signer()), []), transport))
    {
      var p := payload;
      if p == null {
        p := new Payload([]);
      }
      p.Put("timestamp", NatToDecimal(nowMs));
      var queryString := PrepareParams(p.entries);
      var signature := Sign(queryString);
      if signature.Failure? {
        return Failure(signature.error);
      }
      var path := urlPath + "?" + queryString + "&signature=" + signature.value;
      var sent, _ := SendRequest(httpMethod, path, None, transport);
      r := Success(sent);
    }
  }

  /**
   * The encoded request carries no parameters, and its URL is the base URL,
   * the path, `?` and the same signed query string a plain signed request
   * would send.
   */
  lemma EncodedRequestShape(client: BinanceHttpClient, httpMethod: string, urlPath: string, params: Params, nowMs: nat)
    requires client.secret.Some? && !HasKey(params, "signature")
    ensures var req := client.RequestFor(httpMethod, EncodedPath(urlPath, params, nowMs, client.Signer()), []);
      && req.params == ""
      && req.url == client.baseUrl + urlPath + "?" + client.RequestFor(httpMethod, urlPath, Signed(params, nowMs, client.Signer())).params
  {
    var sign := client.Signer();
    var path := EncodedPath(urlPath, params, nowMs, sign);
    var query := PrepareParams(Signed(params, nowMs, sign));
    EncodedMatchesSigned(urlPath, params, nowMs, sign);
    assert client.RequestFor(httpMethod, path, []).url == client.baseUrl + (urlPath + "?" + query);
    assert client.RequestFor(httpMethod, urlPath, Signed(params, nowMs, sign)).params == query;
    ConcatAssoc(client.baseUrl, urlPath + "?", query);
    ConcatAssoc(client.baseUrl, urlPath, "?");
  }
}
