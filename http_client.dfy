/** The forwarding client: header sanitation, retry classification, capped
    exponential backoff, the retry loop over abstract call outcomes, response
    body decoding by content type, and error formatting. The HTTP library is
    replaced by `Upstream`: the outcome of each attempt, UTF-8 decoding and
    JSON parsing are supplied as functions. */
module HttpClient {
  import opened Common
  import Config

  // ------------------------------------------------------------ data

  /** An axios response as received: the body is still raw bytes. */
  datatype RawResponse = RawResponse(status: int, statusText: string, headers: Headers, bytes: seq<byte>)

  /** A response after body decoding. */
  datatype HttpResponse = HttpResponse(status: int, statusText: string, headers: Headers, data: Body)

  /** What one call of the HTTP library does: resolve with a response or throw. */
  datatype CallOutcome = Responded(response: RawResponse) | Threw(error: JsError)

  /** The world outside the model: `call(i)` is the outcome of attempt i + 1. */
  datatype Upstream = Upstream(
    call: nat -> CallOutcome,
    utf8: seq<byte> -> string,
    parseJson: string -> Option<Json>)

  datatype ProxyRequestConfig = ProxyRequestConfig(
    httpMethod: string,
    url: string,
    headers: Option<Headers>,
    data: Option<Body>,
    params: Option<map<string, Json>>)

  /** A finished retry loop: its final outcome, the attempts made, and the
      backoff delays slept between them, in order. */
  datatype RetryRun = RetryRun(outcome: Result<RawResponse, JsError>, attempts: nat, delays: seq<int>)

  // ------------------------------------------------------------ headers

  /** Hop-by-hop and connection-specific fields that are never forwarded. */
  const ExcludedHeaders: seq<string> :=
    ["host", "connection", "content-length", "transfer-encoding", "upgrade", "http2-settings", "te", "trailer"]

  const MarkerHeader := "X-Proxied-By"
  const MarkerValue := "proxy-queue-server"

  predicate IsExcludedHeader(key: string)
  {
    Lower(key) in ExcludedHeaders
  }

  /** One header value as a single string: a list is joined with ", ". */
  function Flatten(v: HeaderValue): string
  {
    match v
    case Str(s) => s
    case List(values) => Join(values, ", ")
  }

  /** No excluded name is twelve characters long. */
  lemma TwelveCharNamesNotExcluded(key: string)
    requires |key| == 12
    ensures !IsExcludedHeader(key)
  {
    var l := Lower(key);
    assert |l| == 12;
    assert forall i :: 0 <= i < |ExcludedHeaders| ==> |ExcludedHeaders[i]| != 12;
  }

  /** The marker header is not among the excluded names, whatever its case. */
  lemma MarkerNotExcluded()
    ensures !IsExcludedHeader(MarkerHeader)
  {
    TwelveCharNamesNotExcluded(MarkerHeader);
  }

  /** What the outgoing header map is for given incoming headers: nothing when
      none were given; otherwise every non-excluded field under its own
      spelling with its value flattened, plus the marker, which wins over an
      incoming field of the same spelling. */
  ghost predicate Sanitized(headers: Option<Headers>, prepared: map<string, string>)
  {
    match headers
    case None => prepared == map[]
    case Some(h) => ForwardedWith(h, prepared, MarkerHeader, MarkerValue)
  }

  /** `prepared` holds the forwardable fields of `h` plus `name: value`. */
  ghost predicate ForwardedWith(h: Headers, prepared: map<string, string>, name: string, value: string)
  {
    && name in prepared && prepared[name] == value
    && (forall k :: k in prepared && k != name ==> k in h && !IsExcludedHeader(k) && prepared[k] == Flatten(h[k]))
    && (forall k :: k in h && !IsExcludedHeader(k) ==> k in prepared)
  }

  /** Adding a field that is not excluded to the forwardable fields. */
  lemma AddField(h: Headers, kept: map<string, string>, name: string, value: string)
    requires forall k :: k in kept ==> k in h && !IsExcludedHeader(k) && kept[k] == Flatten(h[k])
    requires forall k :: k in h && !IsExcludedHeader(k) ==> k in kept
    requires !IsExcludedHeader(name)
    ensures ForwardedWith(h, kept[name := value], name, value)
    ensures forall k :: k in kept[name := value] ==> !IsExcludedHeader(k)
  {
  }

  /** The incoming fields that may be forwarded, with flattened values. */
  method CopyForwarded(h: Headers) returns (kept: map<string, string>)
    ensures forall k :: k in kept ==> k in h && !IsExcludedHeader(k) && kept[k] == Flatten(h[k])
    ensures forall k :: k in h && !IsExcludedHeader(k) ==> k in kept
  {
    kept := map[];
    var todo := h.Keys;
    while todo != {}
      invariant todo <= h.Keys
      invariant forall k :: k in kept ==> k in h && k !in todo && !IsExcludedHeader(k) && kept[k] == Flatten(h[k])
      invariant forall k :: k in h && k !in todo && !IsExcludedHeader(k) ==> k in kept
      decreases todo
    {
      var key :| key in todo;
      todo := todo - {key};
      if !IsExcludedHeader(key) {
        kept := kept[key := Flatten(h[key])];
      }
    }
  }

  /** `prepareHeaders`: the forwarded fields plus the marker. */
  method PrepareHeaders(headers: Option<Headers>) returns (prepared: map<string, string>)
    ensures Sanitized(headers, prepared)
    ensures forall k :: k in prepared ==> !IsExcludedHeader(k)
  {
    if headers.None? {
      return map[];
    }
    var kept := CopyForwarded(headers.value);
    MarkerNotExcluded();
    AddField(headers.value, kept, MarkerHeader, MarkerValue);
    prepared := kept[MarkerHeader := MarkerValue];
  }

  // ------------------------------------------------------------ retry policy

  /** Error codes of transport failures worth another attempt. */
  const RetryableCodes: seq<string> := ["ECONNABORTED", "ENOTFOUND", "ECONNREFUSED", "ECONNRESET"]

  predicate IsRetryableError(e: JsError): (retry: bool)
    ensures e.response.Some? && 400 <= e.response.value.status < 500 ==> !retry
    ensures e.response.None? ==> retry
    ensures e.response.Some? && e.response.value.status >= 500 ==> retry
    ensures e.response.Some? && !(400 <= e.response.value.status) ==>
              (retry <==> e.code.Some? && e.code.value in RetryableCodes)
  {
    if e.response.Some? && 400 <= e.response.value.status < 500 then false
    else
      || e.response.None?
      || e.response.value.status >= 500
      || (e.code.Some? && e.code.value in RetryableCodes)
  }

  function Pow2(n: nat): (p: nat)
    ensures p >= 1
  {
    if n == 0 then 1 else 2 * Pow2(n - 1)
  }

  lemma {:induction false} Pow2Monotone(a: nat, b: nat)
    requires a <= b
    ensures Pow2(a) <= Pow2(b)
    decreases b - a
  {
    if a < b {
      Pow2Monotone(a, b - 1);
    }
  }

  /** The backoff before attempt `attempt + 1`: 1000 * 2^(attempt-1) ms, capped at 10 s. */
  function CalculateRetryDelay(attempt: nat): (delay: int)
    requires attempt >= 1
    ensures 1000 <= delay <= 10000
  {
    Min(1000 * Pow2(attempt - 1), 10000)
  }

  lemma RetryDelayMonotone(a: nat, b: nat)
    requires 1 <= a <= b
    ensures CalculateRetryDelay(a) <= CalculateRetryDelay(b)
  {
    Pow2Monotone(a - 1, b - 1);
  }

  /** The schedule 1000, 2000, 4000, 8000, then 10000 from the fifth delay on. */
  lemma RetryDelaySchedule(n: nat)
    requires n >= 5
    ensures CalculateRetryDelay(1) == 1000 && CalculateRetryDelay(2) == 2000
    ensures CalculateRetryDelay(3) == 4000 && CalculateRetryDelay(4) == 8000
    ensures CalculateRetryDelay(n) == 10000
  {
    Pow2Monotone(4, n - 1);
  }

  /** Reference definition of the retry loop, following the source's
      recursion: attempt `attempt` uses `call(attempt - 1)`; a thrown error is
      retried after the backoff while `attempt < cap` and it is retryable. */
  function RetryFrom(call: nat -> CallOutcome, cap: int, attempt: nat): RetryRun
    requires attempt >= 1
    decreases if attempt < cap then cap - attempt else 0
  {
    match call(attempt - 1)
    case Responded(resp) => RetryRun(Ok(resp), attempt, [])
    case Threw(e) =>
      if attempt < cap && IsRetryableError(e) then
        var rest := RetryFrom(call, cap, attempt + 1);
        RetryRun(rest.outcome, rest.attempts, [CalculateRetryDelay(attempt)] + rest.delays)
      else
        RetryRun(Err(e), attempt, [])
  }

  /** Everything a retry run from attempt `attempt` guarantees. */
  lemma {:induction false} RetryFromFacts(call: nat -> CallOutcome, cap: int, attempt: nat)
    requires attempt >= 1
    ensures var run := RetryFrom(call, cap, attempt);
      && attempt <= run.attempts <= Max(cap, attempt)
      && |run.delays| == run.attempts - attempt
      && (forall j :: 0 <= j < |run.delays| ==> run.delays[j] == CalculateRetryDelay(attempt + j))
      && (forall i :: attempt - 1 <= i < run.attempts - 1 ==>
            call(i).Threw? && IsRetryableError(call(i).error) && i + 1 < cap)
      && (match call(run.attempts - 1)
          case Responded(resp) => run.outcome == Ok(resp)
          case Threw(e) => run.outcome == Err(e) && (run.attempts >= cap || !IsRetryableError(e)))
    decreases if attempt < cap then cap - attempt else 0
  {
    match call(attempt - 1)
    case Responded(_) =>
    case Threw(e) =>
      if attempt < cap && IsRetryableError(e) {
        RetryFromFacts(call, cap, attempt + 1);
        var rest := RetryFrom(call, cap, attempt + 1);
        var run := RetryFrom(call, cap, attempt);
        assert run.delays == [CalculateRetryDelay(attempt)] + rest.delays;
        forall j | 0 <= j < |run.delays|
          ensures run.delays[j] == CalculateRetryDelay(attempt + j)
        {
          if j > 0 {
            assert run.delays[j] == rest.delays[j - 1];
          }
        }
      }
  }

  /** The retry policy from the first attempt: at most `cap` attempts (one when
      `cap <= 1`); a first success is returned unchanged; a non-retryable first
      error is rethrown after exactly one attempt; the k-th sleep is
      `CalculateRetryDelay(k)`. */
  lemma RetryPolicy(call: nat -> CallOutcome, cap: int)
    ensures var run := RetryFrom(call, cap, 1);
      && 1 <= run.attempts <= Max(cap, 1)
      && |run.delays| == run.attempts - 1
      && (forall j :: 0 <= j < |run.delays| ==> run.delays[j] == CalculateRetryDelay(j + 1))
      && (call(0).Responded? ==> run == RetryRun(Ok(call(0).response), 1, []))
      && (call(0).Threw? && !IsRetryableError(call(0).error) ==> run == RetryRun(Err(call(0).error), 1, []))
      && (run.outcome.Err? ==> call(run.attempts - 1) == Threw(run.outcome.error))
  {
    RetryFromFacts(call, cap, 1);
  }

  /** The total of the backoff sleeps in a run. */
  function Slept(delays: seq<int>): int
  {
    if delays == [] then 0 else delays[0] + Slept(delays[1..])
  }

  /** Sleeps each between `lo` and `hi` add up to between `lo` and `hi` per sleep. */
  lemma {:induction false} SleptBounds(delays: seq<int>, lo: int, hi: int)
    requires forall j :: 0 <= j < |delays| ==> lo <= delays[j] <= hi
    ensures lo * |delays| <= Slept(delays) <= hi * |delays|
  {
    if delays != [] {
      SleptBounds(delays[1..], lo, hi);
    }
  }

  /** How long `executeWithRetry` sleeps for the outside world `up`: one to
      ten seconds per retry. */
  function BackoffTime(up: Upstream): (t: nat)
    ensures var run := RetryFrom(up.call, Config.TargetRetries, 1);
      1000 * (run.attempts - 1) <= t <= 10000 * (run.attempts - 1)
  {
    var run := RetryFrom(up.call, Config.TargetRetries, 1);
    RetryFromFacts(up.call, Config.TargetRetries, 1);
    SleptBounds(run.delays, 1000, 10000);
    Slept(run.delays)
  }

  /** `executeWithRetry` with the cap as intended: a loop over attempts that
      records each backoff sleep. */
  method ExecuteWithRetry(call: nat -> CallOutcome, cap: int) returns (run: RetryRun)
    ensures run == RetryFrom(call, cap, 1)
  {
    var attempt: nat := 1;
    var delays: seq<int> := [];
    while true
      invariant attempt >= 1
      invariant RetryFrom(call, cap, 1) == RetryFrom(call, cap, attempt).(delays := delays + RetryFrom(call, cap, attempt).delays)
      decreases if attempt < cap then cap - attempt else 0
    {
      match call(attempt - 1)
      case Responded(resp) =>
        return RetryRun(Ok(resp), attempt, delays);
      case Threw(e) =>
        if attempt < cap && IsRetryableError(e) {
          var delay := CalculateRetryDelay(attempt);
          ghost var rest := RetryFrom(call, cap, attempt + 1);
          assert delays + ([delay] + rest.delays) == (delays + [delay]) + rest.delays;
          delays := delays + [delay];
          attempt := attempt + 1;
        } else {
          return RetryRun(Err(e), attempt, delays);
        }
    }
  }

  /** The error thrown when the catch block of `executeWithRetry` evaluates
      `config.target.retries` on the request configuration, which has no
      `target` field. */
  const UndefinedRetriesError := JsError("TypeError", "Cannot read properties of undefined (reading 'retries')",
                                         None, None, None, false, None, None, None)

  /** `executeWithRetry` as written: `config` there is the request
      configuration, which shadows the application configuration, so the
      first failed attempt raises a TypeError in place of the caught error and
      no attempt is ever repeated. */
  function ExecuteWithRetryAsWritten(call: nat -> CallOutcome): (run: RetryRun)
    ensures run.attempts == 1 && run.delays == []
    ensures call(0).Responded? ==> run.outcome == Ok(call(0).response)
    ensures call(0).Threw? ==> run.outcome == Err(UndefinedRetriesError)
  {
    match call(0)
    case Responded(resp) => RetryRun(Ok(resp), 1, [])
    case Threw(_) => RetryRun(Err(UndefinedRetriesError), 1, [])
  }

  /** A connection reset on every attempt: as written the request fails at
      once with a TypeError; with the intended cap of 3 it is tried three
      times, sleeping 1000 and 2000 ms, and fails with the reset itself. */
  lemma AsWrittenRetryDiscardsRetries()
    ensures var reset := JsError("Error", "read ECONNRESET", Some("ECONNRESET"), None, None, true, None, None, None);
      var call := (i: nat) => Threw(reset);
      && ExecuteWithRetryAsWritten(call) == RetryRun(Err(UndefinedRetriesError), 1, [])
      && RetryFrom(call, Config.TargetRetries, 1) == RetryRun(Err(reset), 3, [1000, 2000])
  {
    var reset := JsError("Error", "read ECONNRESET", Some("ECONNRESET"), None, None, true, None, None, None);
    var call := (i: nat) => Threw(reset);
    assert RetryFrom(call, 3, 3) == RetryRun(Err(reset), 3, []);
    assert RetryFrom(call, 3, 2) == RetryRun(Err(reset), 3, [2000]);
  }

  // ------------------------------------------------------------ bodies

  /** The response's content type as looked up by `headers['content-type']`. */
  function ContentType(h: Headers): Option<HeaderValue>
  {
    if "content-type" in h then Some(h["content-type"]) else None
  }

  /** `contentType.includes(needle)`: substring search on a string, element
      search on a list; an absent content type is `''`. */
  predicate Mentions(contentType: Option<HeaderValue>, needle: string)
  {
    match contentType
    case None => Contains("", needle)
    case Some(Str(s)) => Contains(s, needle)
    case Some(List(values)) => needle in values
  }

  /** Decoding of a response body by its content type. */
  function DecodeBody(contentType: Option<HeaderValue>, raw: seq<byte>,
                      utf8: seq<byte> -> string, parseJson: string -> Option<Json>): (b: Body)
    ensures Mentions(contentType, "application/json") ==>
              b == (match parseJson(utf8(raw)) case Some(j) => JsonBody(j) case None => RawBody(raw))
    ensures !Mentions(contentType, "application/json") && Mentions(contentType, "text/") ==> b == TextBody(utf8(raw))
    ensures b.RawBody? ==> b.bytes == raw
    ensures b.TextBody? ==> Mentions(contentType, "text/") && b.text == utf8(raw)
    ensures b.JsonBody? ==> Mentions(contentType, "application/json")
    ensures !Mentions(contentType, "application/json") && !Mentions(contentType, "text/") ==> b == RawBody(raw)
  {
    var isJson := Mentions(contentType, "application/json");
    if isJson || Mentions(contentType, "text/") then
      var text := utf8(raw);
      if isJson then
        match parseJson(text)
        case Some(j) => JsonBody(j)
        case None => RawBody(raw)
      else TextBody(text)
    else RawBody(raw)
  }

  /** The response handed back: status, status text and headers as received,
      the body decoded by the response's own content type. */
  function DecodeResponse(raw: RawResponse, up: Upstream): (r: HttpResponse)
    ensures r.status == raw.status && r.statusText == raw.statusText && r.headers == raw.headers
    ensures r.data == DecodeBody(ContentType(raw.headers), raw.bytes, up.utf8, up.parseJson)
    ensures r.data.RawBody? ==> r.data.bytes == raw.bytes
  {
    HttpResponse(raw.status, raw.statusText, raw.headers,
                 DecodeBody(ContentType(raw.headers), raw.bytes, up.utf8, up.parseJson))
  }

  // ------------------------------------------------------------ errors

  /** The error handed to callers when forwarding fails. */
  function FormatError(e: JsError): (f: JsError)
    ensures e.response.Some? ==>
              && f.message == "Target server error: " + IntToString(e.response.value.status) + " " + e.response.value.statusText
              && f.status == Some(e.response.value.status)
              && f.response == e.response
    ensures e.response.None? && e.request ==>
              && f.message == "Network error: " + e.message
              && f.code == Some(OrDefault(e.code, "NETWORK_ERROR"))
              && f.response.None? && f.status.None?
    ensures e.response.None? && !e.request ==> f == e
  {
    if e.response.Some? then
      var resp := e.response.value;
      PlainError("Target server error: " + IntToString(resp.status) + " " + resp.statusText)
        .(status := Some(resp.status), response := Some(resp))
    else if e.request then
      PlainError("Network error: " + e.message).(code := Some(OrDefault(e.code, "NETWORK_ERROR")))
    else e
  }

  // ------------------------------------------------------------ forwarding

  /** What `proxyRequest` resolves or rejects with, as a function of the
      outside world: the retried call with its body decoded, or the last
      error formatted. */
  function ProxyOutcome(up: Upstream): Result<HttpResponse, JsError>
  {
    match RetryFrom(up.call, Config.TargetRetries, 1).outcome
    case Ok(raw) => Ok(DecodeResponse(raw, up))
    case Err(e) => Err(FormatError(e))
  }

  method ProxyRequest(req: ProxyRequestConfig, up: Upstream) returns (r: Result<HttpResponse, JsError>, sent: map<string, string>)
    ensures r == ProxyOutcome(up)
    ensures Sanitized(req.headers, sent)
  {
    sent := PrepareHeaders(req.headers);
    var run := ExecuteWithRetry(up.call, Config.TargetRetries);
    match run.outcome
    case Ok(raw) =>
      r := Ok(DecodeResponse(raw, up));
    case Err(e) =>
      r := Err(FormatError(e));
  }

  /** A downstream error response is never retried when it is a client error
      and is surfaced with its status after a single attempt. */
  lemma ClientErrorSurfacesOnce(up: Upstream, info: ResponseInfo, e: JsError)
    requires up.call(0) == Threw(e) && e.response == Some(info) && 400 <= info.status < 500
    ensures RetryFrom(up.call, Config.TargetRetries, 1).attempts == 1
    ensures ProxyOutcome(up).Err? && ProxyOutcome(up).error.status == Some(info.status)
  {
  }

  /** A transport failure on every attempt is tried exactly `TargetRetries`
      times and reported as a network error. */
  lemma PersistentNetworkFailure(up: Upstream, e: JsError)
    requires forall i :: up.call(i) == Threw(e)
    requires e.response.None? && e.request
    ensures RetryFrom(up.call, Config.TargetRetries, 1).attempts == Config.TargetRetries
    ensures ProxyOutcome(up) == Err(FormatError(e))
    ensures ProxyOutcome(up).error.message == "Network error: " + e.message
  {
    assert RetryFrom(up.call, 3, 3).attempts == 3;
  }
}
