/**
 * The API client's interceptors (src/lib/api/client.ts).
 *
 * The transport is abstract: a call yields either a delivered response or a
 * transport failure shaped like an axios error (an optional server response,
 * a flag saying whether a request went out, and a message). Browser storage
 * is a string map and `window.location.href` a ghost field.
 */
module Client {
  import opened Common
  import opened ApiTypes

  type Headers = map<string, string>
  type Storage = map<string, string>

  const AccessTokenKey: string := "accessToken"
  const RefreshTokenKey: string := "refreshToken"
  const AuthorizationHeader: string := "Authorization"
  const LoginPath: string := "/login"

  datatype RequestConfig = RequestConfig(url: string, headers: Option<Headers>)

  /** A response that reached the client with a success status. */
  datatype RawResponse<T> = RawResponse(status: int, data: T)

  /** The server's answer carried by a failing call; `data` is `None` when the body is falsy. */
  datatype ErrorResponse = ErrorResponse(status: int, data: Option<ApiError>)

  /** An axios error: `response?`, whether `request` is set, and `message` ("" when missing). */
  datatype TransportError = TransportError(response: Option<ErrorResponse>, request: bool, message: string)

  datatype Outcome<T> = Delivered(response: RawResponse<ApiResponse<T>>) | Failed(error: TransportError)

  // ---------------------------------------------------------------------
  // Request decorator (client.ts:24-33)

  /** `localStorage.getItem('accessToken')` is truthy. */
  predicate HasToken(storage: Storage) {
    AccessTokenKey in storage && storage[AccessTokenKey] != ""
  }

  function DecorateRequest(storage: Storage, config: RequestConfig): (r: RequestConfig)
    ensures r.url == config.url && r.headers.Some? == config.headers.Some?
    ensures !HasToken(storage) || config.headers.None? ==> r == config
  {
    if HasToken(storage) && config.headers.Some? then
      config.(headers := Some(config.headers.value[AuthorizationHeader := "Bearer " + storage[AccessTokenKey]]))
    else
      config
  }

  /** With a token, the bearer header is set to exactly that token and every other header is kept. */
  lemma DecorateSetsBearer(storage: Storage, config: RequestConfig)
    requires HasToken(storage) && config.headers.Some?
    ensures var h := DecorateRequest(storage, config).headers.value;
      && AuthorizationHeader in h
      && h[AuthorizationHeader] == "Bearer " + storage[AccessTokenKey]
      && h.Keys == config.headers.value.Keys + {AuthorizationHeader}
      && forall k :: k in config.headers.value && k != AuthorizationHeader ==> h[k] == config.headers.value[k]
  {
    var h0 := config.headers.value;
    var h := DecorateRequest(storage, config).headers.value;
    assert h == h0[AuthorizationHeader := "Bearer " + storage[AccessTokenKey]];
    assert h.Keys == h0.Keys + {AuthorizationHeader};
  }

  /** Decorating twice is the same as decorating once. */
  lemma DecorateIdempotent(storage: Storage, config: RequestConfig)
    ensures DecorateRequest(storage, DecorateRequest(storage, config)) == DecorateRequest(storage, config)
  {
    if HasToken(storage) && config.headers.Some? {
      var v := "Bearer " + storage[AccessTokenKey];
      var h := config.headers.value[AuthorizationHeader := v];
      assert h[AuthorizationHeader := v] == h;
    }
  }

  // ---------------------------------------------------------------------
  // Response interceptor (client.ts:40-85)

  const FallbackError: ApiError := ApiError("An error occurred", None, None)
  const NetworkError: ApiError :=
    ApiError("Network error. Please check your connection.", Some("NETWORK_ERROR"), None)
  const UnexpectedMessage: string := "An unexpected error occurred"

  function UnknownError(message: string): ApiError {
    ApiError(if message != "" then message else UnexpectedMessage, Some("UNKNOWN_ERROR"), None)
  }

  /** Which arm of the ordered decision handles a failure. */
  datatype Branch = ResponseArm | RequestArm | OtherArm

  function BranchOf(e: TransportError): (b: Branch)
    ensures b == ResponseArm <==> e.response.Some?
    ensures b == RequestArm <==> e.response.None? && e.request
    ensures b == OtherArm <==> e.response.None? && !e.request
  {
    if e.response.Some? then ResponseArm else if e.request then RequestArm else OtherArm
  }

  /**
   * The value a failure rejects with: a server body is passed on untouched
   * (the fixed fallback when there is none); without a server response the
   * value always carries a code and a non-empty message.
   */
  function Rejection(e: TransportError): (r: ApiError)
    ensures e.response.Some? && e.response.value.data.Some? ==> r == e.response.value.data.value
    ensures e.response.Some? && e.response.value.data.None? ==> r == FallbackError
    ensures e.response.None? ==> r.code.Some? && r.message != "" && r.details.None?
  {
    match BranchOf(e)
    case ResponseArm => match e.response.value.data { case Some(d) => d case None => FallbackError }
    case RequestArm => NetworkError
    case OtherArm => UnknownError(e.message)
  }

  /** What the caller's promise settles to: the body itself on success, the rejection otherwise. */
  function Settle<T>(o: Outcome<T>): (r: Result<ApiResponse<T>, ApiError>)
    ensures r.Ok? <==> o.Delivered?
    ensures o.Delivered? ==> r.value == o.response.data
    ensures o.Failed? ==> r.error == Rejection(o.error)
  {
    match o
    case Delivered(resp) => Ok(resp.data)
    case Failed(e) => Err(Rejection(e))
  }

  /** A failure carrying a server response settles to the server body (or the fallback), whatever else it carries. */
  lemma ResponseArmWins(status: int, data: Option<ApiError>, request: bool, message: string)
    ensures Rejection(TransportError(Some(ErrorResponse(status, data)), request, message))
         == (if data.Some? then data.value else FallbackError)
  {
  }

  /** Only the request arm yields the network error, and then always with the fixed text. */
  lemma RequestArmIsNetworkError(e: TransportError)
    requires e.response.None?
    ensures e.request ==> Rejection(e) == NetworkError
    ensures !e.request ==> Rejection(e).code == Some("UNKNOWN_ERROR") && Rejection(e).message != ""
    ensures !e.request ==> (Rejection(e).message == e.message <==> e.message != "")
  {
  }

  /** The failure ends the session: a server response with status 401. */
  predicate EndsSession<T>(o: Outcome<T>) {
    o.Failed? && o.error.response.Some? && o.error.response.value.status == 401
  }

  function StorageAfter<T>(storage: Storage, o: Outcome<T>): (s: Storage)
    ensures EndsSession(o) ==> AccessTokenKey !in s && RefreshTokenKey !in s
    ensures forall k :: k != AccessTokenKey && k != RefreshTokenKey ==> (k in s <==> k in storage)
    ensures forall k :: k in s ==> k in storage && s[k] == storage[k]
    ensures !EndsSession(o) ==> s == storage
  {
    if EndsSession(o) then storage - {AccessTokenKey, RefreshTokenKey} else storage
  }

  /** The `console.error` lines a failure writes. */
  function LoggedLines<T>(o: Outcome<T>): (lines: seq<string>)
    ensures |lines| <= 1
    ensures lines != [] ==> o.Failed? && o.error.response.Some?
    ensures o.Failed? && o.error.response.Some? && o.error.response.value.status >= 500 ==>
      lines == ["Server error. Please try again later."]
    ensures o.Failed? && o.error.response.Some? && o.error.response.value.status == 429 ==>
      lines == ["Too many requests. Please try again later."]
  {
    if o.Failed? && o.error.response.Some? then
      var status := o.error.response.value.status;
      (if status == 429 then ["Too many requests. Please try again later."] else [])
      + (if status >= 500 then ["Server error. Please try again later."] else [])
    else []
  }

  /** Rate-limited and server-error responses only log: storage and the location stay as they are. */
  lemma ThrottledAndServerErrorsOnlyLog<T>(storage: Storage, o: Outcome<T>)
    requires o.Failed? && o.error.response.Some?
    requires o.error.response.value.status == 429 || o.error.response.value.status >= 500
    ensures !EndsSession(o) && StorageAfter(storage, o) == storage
    ensures |LoggedLines(o)| == 1
  {
  }

  // ---------------------------------------------------------------------
  // Upload progress (client.ts:118-123)

  /** `Math.round(n / d)` for `n >= 0`, `d > 0`: the floor of `n / d + 1/2`. */
  function RoundDiv(n: nat, d: nat): (q: nat)
    requires d > 0
    ensures 2 * d * q <= 2 * n + d < 2 * d * (q + 1)
  {
    (2 * n + d) / (2 * d)
  }

  /**
   * The percentage passed to `onProgress`, or `None` when no callback is
   * given or the event has no (or a zero) total.
   */
  function UploadProgress(hasCallback: bool, loaded: nat, total: Option<nat>): (r: Option<nat>)
    ensures r.Some? <==> hasCallback && total.Some? && total.value != 0
    ensures r.Some? ==> 2 * total.value * r.value <= 200 * loaded + total.value < 2 * total.value * (r.value + 1)
  {
    if hasCallback && total.Some? && total.value != 0 then Some(RoundDiv(loaded * 100, total.value)) else None
  }

  lemma RoundDivMonotone(n1: nat, n2: nat, d: nat)
    requires d > 0 && n1 <= n2
    ensures RoundDiv(n1, d) <= RoundDiv(n2, d)
  {
    var q1, q2 := RoundDiv(n1, d), RoundDiv(n2, d);
    assert q1 * (2 * d) < (q2 + 1) * (2 * d);
    MulCancelStrict(q1, q2 + 1, 2 * d);
  }

  lemma RoundDivHundred(d: nat)
    requires d > 0
    ensures RoundDiv(d * 100, d) == 100
  {
    var q := RoundDiv(d * 100, d);
    assert 2 * d * q == (2 * q) * d;
    assert 2 * d * (q + 1) == (2 * q + 2) * d;
    assert 2 * (d * 100) + d == 201 * d;
    MulCancel(2 * q, 201, d);
    MulCancelStrict(201, 2 * q + 2, d);
  }

  /** While the bytes sent stay within the total, the percentage lies in [0, 100]. */
  lemma ProgressInRange(loaded: nat, total: nat)
    requires 0 < total && loaded <= total
    ensures var p := UploadProgress(true, loaded, Some(total)).value; 0 <= p <= 100
  {
    RoundDivMonotone(loaded * 100, total * 100, total);
    RoundDivHundred(total);
  }

  /** More bytes sent never reports a smaller percentage; all bytes sent reports 100. */
  lemma ProgressMonotone(loaded1: nat, loaded2: nat, total: nat)
    requires 0 < total && loaded1 <= loaded2
    ensures UploadProgress(true, loaded1, Some(total)).value <= UploadProgress(true, loaded2, Some(total)).value
    ensures UploadProgress(true, total, Some(total)) == Some(100)
  {
    RoundDivMonotone(loaded1 * 100, loaded2 * 100, total);
    RoundDivHundred(total);
  }

  // ---------------------------------------------------------------------
  // The client object

  class ApiClient {
    /** `localStorage`, as far as the interceptors touch it. */
    var storage: Storage
    /** `window.location.href`. */
    ghost var location: string
    /** Lines written with `console.error`. */
    ghost var consoleLog: seq<string>

    constructor(storage: Storage, location: string)
      ensures this.storage == storage && this.location == location && consoleLog == []
    {
      this.storage := storage;
      this.location := location;
      consoleLog := [];
    }

    /** The request interceptor: reads storage, changes nothing. */
    method InterceptRequest(config: RequestConfig) returns (r: RequestConfig)
      ensures r == DecorateRequest(storage, config)
    {
      r := config;
      if AccessTokenKey in storage {
        var token := storage[AccessTokenKey];
        if token != "" && config.headers.Some? {
          r := config.(headers := Some(config.headers.value[AuthorizationHeader := "Bearer " + token]));
        }
      }
    }

    /** The response interceptor, with the 401 teardown and the logging side effects. */
    method InterceptResponse<T>(o: Outcome<T>) returns (r: Result<ApiResponse<T>, ApiError>)
      modifies this
      ensures r == Settle(o)
      ensures storage == StorageAfter(old(storage), o)
      ensures location == if EndsSession(o) then LoginPath else old(location)
      ensures consoleLog == old(consoleLog) + LoggedLines(o)
    {
      match o {
        case Delivered(resp) =>
          r := Ok(resp.data);
        case Failed(e) =>
          if e.response.Some? {
            var status := e.response.value.status;
            if status == 401 {
              storage := storage - {AccessTokenKey};
              storage := storage - {RefreshTokenKey};
              location := LoginPath;
            }
            if status == 429 {
              consoleLog := consoleLog + ["Too many requests. Please try again later."];
            }
            if status >= 500 {
              consoleLog := consoleLog + ["Server error. Please try again later."];
            }
            r := Err(if e.response.value.data.Some? then e.response.value.data.value else FallbackError);
          } else if e.request {
            r := Err(NetworkError);
          } else {
            r := Err(UnknownError(e.message));
          }
      }
    }

    /**
     * One call through the pipeline: decorate, hand the request to the
     * transport, settle the outcome.
     */
    method Call<T>(config: RequestConfig, transport: RequestConfig -> Outcome<T>) returns (r: Result<ApiResponse<T>, ApiError>)
      modifies this
      ensures r == Settle(transport(DecorateRequest(old(storage), config)))
      ensures storage == StorageAfter(old(storage), transport(DecorateRequest(old(storage), config)))
      ensures location == if EndsSession(transport(DecorateRequest(old(storage), config))) then LoginPath else old(location)
      ensures consoleLog == old(consoleLog) + LoggedLines(transport(DecorateRequest(old(storage), config)))
    {
      var decorated := InterceptRequest(config);
      r := InterceptResponse(transport(decorated));
    }
  }
}
