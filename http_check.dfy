/** The HTTP health check (src/service/healthchecks/http.rs). The network is
    an oracle from the request that would be sent to the response that comes
    back; what is left is the classification of that response. */
module HttpCheck {
  import opened Wrappers
  import opened Config

  /** `http::StatusCode` holds a three-digit code. */
  type StatusCode = c: int | 100 <= c <= 999 witness 200

  /** Kinds of `reqwest::Error` the probe can meet. */
  datatype RequestError = TimedOut | ConnectError | InvalidUrl | OtherError

  /** What `request.send().await` yields. */
  datatype Response = Status(code: StatusCode) | TransportError(error: RequestError)

  /** The request `check_inner` builds: a GET of `url` with a timeout in seconds. */
  datatype Request = Request(url: string, timeoutSecs: U64)

  type Network = Request -> Response

  /** `StatusCode::is_success`: the 2xx range. */
  predicate IsSuccess(code: StatusCode) {
    200 <= code <= 299
  }

  /** The success statuses are the class `2xx`: first digit 2. */
  lemma SuccessIsClassTwo(code: StatusCode)
    ensures IsSuccess(code) <==> code / 100 == 2
  {
  }

  /** The probe's request: its URL, and its timeout or `u64::MAX` seconds
      when none is configured. */
  function RequestFor(h: Http): (r: Request)
    ensures r.url == h.url
    ensures h.timeout.Some? ==> r.timeoutSecs == h.timeout.value
    ensures h.timeout.None? ==> r.timeoutSecs == U64_MAX
  {
    Request(h.url, h.timeout.GetOr(U64_MAX))
  }

  /** The `match response` of `check_inner`: only a success status is `Ok`;
      every other status and every request error is `Failed`. */
  function Classify(response: Response): (state: HealthCheckState)
    ensures state == Ok <==> response.Status? && 200 <= response.code < 300
    ensures response.TransportError? ==> state == Failed
  {
    match response
    case Status(code) => if IsSuccess(code) then Ok else Failed
    case TransportError(_) => Failed
  }

  /** `HttpHealthCheck::check_inner`. */
  function CheckInner(h: Http, network: Network): (state: HealthCheckState)
    ensures state == Ok <==> exists code: StatusCode ::
      network(RequestFor(h)) == Status(code) && IsSuccess(code)
  {
    var response := network(RequestFor(h));
    assert response.Status? ==> response == Status(response.code);
    Classify(response)
  }

  /** `HealthCheck::check` for HTTP: `check_inner` inside a tracing span;
      the span does not change the outcome. */
  function Check(h: Http, network: Network): (state: HealthCheckState)
    ensures state == CheckInner(h, network)
    ensures state == Failed <==> !IsSuccessResponse(network(RequestFor(h)))
  {
    CheckInner(h, network)
  }

  predicate IsSuccessResponse(response: Response) {
    response.Status? && IsSuccess(response.code)
  }

  /** The test cases of http.rs, with the network fixed to the answer the
      test expects from it. */
  lemma SuccessStatusIsOk()
    ensures Check(NewHttp(Some("test"), "https://httpstat.us/200", None), _ => Status(200)) == Ok
  {
  }

  lemma ServerErrorIsFailed()
    ensures Check(NewHttp(Some("test"), "https://httpstat.us/500", None), _ => Status(500)) == Failed
  {
  }

  lemma TimeoutIsFailed()
    ensures Check(NewHttp(Some("test"), "https://httpstat.us/200?sleep=10000", Some(1)),
                  (r: Request) => if r.timeoutSecs < 10 then TransportError(TimedOut) else Status(200)) == Failed
  {
  }

  lemma NoTimeoutWaits()
    ensures Check(NewHttp(Some("test"), "https://httpstat.us/200?sleep=1", None),
                  (r: Request) => if r.timeoutSecs < 1 then TransportError(TimedOut) else Status(200)) == Ok
  {
  }

  lemma InvalidUrlIsFailed()
    ensures Check(NewHttp(Some("test"), "not a url", None), _ => TransportError(InvalidUrl)) == Failed
  {
  }
}
