/** The configuration data model of handyman: the immutable records every
    other module reads (src/config.rs). Rust getters that return a field
    unchanged are the datatype destructors here. */
module Config {
  import opened Wrappers

  const U64_MAX: int := 0xFFFF_FFFF_FFFF_FFFF

  /** Rust `u64`. */
  type U64 = x: int | 0 <= x <= U64_MAX

  /** Rust `u32`. */
  type U32 = x: int | 0 <= x < 0x1_0000_0000

  /** The outcome of one health check; nothing else exists (no "pending"). */
  datatype HealthCheckState = Ok | Failed

  /** The serde name of each state (`#[serde(rename = ...)]`). */
  function WireName(state: HealthCheckState): (name: string)
    ensures name == "ok" <==> state == Ok
    ensures name == "failed" <==> state == Failed
  {
    match state
    case Ok => "ok"
    case Failed => "failed"
  }

  /** Decoding a trigger state from its wire name; serde matches the
      names exactly and rejects every other string. */
  function ParseState(s: string): (r: Option<HealthCheckState>)
    ensures r.Some? <==> s == "ok" || s == "failed"
    ensures r.Some? ==> WireName(r.value) == s
    ensures s == "ok" ==> r == Some(Ok)
    ensures s == "failed" ==> r == Some(Failed)
  {
    if s == "ok" then Some(Ok)
    else if s == "failed" then Some(Failed)
    else None
  }

  lemma StateRoundTrip(state: HealthCheckState)
    ensures ParseState(WireName(state)) == Some(state)
  {
  }

  /** An HTTP probe: an optional identity name, the URL and an optional
      per-probe timeout in seconds. */
  datatype Http = Http(name: Option<string>, url: string, timeout: Option<U64>)

  /** `Http::new` generated by the `healthchecks!` macro. */
  function NewHttp(name: Option<string>, url: string, timeout: Option<U64>): (h: Http)
    ensures h.name == name && h.url == url && h.timeout == timeout
  {
    Http(name, url, timeout)
  }

  /** A probe is determined by what its getters return. */
  lemma NewHttpFromGetters(h: Http)
    ensures NewHttp(h.name, h.url, h.timeout) == h
  {
  }

  /** A handler: a shell command run when the aggregate outcome of a probe
      group matches `state`. `timeout` is carried as data only. */
  datatype Handler = Handler(
    name: Option<string>,
    command: string,
    state: HealthCheckState,
    timeout: Option<U32>)

  lemma HandlerGetters(name: Option<string>, command: string, state: HealthCheckState, timeout: Option<U32>)
    ensures var h := Handler(name, command, state, timeout);
      h.name == name && h.command == command && h.state == state && h.timeout == timeout
  {
  }

  /** One loaded configuration file. The only probe group the source
      declares is `http`; it is optional as a whole. */
  datatype Configuration = Configuration(
    name: Option<string>,
    interval: Option<U64>,
    handlers: seq<Handler>,
    http: Option<seq<Http>>)

  lemma ConfigurationGetters(name: Option<string>, interval: Option<U64>, handlers: seq<Handler>, http: Option<seq<Http>>)
    ensures var c := Configuration(name, interval, handlers, http);
      c.name == name && c.interval == interval && c.handlers == handlers && c.http == http
  {
  }
}
