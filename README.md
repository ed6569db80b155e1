# handyman, modelled in Dafny

handyman is a small daemon that runs health checks (HTTP probes) for each
loaded configuration, reduces each probe group's outcomes to two flags
("some probe failed", "some probe succeeded"), and runs the shell command of
every handler whose trigger state matches a raised flag. A separate
`check-config` command validates that each handler's command names an
executable file.

This project models, in Dafny 4.11:

- `config.dfy` (module `Config`): the configuration records: `Http`,
  `Handler`, `Configuration` and the two-valued `HealthCheckState` with its
  wire names `"ok"` and `"failed"`. Rust's field getters are the datatype
  destructors.
- `http_check.dfy` (module `HttpCheck`): how an HTTP probe's response is
  classified, and the request it sends (the configured timeout, or
  `u64::MAX` seconds). The network is a function from the request to a
  `Response`: a status code or a transport error.
- `handyman.dfy` (module `Handyman`): the body of the `run_healthchecks!`
  macro for the `http` group, one iteration of `run_config`, a bounded run
  of it, and `run_handler`. The probe results and the handler runs are
  recorded as a trace of `Event`s (`Slept`, `Probed`, `Handled`). The
  loops are methods proved against the trace functions (`HealthcheckEvents`,
  `IterationEvents`, `RunEvents`), and the properties are lemmas about those
  functions.
- `check_config.dfy` (module `CheckConfig`): `check_config` over an already
  parsed configuration. It takes the first whitespace-separated word of each
  command, looks it up, checks that the file exists and can be opened, and
  applies the execute-bit test. The file system is a `FileSystem` value:
  `which` maps a command name to its full path, and `files` maps each
  existing path to its metadata.
- `wrappers.dfy` (module `Wrappers`): `Option` and `Result`.

Oracles and abstractions:

- The network is a function `Request -> Response`.
- The operating system's process launch is a function from the argument
  vector (`["sh", "-c", command]`) to a `ProcessOutcome`: the spawn failed,
  the process exited with a code, or a signal ended it.
- One loop iteration is given one `World` (network and shell). The endless
  `loop` of `run_config` is modelled for any finite number of iterations,
  one world each.
- `which::which`, `Path::exists`, `File::open` and `metadata()` are lookups
  in the `FileSystem` value.
- Rust's `u64` and `u32` are subset types of `int`. The permission mode is
  a `bv32`, so `!` is the bitwise complement of a `u32`.

Behaviour of the code worth noting:

- When no timeout is configured, the probe is sent with a timeout of
  `u64::MAX` seconds (src/service/healthchecks/http.rs:28). The request always
  carries a timeout. `RequestFor` states this.
- The handler dispatch uses `if / else if` (src/service/handyman.rs:36-40).
  A handler has exactly one trigger state, so every matching handler
  runs. `HandlerRunsIff` proves that a handler runs exactly when some
  probe of the group returned its trigger state. `HandlersRunInOrderOnce`
  proves that each handler runs at most once per pass, in declared order.
- A present but empty `http` group is still processed
  (src/service/handyman.rs:16). It evaluates nothing and runs no handler.
- src/commands/check_config.rs:15 matches `Some(handlers)` against
  `config.handlers()`. But src/config.rs:56 returns the handler list itself,
  not an option. The model walks the handler list.
- src/config.rs:1 imports a trait that src/service/healthcheck.rs does not
  declare. This model does not need that trait.

## Model

| member | source | states |
|---|---|---|
| `Config.WireName` | src/config.rs:95-101 | `Ok` is named `"ok"` and `Failed` is named `"failed"`, and no other name occurs |
| `Config.ParseState` | src/config.rs:95-101 | `"ok"` decodes to `Ok` and `"failed"` to `Failed`; every other string is rejected; a decoded state's wire name is the input |
| `Config.StateRoundTrip` | src/config.rs:95-101 | decoding the wire name of a state gives that state back |
| `Config.NewHttp` | src/config.rs:14-20 | `Http::new` stores its name, URL and timeout unchanged |
| `Config.NewHttpFromGetters` | src/config.rs:22-32 | a probe is rebuilt exactly from what its getters `name`, `url`, `timeout` return |
| `Config.HandlerGetters` | src/config.rs:69-93 | the `Handler` getters `name`, `command`, `state`, `timeout` return the stored fields |
| `Config.ConfigurationGetters` | src/config.rs:36-64 | `name`, `interval`, `handlers` (in stored order) and `http` return the stored fields |
| `HttpCheck.RequestFor` | src/service/healthchecks/http.rs:25-28 | the request goes to the probe's URL, with the configured timeout, or `u64::MAX` seconds when none is set |
| `HttpCheck.SuccessIsClassTwo` | src/service/healthchecks/http.rs:38 | a status is a success exactly when its class digit is 2, that is 200 through 299 (`StatusCode::is_success`) |
| `HttpCheck.Classify` | src/service/healthchecks/http.rs:36-48 | a response is `Ok` iff it has a 2xx status; every other status and every transport error is `Failed` |
| `HttpCheck.CheckInner` | src/service/healthchecks/http.rs:24-49 | the probe is `Ok` iff the network answers its request with a success status |
| `HttpCheck.Check` | src/service/healthchecks/http.rs:56-64 | `check` returns exactly what `check_inner` returns; it is `Failed` iff the response is not a success status |
| `HttpCheck.SuccessStatusIsOk` | src/service/healthchecks/http.rs:72-85 | a 200 answer gives `Ok` |
| `HttpCheck.ServerErrorIsFailed` | src/service/healthchecks/http.rs:87-100 | a 500 answer gives `Failed` |
| `HttpCheck.TimeoutIsFailed` | src/service/healthchecks/http.rs:102-115 | a request that times out after its 1-second timeout gives `Failed` |
| `HttpCheck.NoTimeoutWaits` | src/service/healthchecks/http.rs:117-130 | with no timeout configured, a slow answer is still waited for and gives `Ok` |
| `HttpCheck.InvalidUrlIsFailed` | src/service/healthchecks/http.rs:132-141 | an invalid URL (a request error) gives `Failed` |
| `Handyman.ShellCommand` | src/service/handyman.rs:88-91 | the argument vector is `sh`, `-c`, then the whole command string |
| `Handyman.RunHandler` | src/service/handyman.rs:81-101 | the outcome is `Succeeded` iff the shell exits with code 0 and `LaunchFailed` iff the process cannot be started; any other exit is `CommandFailed`; no outcome is an error for the caller |
| `Handyman.Results` | src/service/handyman.rs:24-28 | `results` has one entry per probe, in the configured order, each the probe's check result |
| `Handyman.Any` | src/service/handyman.rs:30-33 | a flag is raised iff some result equals its state |
| `Handyman.Fires` | src/service/handyman.rs:36-40 | the `if / else if` fires iff (`any_failed` and the trigger is `Failed`) or (`any_success` and the trigger is `Ok`) |
| `Handyman.HandlerEvents` | src/service/handyman.rs:35-41 | every handler run is a firing handler with the outcome of running it, and the runs are in strictly increasing handler order |
| `Handyman.ProbeGroup` | src/service/handyman.rs:24-28 | the probe loop pushes exactly `Results` and records one event per probe |
| `Handyman.DispatchHandlers` | src/service/handyman.rs:35-41 | the handler loop produces exactly `HandlerEvents` |
| `Handyman.RunHealthchecks` | src/service/handyman.rs:14-44 | the macro body produces exactly the probe events followed by the handler events, or nothing without an `http` group |
| `Handyman.RunConfigIteration` | src/service/handyman.rs:71-78 | one iteration is the optional sleep followed by the health checks |
| `Handyman.RunConfig` | src/service/handyman.rs:71-79 | a run of the loop is the concatenation of its iterations |
| `Handyman.EmptyGroupRaisesNothing` | src/service/handyman.rs:30-33 | an empty group raises neither flag |
| `Handyman.MixedGroupRaisesBoth` | src/service/handyman.rs:30-33 | a group with both outcomes raises both flags |
| `Handyman.AnyIgnoresOrder` | src/service/handyman.rs:30-33 | the flags do not depend on the order of the results |
| `Handyman.FiringHandlerIsRun` | src/service/handyman.rs:35-41 | every handler that matches a raised flag is run, with its outcome |
| `Handyman.HandlerEventsRunIff` | src/service/handyman.rs:35-41 | in the handler loop a handler is run iff it matches a raised flag |
| `Handyman.GroupEventsShape` | src/service/handyman.rs:24-41 | a pass lists each probe's result first, in order, and after them only handler runs |
| `Handyman.HandlerRunsIff` | src/service/handyman.rs:24-41 | a handler runs in a pass iff some probe of the group returned the handler's trigger state |
| `Handyman.HandlersRunInOrderOnce` | src/service/handyman.rs:35-41 | handlers run in declared order, each at most once per pass |
| `Handyman.NoGroupNoWork` | src/service/handyman.rs:16 | without an `http` group no probe is evaluated and no handler runs; the iteration only waits |
| `Handyman.IterationSleepsFirst` | src/service/handyman.rs:72-77 | an iteration waits iff an interval is set; the wait is its first event and its only wait |
| `Handyman.SleepsOncePerIteration` | src/service/handyman.rs:71-79 | a run waits once per iteration when an interval is set and never otherwise |
| `Handyman.IterationsCompose` | src/service/handyman.rs:71-101 | iterations are independent: later iterations happen in full whatever earlier handlers returned |
| `Handyman.ScenarioOkRunsOkHandler` | src/service/handyman.rs:14-44 | one 200 probe and one `Ok` handler running `true`: the handler runs and succeeds |
| `Handyman.ScenarioFailedSkipsOkHandler` | src/service/handyman.rs:14-44 | a failing probe with only an `Ok` handler: nothing runs |
| `Handyman.ScenarioMixedRunsBoth` | src/service/handyman.rs:14-44 | a group with one success and one failure runs both an `Ok` and a `Failed` handler in one pass |
| `Handyman.ScenarioFailingCommandKeepsLooping` | src/service/handyman.rs:71-101 | a handler exiting with 1 is logged as failed and the next iteration waits and runs again |
| `CheckConfig.WhitespaceIsUnicodeSet` | src/commands/check_config.rs:21 | the separator set of `split_whitespace` is exactly the 25 code points of the Unicode White_Space property (`char::is_whitespace`) |
| `CheckConfig.TrimStart` | src/commands/check_config.rs:20-22 | the result is a suffix of the input after only whitespace, and starts with a non-whitespace character or is empty |
| `CheckConfig.TakeToken` | src/commands/check_config.rs:20-22 | the result is the longest prefix without whitespace |
| `CheckConfig.FirstToken` | src/commands/check_config.rs:20-23 | there is no first word iff the command is empty or only whitespace; a word is non-empty and has no whitespace |
| `CheckConfig.FirstTokenIsLeadingWord` | src/commands/check_config.rs:20-22 | the first word follows only whitespace and ends at whitespace or at the end of the command |
| `CheckConfig.FirstTokenIgnoresArguments` | src/commands/check_config.rs:19-23 | leading whitespace, a word, then whitespace and arguments: the word is what is checked |
| `CheckConfig.TabSeparates` | src/commands/check_config.rs:21 | in `"echo\t-n"` the tab ends the command word, so `echo` is what is checked |
| `CheckConfig.NoBreakSpaceSeparates` | src/commands/check_config.rs:21 | a no-break space (U+00A0) after the command word ends it, like a space |
| `CheckConfig.IdeographicSpaceIsSkipped` | src/commands/check_config.rs:21 | a leading ideographic space (U+3000) is skipped before the command word |
| `CheckConfig.NotExecutable` | src/commands/check_config.rs:44-47 | `((!mode) & 0o111) == 0o111` holds iff no execute bit is set; any one execute bit passes |
| `CheckConfig.CheckHandler` | src/commands/check_config.rs:17-47 | an empty or blank command is rejected as not a valid command |
| `CheckConfig.CheckHandlerPassesIff` | src/commands/check_config.rs:17-47 | a handler passes iff its first word resolves to an existing, openable file with an execute bit |
| `CheckConfig.CheckHandlerErrors` | src/commands/check_config.rs:26-47 | an unresolved name, a missing path, an unopenable file and a file without execute bits each give their own error |
| `CheckConfig.FirstFailureIsFirst` | src/commands/check_config.rs:16-48 | checking in order succeeds iff every item passes, and otherwise returns the error of the first failing item |
| `CheckConfig.FirstFailureStops` | src/commands/check_config.rs:16-48 | items after the first failure do not change the result |
| `CheckConfig.CheckHandlersFirstError` | src/commands/check_config.rs:16-48 | the handler check succeeds iff every handler passes, and otherwise returns the first failing handler's error |
| `CheckConfig.CheckStopsAtFirstError` | src/commands/check_config.rs:16-48 | handlers after the first failing one are never examined |
| `CheckConfig.CheckConfig` | src/commands/check_config.rs:10-56 | the loop with early return gives `Ok(())` iff every handler passes, and otherwise the first failing handler's error |
| `CheckConfig.ExecutableCommandIsAccepted` | src/commands/check_config.rs:62-75 | a single-word command (such as `echo`) resolving to an openable file with an execute bit is accepted |
| `CheckConfig.UnresolvedCommandIsRejected` | src/commands/check_config.rs:77-105 | a command that does not resolve (such as `fake-test-command`) is rejected |
| `CheckConfig.NonExecutableFileIsRejected` | src/commands/check_config.rs:107-120 | a resolved path with no execute bit is rejected by the mode test |
| `CheckConfig.TestModes` | src/commands/check_config.rs:44-47 | mode 0o644 is rejected; 0o755 and 0o744 pass |
| `CheckConfig.BlankCommandIsRejected` | src/commands/check_config.rs:20-23 | an empty or blank command is rejected before any lookup |

## Left out

- The tokio runtime and task orchestration (`start_service`,
  `start_service_async`, `tokio::spawn`, `join_all`): they only add
  concurrency. Each runner is modelled on its own; runners share nothing.
- The endless loop of `run_config`: the model covers any finite number of
  iterations. A sleep is a `Slept` event, not elapsed time.
- Network I/O through `reqwest`: it is the network oracle. The model does
  not relate the timeout to elapsed time. `NoTimeoutWaits` only shows that
  the `u64::MAX`-second default lets a slow answer through.
- Running `sh -c` (`std::process::Command`) is the shell oracle. Timing and
  output capture are not modelled.
- Tracing: `info!`, `debug!` and spans are left out. The two `error!`
  outcomes of `run_handler` are the `LaunchFailed` and `CommandFailed`
  outcomes. The `error!` that `check_inner` logs for a failed request
  (src/service/healthchecks/http.rs:45) is left out: a `TransportError`
  only gives `Failed`.
- TOML/serde parsing of whole configurations is left out. Only the decoding
  of a trigger state from its name is modelled. `check_config` takes an
  already parsed configuration, so its parse error is not modelled.
- `which::which`, `Path::exists`, `File::open` and `metadata()` are the
  `FileSystem` lookups. A failure of `File::open` and a failure of
  `metadata()` are one case, `Unopenable`.
- `print_syntax` printing of the configuration in `check_config`: it is
  output only.
- src/commands/systemd.rs is directory and file I/O. Its `run_service`
  discards the configurations it reads.
- src/cli.rs (argument definitions), src/main.rs (demo printing) and
  src/service/healthcheck.rs (the one-method trait `HealthCheck`): their
  only behaviour is the interface that `HttpCheck.Check` models.
- `Handler.timeout` is kept as data. Dispatch never reads it.
- `which::which` returns only paths that exist and are executable, so a
  file like `/etc/passwd` already fails at the lookup
  (src/commands/check_config.rs:26-28). The model's `FileSystem.which` is
  an unconstrained map, so it also admits lookups the library never
  returns. The model is weaker than the library here.
- Each iteration has one fixed `Network` and one fixed `Shell`. Two probes
  with the same URL and timeout, or two handlers with the same command, get
  the same outcome within one pass. The real probes are separate calls to a
  live server, and their answers can differ.
