/** The scheduling-and-dispatch engine (src/service/handyman.rs): one pass
    of the `run_healthchecks!` macro over the `http` probe group, the loop
    iteration of `run_config`, and `run_handler`. Probes and shell commands
    are oracles held in a `World`; what the engine does is recorded as a
    sequence of events. */
module Handyman {
  import opened Wrappers
  import opened Config
  import opened HttpCheck

  /** What `Command::new("sh").arg("-c").arg(command).output()` yields:
      the process could not be started, it exited with a code, or a signal
      ended it. */
  datatype ProcessOutcome = SpawnError | Exited(code: int) | Signalled(signal: int)

  /** The operating system, from an argument vector to the outcome. */
  type Shell = seq<string> -> ProcessOutcome

  /** What `run_handler` makes of a command: nothing logged, "Failed to run
      command" logged, or "Command failed" logged. None of them is an error
      that reaches the caller. */
  datatype HandlerOutcome = Succeeded | LaunchFailed | CommandFailed

  /** The observable steps of a runner: an interval wait, the evaluation of
      the probe at an index of the group, and the run of the handler at an
      index of the handler list. */
  datatype Event =
    | Slept(seconds: U64)
    | Probed(probe: nat, state: HealthCheckState)
    | Handled(handler: nat, outcome: HandlerOutcome)

  /** The environment of one loop iteration. */
  datatype World = World(network: Network, shell: Shell)

  /** The argument vector of `sh -c <command>`: the command is handed to the
      shell whole. */
  function ShellCommand(command: string): (argv: seq<string>)
    ensures |argv| == 3 && argv[..2] == ["sh", "-c"] && argv[2] == command
  {
    ["sh", "-c", command]
  }

  /** `run_handler`. `ExitStatus::success` holds exactly for exit code 0. */
  function RunHandler(h: Handler, shell: Shell): (outcome: HandlerOutcome)
    ensures outcome == Succeeded <==> shell(ShellCommand(h.command)) == Exited(0)
    ensures outcome == LaunchFailed <==> shell(ShellCommand(h.command)) == SpawnError
  {
    match shell(ShellCommand(h.command))
    case SpawnError => LaunchFailed
    case Exited(code) => if code == 0 then Succeeded else CommandFailed
    case Signalled(_) => CommandFailed
  }

  // ---------------------------------------------------------------------
  // Specification of one pass over a probe group

  /** The `results` vector: one push per probe, in the group's order. */
  function Results(probes: seq<Http>, network: Network): (results: seq<HealthCheckState>)
    ensures |results| == |probes|
    ensures forall i :: 0 <= i < |probes| ==> results[i] == Check(probes[i], network)
  {
    if probes == [] then []
    else
      var n := |probes| - 1;
      Results(probes[..n], network) + [Check(probes[n], network)]
  }

  /** `results.iter().any(|result| result == &target)`. */
  function Any(results: seq<HealthCheckState>, target: HealthCheckState): (r: bool)
    ensures r <==> target in results
  {
    |results| > 0 && (results[0] == target || Any(results[1..], target))
  }

  /** The `if / else if` of the handler loop. */
  function Fires(h: Handler, anyFailed: bool, anySuccess: bool): (r: bool)
    ensures r <==> (anyFailed && h.state == Failed) || (anySuccess && h.state == Ok)
  {
    if anyFailed && h.state == Failed then true
    else if anySuccess && h.state == Ok then true
    else false
  }

  /** One event per probe result, in order. */
  function ProbeEvents(results: seq<HealthCheckState>): (events: seq<Event>)
    ensures |events| == |results|
    ensures forall i :: 0 <= i < |results| ==> events[i] == Probed(i, results[i])
  {
    seq(|results|, i requires 0 <= i < |results| => Probed(i, results[i]))
  }

  /** The handler loop: the handlers that fire, in declared order, each with
      the outcome of running it. */
  function HandlerEvents(handlers: seq<Handler>, anyFailed: bool, anySuccess: bool, shell: Shell): (events: seq<Event>)
    ensures forall k :: 0 <= k < |events| ==>
      events[k].Handled? && events[k].handler < |handlers| &&
      Fires(handlers[events[k].handler], anyFailed, anySuccess) &&
      events[k].outcome == RunHandler(handlers[events[k].handler], shell)
    ensures forall k, l :: 0 <= k < l < |events| ==> events[k].handler < events[l].handler
  {
    if handlers == [] then []
    else
      var n := |handlers| - 1;
      var earlier := HandlerEvents(handlers[..n], anyFailed, anySuccess, shell);
      earlier + (if Fires(handlers[n], anyFailed, anySuccess) then [Handled(n, RunHandler(handlers[n], shell))] else [])
  }

  /** One expansion of `run_healthchecks!` for a present group. */
  function GroupEvents(probes: seq<Http>, handlers: seq<Handler>, world: World): (events: seq<Event>)
  {
    var results := Results(probes, world.network);
    ProbeEvents(results) + HandlerEvents(handlers, Any(results, Failed), Any(results, Ok), world.shell)
  }

  /** `run_healthchecks!(config, http, HttpHealthCheck)`: nothing at all when
      the configuration has no `http` group. */
  function HealthcheckEvents(config: Configuration, world: World): (events: seq<Event>)
  {
    match config.http
    case None => []
    case Some(probes) => GroupEvents(probes, config.handlers, world)
  }

  function SleepEvents(config: Configuration): (events: seq<Event>)
  {
    match config.interval
    case None => []
    case Some(seconds) => [Slept(seconds)]
  }

  /** One iteration of the `loop` in `run_config`. */
  function IterationEvents(config: Configuration, world: World): (events: seq<Event>)
  {
    SleepEvents(config) + HealthcheckEvents(config, world)
  }

  /** The first `|worlds|` iterations of `run_config`, one world each. */
  function RunEvents(config: Configuration, worlds: seq<World>): (events: seq<Event>)
  {
    if worlds == [] then []
    else
      var n := |worlds| - 1;
      RunEvents(config, worlds[..n]) + IterationEvents(config, worlds[n])
  }

  // ---------------------------------------------------------------------
  // The engine

  /** The `for healthcheck_config in healthchecks` loop: evaluate each
      probe in order and push its result. */
  method ProbeGroup(probes: seq<Http>, network: Network) returns (results: seq<HealthCheckState>, events: seq<Event>)
    ensures results == Results(probes, network)
    ensures events == ProbeEvents(results)
  {
    results, events := [], [];
    for i := 0 to |probes|
      invariant results == Results(probes[..i], network)
      invariant events == ProbeEvents(results)
    {
      var state := Check(probes[i], network);
      ResultsUnfold(probes, network, i);
      results := results + [state];
      events := events + [Probed(i, state)];
    }
    assert probes[..|probes|] == probes;
  }

  /** The `for handler in config.handlers()` loop. */
  method DispatchHandlers(handlers: seq<Handler>, anyFailed: bool, anySuccess: bool, shell: Shell) returns (events: seq<Event>)
    ensures events == HandlerEvents(handlers, anyFailed, anySuccess, shell)
  {
    events := [];
    for i := 0 to |handlers|
      invariant events == HandlerEvents(handlers[..i], anyFailed, anySuccess, shell)
    {
      var h := handlers[i];
      HandlerEventsUnfold(handlers, anyFailed, anySuccess, shell, i);
      if anyFailed && h.state == Failed {
        var outcome := RunHandler(h, shell);
        events := events + [Handled(i, outcome)];
      } else if anySuccess && h.state == Ok {
        var outcome := RunHandler(h, shell);
        events := events + [Handled(i, outcome)];
      }
    }
    assert handlers[..|handlers|] == handlers;
  }

  lemma ResultsUnfold(probes: seq<Http>, network: Network, i: nat)
    requires i < |probes|
    ensures Results(probes[..i + 1], network) == Results(probes[..i], network) + [Check(probes[i], network)]
  {
    assert probes[..i + 1][..i] == probes[..i];
  }

  lemma HandlerEventsUnfold(handlers: seq<Handler>, anyFailed: bool, anySuccess: bool, shell: Shell, i: nat)
    requires i < |handlers|
    ensures HandlerEvents(handlers[..i + 1], anyFailed, anySuccess, shell)
      == HandlerEvents(handlers[..i], anyFailed, anySuccess, shell)
         + (if Fires(handlers[i], anyFailed, anySuccess) then [Handled(i, RunHandler(handlers[i], shell))] else [])
  {
    assert handlers[..i + 1][..i] == handlers[..i];
  }

  /** The body of `run_healthchecks!`: probe each configured URL in order,
      reduce to the two flags, then walk the handlers in order. */
  method RunHealthchecks(config: Configuration, world: World) returns (events: seq<Event>)
    ensures events == HealthcheckEvents(config, world)
  {
    events := [];
    if config.http.Some? {
      var results, probed := ProbeGroup(config.http.value, world.network);
      var anyFailed := Any(results, Failed);
      var anySuccess := Any(results, Ok);
      var handled := DispatchHandlers(config.handlers, anyFailed, anySuccess, world.shell);
      events := probed + handled;
    }
  }

  /** One iteration of `run_config`: sleep only when an interval is set,
      then run the health checks. */
  method RunConfigIteration(config: Configuration, world: World) returns (events: seq<Event>)
    ensures events == IterationEvents(config, world)
  {
    events := [];
    if config.interval.Some? {
      events := [Slept(config.interval.value)];
    }
    var checks := RunHealthchecks(config, world);
    events := events + checks;
  }

  /** `run_config`, cut off after one iteration per world. */
  method RunConfig(config: Configuration, worlds: seq<World>) returns (events: seq<Event>)
    ensures events == RunEvents(config, worlds)
  {
    events := [];
    for i := 0 to |worlds|
      invariant events == RunEvents(config, worlds[..i])
    {
      var step := RunConfigIteration(config, worlds[i]);
      assert worlds[..i + 1][..i] == worlds[..i];
      events := events + step;
    }
    assert worlds[..|worlds|] == worlds;
  }

  // ---------------------------------------------------------------------
  // Properties of the trace functions

  /** An empty group raises neither flag. */
  lemma EmptyGroupRaisesNothing()
    ensures !Any([], Failed) && !Any([], Ok)
  {
  }

  /** A group with both outcomes raises both flags. */
  lemma MixedGroupRaisesBoth(results: seq<HealthCheckState>)
    requires Failed in results && Ok in results
    ensures Any(results, Failed) && Any(results, Ok)
  {
  }

  /** The flags do not depend on the order of the results. */
  lemma AnyIgnoresOrder(a: seq<HealthCheckState>, b: seq<HealthCheckState>, target: HealthCheckState)
    requires multiset(a) == multiset(b)
    ensures Any(a, target) == Any(b, target)
  {
    assert target in a <==> target in multiset(a);
    assert target in b <==> target in multiset(b);
  }

  /** Every handler that matches a raised flag is run. */
  lemma {:induction false} FiringHandlerIsRun(handlers: seq<Handler>, anyFailed: bool, anySuccess: bool, shell: Shell, i: nat)
    requires i < |handlers| && Fires(handlers[i], anyFailed, anySuccess)
    ensures Handled(i, RunHandler(handlers[i], shell)) in HandlerEvents(handlers, anyFailed, anySuccess, shell)
  {
    var n := |handlers| - 1;
    if i < n {
      assert handlers[..n][i] == handlers[i];
      FiringHandlerIsRun(handlers[..n], anyFailed, anySuccess, shell, i);
    }
  }

  /** A pass lists the probe results first, in order, then only handler runs. */
  lemma GroupEventsShape(probes: seq<Http>, handlers: seq<Handler>, world: World)
    ensures var events := GroupEvents(probes, handlers, world);
      |probes| <= |events| &&
      (forall k :: 0 <= k < |probes| ==> events[k] == Probed(k, Check(probes[k], world.network))) &&
      (forall k :: |probes| <= k < |events| ==> events[k].Handled?)
  {
    var results := Results(probes, world.network);
    var handled := HandlerEvents(handlers, Any(results, Failed), Any(results, Ok), world.shell);
    assert GroupEvents(probes, handlers, world) == ProbeEvents(results) + handled;
  }

  /** Within the handler loop, a handler is run iff it matches a raised flag. */
  lemma HandlerEventsRunIff(handlers: seq<Handler>, anyFailed: bool, anySuccess: bool, shell: Shell, i: nat)
    requires i < |handlers|
    ensures Handled(i, RunHandler(handlers[i], shell)) in HandlerEvents(handlers, anyFailed, anySuccess, shell)
      <==> Fires(handlers[i], anyFailed, anySuccess)
  {
    if Fires(handlers[i], anyFailed, anySuccess) {
      FiringHandlerIsRun(handlers, anyFailed, anySuccess, shell, i);
    }
  }

  /** A handler is run in a pass iff its trigger state is the outcome of
      some probe of the group: `Failed` when some probe failed, `Ok` when
      some probe succeeded. */
  lemma HandlerRunsIff(probes: seq<Http>, handlers: seq<Handler>, world: World, i: nat)
    requires i < |handlers|
    ensures Handled(i, RunHandler(handlers[i], world.shell)) in GroupEvents(probes, handlers, world)
      <==> exists j :: 0 <= j < |probes| && Check(probes[j], world.network) == handlers[i].state
  {
    var results := Results(probes, world.network);
    var anyFailed, anySuccess := Any(results, Failed), Any(results, Ok);
    var handled := HandlerEvents(handlers, anyFailed, anySuccess, world.shell);
    var run := Handled(i, RunHandler(handlers[i], world.shell));
    assert GroupEvents(probes, handlers, world) == ProbeEvents(results) + handled;
    assert run !in ProbeEvents(results);
    HandlerEventsRunIff(handlers, anyFailed, anySuccess, world.shell, i);
    var target := handlers[i].state;
    if target in results {
      var j :| 0 <= j < |results| && results[j] == target;
      assert Check(probes[j], world.network) == target;
    }
  }

  /** Handlers run in declared order, each at most once per pass (the
      `else if` never runs a handler twice). */
  lemma HandlersRunInOrderOnce(probes: seq<Http>, handlers: seq<Handler>, world: World)
    ensures var events := GroupEvents(probes, handlers, world);
      forall k, l :: 0 <= k < l < |events| && events[k].Handled? && events[l].Handled? ==>
        events[k].handler < events[l].handler
  {
    var results := Results(probes, world.network);
    var handled := HandlerEvents(handlers, Any(results, Failed), Any(results, Ok), world.shell);
    var events := GroupEvents(probes, handlers, world);
    assert events == ProbeEvents(results) + handled;
    forall k, l | 0 <= k < l < |events| && events[k].Handled? && events[l].Handled?
      ensures events[k].handler < events[l].handler
    {
      assert k >= |results| && l >= |results|;
      assert events[k] == handled[k - |results|] && events[l] == handled[l - |results|];
    }
  }

  /** Without an `http` group an iteration evaluates no probe and runs no
      handler; it only waits. */
  lemma NoGroupNoWork(config: Configuration, world: World)
    requires config.http.None?
    ensures IterationEvents(config, world) == SleepEvents(config)
  {
  }

  /** An iteration waits iff an interval is set, and the wait comes before
      every probe and handler. */
  lemma IterationSleepsFirst(config: Configuration, world: World)
    ensures var events := IterationEvents(config, world);
      (config.interval.Some? ==> |events| > 0 && events[0] == Slept(config.interval.value)) &&
      (forall k :: 0 <= k < |events| && events[k].Slept? ==> k == 0 && config.interval.Some?)
  {
    var events := IterationEvents(config, world);
    var checks := HealthcheckEvents(config, world);
    assert events == SleepEvents(config) + checks;
    if config.http.Some? {
      GroupEventsShape(config.http.value, config.handlers, world);
    }
    assert forall k :: 0 <= k < |checks| ==> !checks[k].Slept?;
  }

  /** The number of waits in a trace. */
  function CountSlept(events: seq<Event>): (n: nat)
    ensures n <= |events|
  {
    if events == [] then 0
    else CountSlept(events[..|events| - 1]) + (if events[|events| - 1].Slept? then 1 else 0)
  }

  lemma {:induction false} CountSleptAppend(a: seq<Event>, b: seq<Event>)
    ensures CountSlept(a + b) == CountSlept(a) + CountSlept(b)
  {
    if b != [] {
      var n := |b| - 1;
      assert (a + b)[..|a + b| - 1] == a + b[..n];
      CountSleptAppend(a, b[..n]);
    } else {
      assert a + b == a;
    }
  }

  /** Over any number of iterations the runner waits once per iteration
      when an interval is set, and never otherwise (a tight poll loop). */
  lemma {:induction false} SleepsOncePerIteration(config: Configuration, worlds: seq<World>)
    ensures CountSlept(RunEvents(config, worlds)) == if config.interval.Some? then |worlds| else 0
  {
    if worlds != [] {
      var n := |worlds| - 1;
      SleepsOncePerIteration(config, worlds[..n]);
      CountSleptAppend(RunEvents(config, worlds[..n]), IterationEvents(config, worlds[n]));
      var checks := HealthcheckEvents(config, worlds[n]);
      CountSleptAppend(SleepEvents(config), checks);
      IterationSleepsFirst(config, worlds[n]);
      NoSleepInChecks(config, worlds[n]);
    }
  }

  lemma NoSleepInChecks(config: Configuration, world: World)
    ensures CountSlept(HealthcheckEvents(config, world)) == 0
  {
    var checks := HealthcheckEvents(config, world);
    if config.http.Some? {
      GroupEventsShape(config.http.value, config.handlers, world);
    }
    NoSleptCountsZero(checks);
  }

  lemma {:induction false} NoSleptCountsZero(events: seq<Event>)
    requires forall k :: 0 <= k < |events| ==> !events[k].Slept?
    ensures CountSlept(events) == 0
  {
    if events != [] {
      NoSleptCountsZero(events[..|events| - 1]);
    }
  }

  /** Iterations are independent: what a later iteration does is not
      affected by earlier ones, failed handler commands included. */
  lemma {:induction false} IterationsCompose(config: Configuration, first: seq<World>, rest: seq<World>)
    ensures RunEvents(config, first + rest) == RunEvents(config, first) + RunEvents(config, rest)
  {
    if rest == [] {
      assert first + rest == first;
    } else {
      var n := |rest| - 1;
      var all := first + rest;
      assert all[..|all| - 1] == first + rest[..n];
      assert all[|all| - 1] == rest[n];
      var before, middle, last := RunEvents(config, first), RunEvents(config, rest[..n]), IterationEvents(config, rest[n]);
      RunEventsUnfold(config, rest);
      RunEventsUnfold(config, all);
      IterationsCompose(config, first, rest[..n]);
      ConcatAssociates(before, middle, last);
    }
  }

  lemma RunEventsUnfold(config: Configuration, worlds: seq<World>)
    requires worlds != []
    ensures RunEvents(config, worlds)
      == RunEvents(config, worlds[..|worlds| - 1]) + IterationEvents(config, worlds[|worlds| - 1])
  {
  }

  lemma ConcatAssociates<T>(a: seq<T>, b: seq<T>, c: seq<T>)
    ensures (a + b) + c == a + (b + c)
  {
  }

  // ---------------------------------------------------------------------
  // Scenarios

  function ProbeAt(url: string): Http {
    NewHttp(None, url, None)
  }

  /** No interval, one probe answering 200, one `Ok` handler running `true`:
      the handler runs and nothing is logged as failed. */
  lemma ScenarioOkRunsOkHandler()
    ensures IterationEvents(
      Configuration(None, None, [Handler(None, "true", Ok, None)], Some([ProbeAt("http://a")])),
      World(_ => Status(200), _ => Exited(0)))
      == [Probed(0, Ok), Handled(0, Succeeded)]
  {
    var probes := [ProbeAt("http://a")];
    assert probes[..0] == [];
  }

  /** The probe fails and the only handler waits for `Ok`: nothing runs. */
  lemma ScenarioFailedSkipsOkHandler()
    ensures IterationEvents(
      Configuration(None, None, [Handler(None, "true", Ok, None)], Some([ProbeAt("http://a")])),
      World(_ => Status(500), _ => Exited(0)))
      == [Probed(0, Failed)]
  {
    var probes := [ProbeAt("http://a")];
    assert probes[..0] == [];
  }

  /** A network where "http://up" answers 200 and every other URL 503. */
  function SplitNetwork(r: Request): Response {
    if r.url == "http://up" then Status(200) else Status(503)
  }

  function ExitWith(code: int): Shell {
    _ => Exited(code)
  }

  /** A mixed group runs both an `Ok` and a `Failed` handler in one pass. */
  lemma ScenarioMixedRunsBoth()
    ensures IterationEvents(
      Configuration(None, None,
        [Handler(None, "on-ok", Ok, None), Handler(None, "on-failed", Failed, None)],
        Some([ProbeAt("http://up"), ProbeAt("http://down")])),
      World(SplitNetwork, ExitWith(0)))
      == [Probed(0, Ok), Probed(1, Failed), Handled(0, Succeeded), Handled(1, Succeeded)]
  {
    var probes := [ProbeAt("http://up"), ProbeAt("http://down")];
    var handlers := [Handler(None, "on-ok", Ok, None), Handler(None, "on-failed", Failed, None)];
    var results := Results(probes, SplitNetwork);
    assert Check(probes[0], SplitNetwork) == Ok;
    assert Check(probes[1], SplitNetwork) == Failed;
    assert results == [Ok, Failed];
    assert Any(results, Failed) && Any(results, Ok);
    HandlerEventsUnfold(handlers, true, true, ExitWith(0), 0);
    HandlerEventsUnfold(handlers, true, true, ExitWith(0), 1);
    assert handlers[..0] == [] && handlers[..2] == handlers;
  }

  /** A handler exiting with status 1 is logged as failed, and the runner
      goes on to the next iteration, which waits and runs it again. */
  lemma ScenarioFailingCommandKeepsLooping()
    ensures var world := World(_ => Status(500), ExitWith(1));
      RunEvents(
        Configuration(None, Some(5), [Handler(None, "exit 1", Failed, None)], Some([ProbeAt("http://a")])),
        [world, world])
      == [Slept(5), Probed(0, Failed), Handled(0, CommandFailed),
          Slept(5), Probed(0, Failed), Handled(0, CommandFailed)]
  {
    var world := World(_ => Status(500), ExitWith(1));
    var config := Configuration(None, Some(5), [Handler(None, "exit 1", Failed, None)], Some([ProbeAt("http://a")]));
    var probes := [ProbeAt("http://a")];
    assert probes[..0] == [];
    var once := IterationEvents(config, world);
    assert once == [Slept(5), Probed(0, Failed), Handled(0, CommandFailed)];
    var worlds := [world, world];
    RunEventsUnfold(config, worlds);
    RunEventsUnfold(config, worlds[..1]);
    assert worlds[..1][..0] == [];
  }
}
