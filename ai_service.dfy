/** `callAI`: looks the provider up, resolves the model, asks the provider's
    `build` for a command line, spawns it, and settles from the child's
    events. The child process is a finite sequence of events in arrival
    order; the promise settles at the first event that settles it, and the
    ones after it change nothing. */
module AiService {
  import opened Wrappers
  import opened Text
  import opened FileSystem
  import opened TaskModel
  import opened Providers

  /** What the child process and the timer deliver, in order. */
  datatype ChildEvent =
    | Stdout(chunk: string)
    | Stderr(chunk: string)
    | Close(code: Option<nat>)   // `None` is the `null` code of a child ended by a signal
    | SpawnError(message: string)
    | TimerFired

  /** The state of the returned promise. */
  datatype Settlement = Resolved(output: string) | Rejected(message: string) | Pending

  /** The promise's state and whether `child.kill()` was called. */
  datatype Outcome = Outcome(settled: Settlement, killed: bool)

  /** The arguments `spawn` was called with. */
  datatype Spawned = Spawned(command: string, args: seq<string>)

  /** `config.providers` and `config.model`. */
  datatype AiConfig = AiConfig(providers: map<string, Descriptor>, model: Option<string>)

  /** The options `callAI` reads; missing ones take the defaults of its signature. */
  datatype CallOptions = CallOptions(provider: Option<string>, files: Files, model: Option<string>, timeout: Option<int>)

  function ProviderName(opts: CallOptions): string
  {
    opts.provider.GetOr("gemini")
  }

  function Timeout(opts: CallOptions): int
  {
    opts.timeout.GetOr(0)
  }

  /** `files = ""` applies when `files` is undefined. */
  function FilesOption(opts: CallOptions): (f: Files)
    ensures opts.files.NoFiles? ==> f == FileText("")
    ensures !opts.files.NoFiles? ==> f == opts.files
    ensures FilesTruthy(f) == FilesTruthy(opts.files)
  {
    if opts.files.NoFiles? then FileText("") else opts.files
  }

  /** `model || providerConfig.defaultModel || config.model || null`. */
  function ResolveModel(task: Option<string>, providerDefault: Option<string>, global: Option<string>): (m: Option<string>)
    ensures Truthy(task) ==> m == task
    ensures !Truthy(task) && Truthy(providerDefault) ==> m == providerDefault
    ensures !Truthy(task) && !Truthy(providerDefault) && Truthy(global) ==> m == global
    ensures !Truthy(task) && !Truthy(providerDefault) && !Truthy(global) ==> m.None?
    ensures m.None? || Truthy(m)
  {
    if Truthy(task) then task
    else if Truthy(providerDefault) then providerDefault
    else if Truthy(global) then global
    else None
  }

  /** Everything before `spawn`: the provider lookup, the check that `build` is a
      function, and the call to it. A failure is the rejection message, and
      nothing is spawned. */
  function Prepare(prompt: string, opts: CallOptions, config: AiConfig, fs: Fs): (r: Result<Spawned>)
    ensures ProviderName(opts) !in config.providers ==> r == Failure("Unknown provider: " + ProviderName(opts))
    ensures ProviderName(opts) in config.providers && config.providers[ProviderName(opts)].build.None? ==>
      r == Failure("Provider " + ProviderName(opts) + " must export a 'build' function.")
    ensures ProviderName(opts) in config.providers && config.providers[ProviderName(opts)].build.Some? ==>
      var d := config.providers[ProviderName(opts)];
      var built := Layout(d.build.value, prompt, ResolveModel(opts.model, d.defaultModel, config.model), FilesOption(opts), fs);
      (built.Failure? ==> r == Failure(built.error))
      && (built.Success? ==> r == Success(Spawned(built.value.command, built.value.args.GetOr([]))))
  {
    var name := ProviderName(opts);
    if name !in config.providers then Failure("Unknown provider: " + name)
    else
      var d := config.providers[name];
      var model := ResolveModel(opts.model, d.defaultModel, config.model);
      match d.build
      case None => Failure("Provider " + name + " must export a 'build' function.")
      case Some(b) =>
        match Layout(b, prompt, model, FilesOption(opts), fs)
        case Failure(e) => Failure(e)
        case Success(inv) => Success(Spawned(inv.command, inv.args.GetOr([])))
  }

  /** The text a data event adds to `output`. */
  function Chunk(e: ChildEvent): string
  {
    match e
    case Stdout(c) => c
    case Stderr(c) => c
    case _ => ""
  }

  /** `output`: every stdout and stderr chunk, in arrival order. */
  function Collected(events: seq<ChildEvent>): string
  {
    if events == [] then "" else Collected(events[..|events| - 1]) + Chunk(events[|events| - 1])
  }

  /** The code as a template literal renders it. */
  function RenderCode(code: Option<nat>): string
  {
    match code
    case Some(n) => NatToString(n)
    case None => "null"
  }

  /** How event `e` settles a still pending promise, with `output` read so far;
      `Pending` for data events, and for a timer that was never set. */
  function SettleBy(name: string, e: ChildEvent, output: string, timeout: int): (s: Settlement)
    ensures s.Resolved? ==> e == Close(Some(0)) && s.output == (if output == "" then "No output from AI." else output)
    ensures e.Close? && e.code != Some(0) ==> s == Rejected(name + " failed with exit code " + RenderCode(e.code))
    ensures e.SpawnError? ==> s == Rejected(name + " failed: " + e.message)
    ensures e.TimerFired? && timeout > 0 ==> s == Rejected("AI process timed out after " + NatToString(timeout) + "ms")
    ensures s.Pending? <==> e.Stdout? || e.Stderr? || (e.TimerFired? && timeout <= 0)
  {
    match e
    case Stdout(_) => Pending
    case Stderr(_) => Pending
    case Close(code) =>
      if code == Some(0) then Resolved(if output == "" then "No output from AI." else output)
      else Rejected(name + " failed with exit code " + RenderCode(code))
    case SpawnError(m) => Rejected(name + " failed: " + m)
    case TimerFired => if timeout > 0 then Rejected("AI process timed out after " + NatToString(timeout) + "ms") else Pending
  }

  /** The promise after `events`: the first settling event decides it, and the
      child is killed only when the timer is what settled it. */
  function Lifecycle(name: string, events: seq<ChildEvent>, timeout: int): Outcome
  {
    if events == [] then Outcome(Pending, false)
    else
      var before := events[..|events| - 1];
      var o := Lifecycle(name, before, timeout);
      if !o.settled.Pending? then o
      else
        var e := events[|events| - 1];
        var s := SettleBy(name, e, Collected(before), timeout);
        Outcome(s, e.TimerFired? && !s.Pending?)
  }

  /** `callAI(prompt, options)` with the child's events given in arrival order.
      Returns the promise's state, the spawn call if there was one, and whether
      the child was killed. */
  method CallAI(prompt: string, opts: CallOptions, config: AiConfig, fs: Fs, events: seq<ChildEvent>)
    returns (result: Settlement, spawned: Option<Spawned>, killed: bool)
    ensures Prepare(prompt, opts, config, fs).Failure? ==>
      result == Rejected(Prepare(prompt, opts, config, fs).error) && spawned.None? && !killed
    ensures Prepare(prompt, opts, config, fs).Success? ==>
      spawned == Some(Prepare(prompt, opts, config, fs).value)
      && Outcome(result, killed) == Lifecycle(ProviderName(opts), events, Timeout(opts))
  {
    var provider := ProviderName(opts);
    var timeout := Timeout(opts);
    if provider !in config.providers {
      return Rejected("Unknown provider: " + provider), None, false;
    }
    var providerConfig := config.providers[provider];
    var resolvedModel := ResolveModel(opts.model, providerConfig.defaultModel, config.model);
    if providerConfig.build.None? {
      return Rejected("Provider " + provider + " must export a 'build' function."), None, false;
    }
    var buildResult := Build(providerConfig.build.value, prompt, resolvedModel, FilesOption(opts), fs);
    if buildResult.Failure? {
      return Rejected(buildResult.error), None, false;
    }
    var executable := buildResult.value.command;
    var args := buildResult.value.args.GetOr([]);
    spawned := Some(Spawned(executable, args));

    var output := "";
    var timerArmed := timeout > 0;
    result, killed := Pending, false;
    var i := 0;
    while i < |events|
      invariant 0 <= i <= |events|
      invariant output == Collected(events[..i])
      invariant Outcome(result, killed) == Lifecycle(provider, events[..i], timeout)
      invariant timerArmed <==> timeout > 0 && result.Pending?
    {
      assert events[..i + 1][..i] == events[..i];
      var e := events[i];
      match e {
      case Stdout(chunk) =>
        output := output + chunk;
      case Stderr(chunk) =>
        output := output + chunk;
      case Close(code) =>
        timerArmed := false;
        if result.Pending? {
          if code != Some(0) {
            result := Rejected(provider + " failed with exit code " + RenderCode(code));
          } else {
            result := Resolved(if output == "" then "No output from AI." else output);
          }
        }
      case SpawnError(message) =>
        timerArmed := false;
        if result.Pending? {
          result := Rejected(provider + " failed: " + message);
        }
      case TimerFired =>
        if timerArmed {
          timerArmed := false;
          killed := true;
          result := Rejected("AI process timed out after " + NatToString(timeout) + "ms");
        }
      }
      i := i + 1;
    }
    assert events[..|events|] == events;
  }

  /** Appending events gathers their chunks after the earlier ones. */
  lemma {:induction false} CollectedAppend(a: seq<ChildEvent>, b: seq<ChildEvent>)
    ensures Collected(a + b) == Collected(a) + Collected(b)
    decreases |b|
  {
    if b == [] {
      assert a + b == a;
    } else {
      var b' := b[..|b| - 1];
      var ab := a + b;
      assert ab[..|ab| - 1] == a + b';
      assert ab[|ab| - 1] == b[|b| - 1];
      CollectedAppend(a, b');
      assert Collected(ab) == Collected(a + b') + Chunk(b[|b| - 1]);
      assert Collected(b) == Collected(b') + Chunk(b[|b| - 1]);
    }
  }

  /** First settle wins: once the promise is settled, later events change
      neither its state nor whether the child was killed. */
  lemma {:induction false} SettledStays(name: string, events: seq<ChildEvent>, later: seq<ChildEvent>, timeout: int)
    requires !Lifecycle(name, events, timeout).settled.Pending?
    ensures Lifecycle(name, events + later, timeout) == Lifecycle(name, events, timeout)
    decreases |later|
  {
    if later == [] {
      assert events + later == events;
    } else {
      var l' := later[..|later| - 1];
      assert (events + later)[..|events + later| - 1] == events + l';
      SettledStays(name, events, l', timeout);
    }
  }

  /** Without a positive timeout no timer exists: the child is never killed. */
  lemma {:induction false} NoTimerNoKill(name: string, events: seq<ChildEvent>, timeout: int)
    requires timeout <= 0
    ensures !Lifecycle(name, events, timeout).killed
    decreases |events|
  {
    if events != [] {
      NoTimerNoKill(name, events[..|events| - 1], timeout);
    }
  }

  predicate DataOnly(events: seq<ChildEvent>)
  {
    forall k :: 0 <= k < |events| ==> events[k].Stdout? || events[k].Stderr?
  }

  /** Data events alone leave the promise pending. */
  lemma {:induction false} DataKeepsPending(name: string, events: seq<ChildEvent>, timeout: int)
    requires DataOnly(events)
    ensures Lifecycle(name, events, timeout) == Outcome(Pending, false)
    decreases |events|
  {
    if events != [] {
      DataKeepsPending(name, events[..|events| - 1], timeout);
    }
  }

  /** Chunks followed by a clean exit resolve with the chunks in arrival order,
      or with the placeholder when there were none. */
  lemma CleanExitResolves(name: string, chunks: seq<ChildEvent>, timeout: int)
    requires DataOnly(chunks)
    ensures var out := Collected(chunks);
      Lifecycle(name, chunks + [Close(Some(0))], timeout)
        == Outcome(Resolved(if out == "" then "No output from AI." else out), false)
  {
    DataKeepsPending(name, chunks, timeout);
    assert (chunks + [Close(Some(0))])[..|chunks|] == chunks;
  }

  /** A timer that fires before the child exits kills it and rejects the call,
      whatever the child does afterwards. */
  lemma TimeoutRejects(name: string, chunks: seq<ChildEvent>, later: seq<ChildEvent>, timeout: int)
    requires DataOnly(chunks) && timeout > 0
    ensures Lifecycle(name, chunks + [TimerFired] + later, timeout)
      == Outcome(Rejected("AI process timed out after " + NatToString(timeout) + "ms"), true)
  {
    DataKeepsPending(name, chunks, timeout);
    assert (chunks + [TimerFired])[..|chunks|] == chunks;
    SettledStays(name, chunks + [TimerFired], later, timeout);
  }

  /** The timeout scenario of the service's tests: 1000 ms. */
  lemma TimeoutMessage()
    ensures SettleBy("gemini", TimerFired, "", 1000) == Rejected("AI process timed out after 1000ms")
  {
    assert NatToString(1000) == "1000" by {
      assert NatToString(1) == "1";
      assert NatToString(10) == "10";
      assert NatToString(100) == "100";
    }
  }
}
