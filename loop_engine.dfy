/** `LoopEngine`: runs every pending task in turn. A task gets up to
    `retries` attempts; an attempt asks the AI for a proposal and then runs
    the task's validation command, and the first attempt that gets through
    both ends the retries. A finished task is moved to the done directory and
    committed, or moved to the failed directory with its last history entry.
    The engine reports its progress as events; a listener that throws, like
    a collaborator that throws, makes the run reject.

    The collaborators the engine cannot see into are parameters: the child
    process events of the n-th AI call, the outcome of the n-th validation
    and of the n-th commit, and the error (if any) the listeners throw on an
    event. What the engine does with them is recorded in a `Trace`. */
module Engine {
  import opened Wrappers
  import opened Text
  import opened FileSystem
  import opened TaskModel
  import opened TaskStore
  import opened AiService

  /** The events of `EVENTS`, with their payloads. */
  datatype EngineEvent =
    | TaskStarted(started: Option<Task>, count: Option<nat>)
    | AttemptStarted(task: Task, attemptNumber: nat)
    | AiProposalReceived(task: Task, attemptNumber: nat, output: string)
    | AttemptSucceeded(task: Task, attemptNumber: nat)
    | AttemptFailed(task: Task, attemptNumber: nat, error: string)
    | TaskCompleted(task: Task)
    | TaskFailed(task: Task, lastError: Option<string>)

  /** The event names listeners subscribe with. */
  function EventName(e: EngineEvent): string
  {
    match e
    case TaskStarted(_, _) => "task:started"
    case AttemptStarted(_, _) => "attempt:started"
    case AiProposalReceived(_, _, _) => "ai:proposal_received"
    case AttemptSucceeded(_, _) => "attempt:succeeded"
    case AttemptFailed(_, _, _) => "attempt:failed"
    case TaskCompleted(_) => "task:completed"
    case TaskFailed(_, _) => "task:failed"
  }

  /** Two events share a name exactly when they are of the same kind. */
  lemma EventNamesDistinct(a: EngineEvent, b: EngineEvent)
    ensures EventName(a) == EventName(b) <==>
      (a.TaskStarted? <==> b.TaskStarted?) && (a.AttemptStarted? <==> b.AttemptStarted?)
      && (a.AiProposalReceived? <==> b.AiProposalReceived?) && (a.AttemptSucceeded? <==> b.AttemptSucceeded?)
      && (a.AttemptFailed? <==> b.AttemptFailed?) && (a.TaskCompleted? <==> b.TaskCompleted?)
      && (a.TaskFailed? <==> b.TaskFailed?)
  {
  }

  /** The engine's `config`: `retries`, `provider`, `model`, `timeouts.ai`,
      `timeouts.validation` and `dirs.done`. */
  datatype EngineConfig = EngineConfig(
    retries: Option<int>,
    provider: Option<string>,
    model: Option<string>,
    aiTimeout: Option<int>,
    validationTimeout: Option<int>,
    doneDir: string)

  /** `config.retries || 3`. */
  function Retries(c: EngineConfig): (n: int)
    ensures c.retries.None? || c.retries == Some(0) ==> n == 3
    ensures c.retries.Some? && c.retries != Some(0) ==> n == c.retries.value
  {
    if c.retries.Some? && c.retries.value != 0 then c.retries.value else 3
  }

  /** A `runValidation(cmd, timeout)` call and a `commit(message, files)` call. */
  datatype ValidationCall = ValidationCall(cmd: Option<string>, timeout: Option<int>)
  datatype CommitCall = CommitCall(message: string, files: seq<string>)

  /** What the engine has done beyond the file system: the events emitted, the
      number of AI calls, and the validation and commit calls, in order. */
  datatype Trace = Trace(events: seq<EngineEvent>, aiCalls: nat, validations: seq<ValidationCall>, commits: seq<CommitCall>)

  /** How a run ends: normally, by an exception with its message, or waiting
      forever on an AI call that never settles. */
  datatype Flow = Done | Thrown(message: string) | Stalled

  function FlowOf(err: Option<string>): (f: Flow)
    ensures err.None? <==> f == Done
    ensures err.Some? ==> f == Thrown(err.value)
  {
    if err.Some? then Thrown(err.value) else Done
  }

  /** Everything a run depends on: the repository's directories and parser,
      the AI configuration, the engine configuration, and the collaborators. */
  datatype Env = Env(
    todo: string,
    done: string,
    failed: string,
    matter: string -> Result<Parsed>,
    ai: AiConfig,
    config: EngineConfig,
    child: nat -> seq<ChildEvent>,
    validate: nat -> Option<string>,
    commitError: nat -> Option<string>,
    listener: EngineEvent -> Option<string>)

  /** The trace after emitting `e`. */
  function Emitted(tr: Trace, e: EngineEvent): (r: Trace)
    ensures r.events == tr.events + [e]
    ensures r.aiCalls == tr.aiCalls && r.validations == tr.validations && r.commits == tr.commits
  {
    tr.(events := tr.events + [e])
  }

  /** `_generateProposal`: the prompt and the options passed to `callAI`. */
  function Prompt(task: Task): string
  {
    "ROLE: Senior Engineer\nTASK: " + task.content + "\nFILES: " + RenderFiles(task.data.affectedFiles)
  }

  function Options(c: EngineConfig, task: Task): (o: CallOptions)
    ensures o.provider == Or(task.data.provider, c.provider)
    ensures o.model == Or(task.data.model, c.model)
    ensures o.files == task.data.affectedFiles && o.timeout == c.aiTimeout
  {
    CallOptions(Or(task.data.provider, c.provider), task.data.affectedFiles, Or(task.data.model, c.model), c.aiTimeout)
  }

  /** How the `n`-th AI call settles. */
  function AiAnswer(env: Env, fs: Fs, task: Task, n: nat): Settlement
  {
    var opts := Options(env.config, task);
    match Prepare(Prompt(task), opts, env.ai, fs)
    case Failure(e) => Rejected(e)
    case Success(_) => Lifecycle(ProviderName(opts), env.child(n), Timeout(opts)).settled
  }

  /** The history entries of a passed and of a failed attempt. */
  function SuccessEntry(n: nat, output: string): string
  {
    "### Attempt " + NatToString(n) + "\n" + output
  }

  function FailureEntry(n: nat, message: string): string
  {
    "### Attempt " + NatToString(n) + " Failed\nError: " + message
  }

  /** An attempt's end: the trace, how it ended, whether it passed, and the history. */
  datatype Step = Step(trace: Trace, flow: Flow, success: bool, history: seq<string>)

  /** The `catch` of `_executeAttempt`: report the failure and record it. */
  function Caught(env: Env, tr: Trace, task: Task, history: seq<string>, n: nat, message: string): (s: Step)
    ensures !s.success
    ensures s.flow == FlowOf(env.listener(AttemptFailed(task, n, message)))
    ensures s.trace == Emitted(tr, AttemptFailed(task, n, message))
    ensures s.flow == Done ==> s.history == history + [FailureEntry(n, message)]
  {
    var e := AttemptFailed(task, n, message);
    var tr1 := Emitted(tr, e);
    if env.listener(e).Some? then Step(tr1, Thrown(env.listener(e).value), false, history)
    else Step(tr1, Done, false, history + [FailureEntry(n, message)])
  }

  /** The `try` after the AI has answered: report the proposal, validate,
      report success. A throw anywhere in it is caught. */
  function Proposed(env: Env, tr: Trace, task: Task, history: seq<string>, n: nat, output: string): Step
  {
    var e1 := AiProposalReceived(task, n, output);
    var tr1 := Emitted(tr, e1);
    if env.listener(e1).Some? then Caught(env, tr1, task, history, n, env.listener(e1).value)
    else
      var tr2 := tr1.(validations := tr1.validations + [ValidationCall(task.data.validationCmd, env.config.validationTimeout)]);
      match env.validate(|tr1.validations|)
      case Some(m) => Caught(env, tr2, task, history, n, m)
      case None =>
        var e2 := AttemptSucceeded(task, n);
        var tr3 := Emitted(tr2, e2);
        if env.listener(e2).Some? then Caught(env, tr3, task, history, n, env.listener(e2).value)
        else Step(tr3, Done, true, history + [SuccessEntry(n, output)])
  }

  /** `_executeAttempt(state, n)`. */
  function Attempt(env: Env, fs: Fs, tr: Trace, task: Task, history: seq<string>, n: nat): Step
  {
    var e := AttemptStarted(task, n);
    var tr1 := Emitted(tr, e);
    if env.listener(e).Some? then Step(tr1, Thrown(env.listener(e).value), false, history)
    else
      var tr2 := tr1.(aiCalls := tr1.aiCalls + 1);
      match AiAnswer(env, fs, task, tr1.aiCalls)
      case Pending => Step(tr2, Stalled, false, history)
      case Rejected(m) => Caught(env, tr2, task, history, n, m)
      case Resolved(out) => Proposed(env, tr2, task, history, n, out)
  }

  /** Attempts `i`, `i + 1`, ... up to `last`, stopping at the first that
      passes or does not end normally. */
  function AttemptsFrom(env: Env, fs: Fs, tr: Trace, task: Task, history: seq<string>, i: nat, last: int): Step
    decreases last - i + 1
  {
    if i > last then Step(tr, Done, false, history)
    else
      var s := Attempt(env, fs, tr, task, history, i);
      if s.flow != Done || s.success then s else AttemptsFrom(env, fs, s.trace, task, s.history, i + 1, last)
  }

  /** The last history entry, `undefined` for an empty history. */
  function LastEntry(history: seq<string>): (r: Option<string>)
    ensures |history| > 0 ==> r == Some(history[|history| - 1])
    ensures |history| == 0 ==> r.None?
  {
    if |history| > 0 then Some(history[|history| - 1]) else None
  }

  /** `_commitTask`: the hard-coded message and the files to commit. */
  function CommitMessageOf(task: Task): string
  {
    "fix(" + Render(task.data.taskId) + "): automated task resolution"
  }

  /** The separators of `/["\s,\"]+/`. */
  predicate IsCommitSeparator(c: char)
  {
    IsSpace(c) || c == ',' || c == '"'
  }

  /** The affected files as committed: a list as it is, a string split on
      the separators with the empty pieces dropped, nothing when falsy. */
  function Affected(files: Files): (r: seq<string>)
    ensures files.FileList? ==> r == files.items
    ensures files.FileText? ==> Concat(r) == Strip(files.text, IsCommitSeparator)
    ensures files.FileText? ==> forall k :: 0 <= k < |r| ==> r[k] != "" && Free(r[k], IsCommitSeparator)
    ensures files.FileText? ==>
      Gapped(SplitGaps(files.text, IsCommitSeparator), |r|, IsCommitSeparator)
      && files.text == Weave(SplitGaps(files.text, IsCommitSeparator), r)
    ensures files.NoFiles? ==> r == []
  {
    if !FilesTruthy(files) then
      assert files.FileText? ==> SplitGaps(files.text, IsCommitSeparator) == [""];
      []
    else if files.FileList? then files.items
    else
      SplitRunsKeepsText(files.text, IsCommitSeparator);
      SplitRunsRebuilds(files.text, IsCommitSeparator);
      SplitRuns(files.text, IsCommitSeparator)
  }

  /** Names joined by a comma, a blank or a quote come back as the same list. */
  lemma AffectedJoin(names: seq<string>, c: char)
    requires |names| > 0 && IsCommitSeparator(c)
    requires forall k :: 0 <= k < |names| ==> names[k] != "" && Free(names[k], IsCommitSeparator)
    ensures Affected(FileText(Join(names, [c]))) == names
  {
    JoinFirst(names, [c]);
    SplitRunsJoin(names, c, IsCommitSeparator);
  }

  function CommitFiles(c: EngineConfig, task: Task): (r: seq<string>)
    ensures r == [PathJoin(c.doneDir, task.fileName)] + Affected(task.data.affectedFiles)
  {
    [PathJoin(c.doneDir, task.fileName)] + Affected(task.data.affectedFiles)
  }

  /** A run's end: the file system, the trace, and how it ended. */
  datatype Run = Run(fs: Fs, trace: Trace, flow: Flow)

  /** What `runTask` does once the attempts are over. */
  function Conclude(env: Env, fs: Fs, task: Task, s: Step): Run
  {
    if s.flow != Done then Run(fs, s.trace, s.flow)
    else if s.success then
      var fs1 := Finalized(fs, task, env.done, s.history, None);
      var tr1 := s.trace.(commits := s.trace.commits + [CommitCall(CommitMessageOf(task), CommitFiles(env.config, task))]);
      match env.commitError(|s.trace.commits|)
      case Some(m) => Run(fs1, tr1, Thrown(m))
      case None =>
        var e := TaskCompleted(task);
        Run(fs1, Emitted(tr1, e), FlowOf(env.listener(e)))
    else
      var lastError := LastEntry(s.history);
      var e := TaskFailed(task, lastError);
      Run(Finalized(fs, task, env.failed, s.history, lastError), Emitted(s.trace, e), FlowOf(env.listener(e)))
  }

  /** `runTask(fileName)`. */
  function RunTaskSpec(env: Env, fs: Fs, tr: Trace, fileName: string): Run
  {
    match Load(fs, env.todo, env.matter, fileName)
    case Failure(e) => Run(fs, tr, Thrown(e))
    case Success(task) =>
      var e := TaskStarted(Some(task), None);
      var tr1 := Emitted(tr, e);
      if env.listener(e).Some? then Run(fs, tr1, Thrown(env.listener(e).value))
      else Conclude(env, fs, task, AttemptsFrom(env, fs, tr1, task, [], 1, Retries(env.config)))
  }

  /** The tasks of `files` run one after another until one does not end normally. */
  function RunFiles(env: Env, fs: Fs, tr: Trace, files: seq<string>): Run
    decreases |files|
  {
    if |files| == 0 then Run(fs, tr, Done)
    else
      var r := RunTaskSpec(env, fs, tr, files[0]);
      if r.flow != Done then r else RunFiles(env, r.fs, r.trace, files[1..])
  }

  /** `runAll()`. */
  function RunAllSpec(env: Env, fs: Fs, tr: Trace): Run
  {
    match Listing(fs, env.todo)
    case Failure(e) => Run(fs, tr, Thrown(e))
    case Success(files) =>
      if |files| == 0 then
        var e := TaskStarted(None, Some(0));
        Run(fs, Emitted(tr, e), FlowOf(env.listener(e)))
      else RunFiles(env, fs, tr, files)
  }

  /** An attempt passes exactly when no listener throws, the AI answers and
      the validation passes; a normally ending attempt adds one history entry. */
  lemma AttemptOutcome(env: Env, fs: Fs, tr: Trace, task: Task, history: seq<string>, n: nat)
    ensures var s := Attempt(env, fs, tr, task, history, n);
      var answer := AiAnswer(env, fs, task, tr.aiCalls);
      s.success <==>
        env.listener(AttemptStarted(task, n)).None? && answer.Resolved?
        && env.listener(AiProposalReceived(task, n, answer.output)).None?
        && env.validate(|tr.validations|).None?
        && env.listener(AttemptSucceeded(task, n)).None?
    ensures var s := Attempt(env, fs, tr, task, history, n);
      s.success ==> (s.flow == Done && s.history == history + [SuccessEntry(n, AiAnswer(env, fs, task, tr.aiCalls).output)]
        && s.trace.validations == tr.validations + [ValidationCall(task.data.validationCmd, env.config.validationTimeout)])
    ensures var s := Attempt(env, fs, tr, task, history, n);
      s.flow == Done ==> |s.history| == |history| + 1 && s.history[..|history|] == history
    ensures var s := Attempt(env, fs, tr, task, history, n);
      s.trace.commits == tr.commits && |s.trace.validations| <= |tr.validations| + 1
  {
  }

  /** An AI rejection ends the attempt as failed without running the validation. */
  lemma RejectedAttemptSkipsValidation(env: Env, fs: Fs, tr: Trace, task: Task, history: seq<string>, n: nat, message: string)
    requires env.listener(AttemptStarted(task, n)).None? && env.listener(AttemptFailed(task, n, message)).None?
    requires AiAnswer(env, fs, task, tr.aiCalls) == Rejected(message)
    ensures var s := Attempt(env, fs, tr, task, history, n);
      !s.success && s.flow == Done && s.trace.validations == tr.validations
      && s.trace.events == tr.events + [AttemptStarted(task, n), AttemptFailed(task, n, message)]
      && s.history == history + [FailureEntry(n, message)]
  {
  }

  /** A validation that throws ends the attempt as failed, after the proposal. */
  lemma FailedValidationAttempt(env: Env, fs: Fs, tr: Trace, task: Task, history: seq<string>, n: nat, output: string, message: string)
    requires env.listener(AttemptStarted(task, n)).None? && env.listener(AiProposalReceived(task, n, output)).None?
    requires env.listener(AttemptFailed(task, n, message)).None?
    requires AiAnswer(env, fs, task, tr.aiCalls) == Resolved(output)
    requires env.validate(|tr.validations|) == Some(message)
    ensures var s := Attempt(env, fs, tr, task, history, n);
      !s.success && s.flow == Done
      && s.trace.validations == tr.validations + [ValidationCall(task.data.validationCmd, env.config.validationTimeout)]
      && s.trace.events == tr.events + [AttemptStarted(task, n), AiProposalReceived(task, n, output), AttemptFailed(task, n, message)]
      && s.history == history + [FailureEntry(n, message)]
  {
  }

  /** The facts about one attempt that `AttemptsShape` carries along. */
  lemma AttemptStep(env: Env, fs: Fs, tr: Trace, task: Task, history: seq<string>, n: nat)
    ensures var s := Attempt(env, fs, tr, task, history, n);
      |s.history| >= |history| && s.history[..|history|] == history
    ensures var s := Attempt(env, fs, tr, task, history, n);
      s.flow == Done ==> |s.history| == |history| + 1
    ensures var s := Attempt(env, fs, tr, task, history, n);
      s.success ==> (s.flow == Done && |s.trace.validations| == |tr.validations| + 1
        && env.validate(|s.trace.validations| - 1).None?)
    ensures var s := Attempt(env, fs, tr, task, history, n);
      s.trace.commits == tr.commits && |s.trace.validations| >= |tr.validations|
  {
    AttemptOutcome(env, fs, tr, task, history, n);
  }

  /** The shape facts of `AttemptsShape` for a result `r` of attempts
      `i..last` that started with history `h` and trace `tr`. */
  predicate ShapeFacts(r: Step, validate: nat -> Option<string>, h: seq<string>, tr: Trace, i: int, last: int)
  {
    |r.history| >= |h| && r.history[..|h|] == h
    && (r.flow == Done && !r.success ==> |r.history| == |h| + (if last >= i then last - i + 1 else 0))
    && (r.success ==> (r.flow == Done && |r.trace.validations| > |tr.validations|
      && validate(|r.trace.validations| - 1).None?))
    && r.trace.commits == tr.commits
  }

  /** A failed attempt `s` before the rest moves the facts back by one attempt. */
  lemma ShapeCarried(r: Step, s: Step, validate: nat -> Option<string>, h: seq<string>, tr: Trace, i: int, last: int)
    requires i <= last && |s.history| == |h| + 1 && s.history[..|h|] == h
    requires |s.trace.validations| >= |tr.validations| && s.trace.commits == tr.commits
    requires ShapeFacts(r, validate, s.history, s.trace, i + 1, last)
    ensures ShapeFacts(r, validate, h, tr, i, last)
  {
    assert r.history[..|h|] == r.history[..|s.history|][..|h|];
  }

  /** An attempt that ends the loop gives the facts directly. */
  lemma ShapeHere(s: Step, validate: nat -> Option<string>, h: seq<string>, tr: Trace, i: int, last: int)
    requires i <= last && |s.history| >= |h| && s.history[..|h|] == h
    requires s.flow == Done ==> |s.history| == |h| + 1
    requires s.success ==> (s.flow == Done && |s.trace.validations| == |tr.validations| + 1
      && validate(|s.trace.validations| - 1).None?)
    requires s.trace.commits == tr.commits
    requires s.flow != Done || s.success
    ensures ShapeFacts(s, validate, h, tr, i, last)
  {
  }

  /** The induction behind `AttemptsShape`, over the attempts from `i`. */
  lemma {:induction false} ShapeInduction(env: Env, fs: Fs, tr: Trace, task: Task, history: seq<string>, i: nat, last: int)
    ensures ShapeFacts(AttemptsFrom(env, fs, tr, task, history, i, last), env.validate, history, tr, i, last)
    decreases last - i + 1
  {
    var r := AttemptsFrom(env, fs, tr, task, history, i, last);
    if i <= last {
      var s := Attempt(env, fs, tr, task, history, i);
      AttemptStep(env, fs, tr, task, history, i);
      if s.flow == Done && !s.success {
        ShapeInduction(env, fs, s.trace, task, s.history, i + 1, last);
        assert r == AttemptsFrom(env, fs, s.trace, task, s.history, i + 1, last);
        ShapeCarried(r, s, env.validate, history, tr, i, last);
      } else {
        assert r == s;
        ShapeHere(s, env.validate, history, tr, i, last);
      }
    } else {
      assert r == Step(tr, Done, false, history);
    }
  }

  /** The attempts keep the history they start from, and end with one entry
      per attempt when none passes; a pass ends them with a validation that
      passed as the last one made. */
  lemma AttemptsShape(env: Env, fs: Fs, tr: Trace, task: Task, history: seq<string>, i: nat, last: int)
    ensures var r := AttemptsFrom(env, fs, tr, task, history, i, last);
      |r.history| >= |history| && r.history[..|history|] == history
    ensures var r := AttemptsFrom(env, fs, tr, task, history, i, last);
      r.flow == Done && !r.success ==> |r.history| == |history| + (if last >= i then last - i + 1 else 0)
    ensures var r := AttemptsFrom(env, fs, tr, task, history, i, last);
      r.success ==> (r.flow == Done && |r.trace.validations| > |tr.validations|
        && env.validate(|r.trace.validations| - 1).None?)
    ensures AttemptsFrom(env, fs, tr, task, history, i, last).trace.commits == tr.commits
  {
    ShapeInduction(env, fs, tr, task, history, i, last);
  }

  /** What a pass or a failure of one attempt leaves for `AttemptsPass`: the
      AI call counted, and on a pass the proposal and the pass reported for
      this attempt, with the success entry carrying the proposal's output. */
  lemma PassStep(env: Env, fs: Fs, tr: Trace, task: Task, history: seq<string>, n: nat)
    ensures var s := Attempt(env, fs, tr, task, history, n);
      s.trace.aiCalls >= tr.aiCalls && (s.flow == Done ==> |s.history| == |history| + 1)
    ensures var s := Attempt(env, fs, tr, task, history, n);
      var ev := s.trace.events;
      s.success ==> (s.trace.aiCalls == tr.aiCalls + 1 && |ev| >= 2
        && ev[|ev| - 2].AiProposalReceived? && ev[|ev| - 2].attemptNumber == n
        && ev[|ev| - 1] == AttemptSucceeded(task, n)
        && s.history[|s.history| - 1] == SuccessEntry(n, ev[|ev| - 2].output))
  {
    AttemptOutcome(env, fs, tr, task, history, n);
  }

  /** The pass facts of `AttemptsPass` for a result `r` of attempts `i..last`
      that started with `h` history entries and `c` AI calls. */
  predicate PassFacts(r: Step, task: Task, h: nat, c: nat, i: int, last: int)
  {
    var k := i + |r.history| - h - 1;
    var ev := r.trace.events;
    r.success ==> (i <= last && h + 1 <= |r.history| <= h + (last - i + 1) && r.trace.aiCalls > c
      && |ev| >= 2 && ev[|ev| - 2].AiProposalReceived? && ev[|ev| - 2].attemptNumber == k
      && ev[|ev| - 1] == AttemptSucceeded(task, k)
      && r.history[|r.history| - 1] == SuccessEntry(k, ev[|ev| - 2].output))
  }

  /** A failed attempt before the rest moves the facts back by one attempt. */
  lemma PassCarried(r: Step, task: Task, h': nat, c': nat, h: nat, c: nat, i: int, last: int)
    requires h' == h + 1 && c' >= c && PassFacts(r, task, h', c', i + 1, last)
    ensures PassFacts(r, task, h, c, i, last)
  {
    assert (i + 1) + |r.history| - h' - 1 == i + |r.history| - h - 1;
  }

  /** A passing attempt gives the facts with `k == i`. */
  lemma PassHere(s: Step, task: Task, h: nat, c: nat, i: int, last: int)
    requires i <= last
    requires s.flow == Done ==> |s.history| == h + 1
    requires var ev := s.trace.events;
      s.success ==> (s.flow == Done && s.trace.aiCalls > c && |ev| >= 2
        && ev[|ev| - 2].AiProposalReceived? && ev[|ev| - 2].attemptNumber == i
        && ev[|ev| - 1] == AttemptSucceeded(task, i)
        && s.history[|s.history| - 1] == SuccessEntry(i, ev[|ev| - 2].output))
    ensures PassFacts(s, task, h, c, i, last)
  {
  }

  /** On a pass, the passing attempt is the `k`-th with `i <= k <= last`, the
      history gained one entry per attempt up to it, the last two events are
      that attempt's proposal and pass, and the last entry is its success entry
      with the proposal's output. */
  lemma {:induction false} AttemptsPass(env: Env, fs: Fs, tr: Trace, task: Task, history: seq<string>, i: nat, last: int)
    ensures PassFacts(AttemptsFrom(env, fs, tr, task, history, i, last), task, |history|, tr.aiCalls, i, last)
    decreases last - i + 1
  {
    if i <= last {
      var s := Attempt(env, fs, tr, task, history, i);
      PassStep(env, fs, tr, task, history, i);
      if s.flow == Done && !s.success {
        AttemptsPass(env, fs, s.trace, task, s.history, i + 1, last);
        var r := AttemptsFrom(env, fs, s.trace, task, s.history, i + 1, last);
        assert AttemptsFrom(env, fs, tr, task, history, i, last) == r;
        PassCarried(r, task, |s.history|, s.trace.aiCalls, |history|, tr.aiCalls, i, last);
      } else {
        assert AttemptsFrom(env, fs, tr, task, history, i, last) == s;
        PassHere(s, task, |history|, tr.aiCalls, i, last);
      }
    }
  }

  /** With quiet listeners, an AI that always answers and a validation that
      always fails, every attempt runs and fails, each with one validation. */
  lemma {:induction false} AllAttemptsFail(env: Env, fs: Fs, tr: Trace, task: Task, history: seq<string>, i: nat, last: int)
    requires forall e :: env.listener(e).None?
    requires forall n :: AiAnswer(env, fs, task, n).Resolved?
    requires forall n :: env.validate(n).Some?
    ensures var r := AttemptsFrom(env, fs, tr, task, history, i, last);
      var count := if last >= i then last - i + 1 else 0;
      r.flow == Done && !r.success
      && |r.trace.validations| == |tr.validations| + count
      && |r.history| == |history| + count
    decreases last - i + 1
  {
    if i <= last {
      var s := Attempt(env, fs, tr, task, history, i);
      assert env.listener(AttemptStarted(task, i)).None?;
      assert AiAnswer(env, fs, task, tr.aiCalls).Resolved?;
      assert env.validate(|tr.validations|).Some?;
      assert s.flow == Done && !s.success && |s.trace.validations| == |tr.validations| + 1 && |s.history| == |history| + 1;
      AllAttemptsFail(env, fs, s.trace, task, s.history, i + 1, last);
    }
  }

  /** The failing-task case: every attempt fails, so there are `retries`
      validations, the task is moved to the failed directory with the last
      entry as its error, and the failure is reported last. */
  lemma RunTaskAllFail(env: Env, fs: Fs, tr: Trace, fileName: string, task: Task)
    requires Load(fs, env.todo, env.matter, fileName) == Success(task)
    requires forall e :: env.listener(e).None?
    requires forall n :: AiAnswer(env, fs, task, n).Resolved?
    requires forall n :: env.validate(n).Some?
    requires Retries(env.config) >= 1
    ensures var r := RunTaskSpec(env, fs, tr, fileName);
      var s := AttemptsFrom(env, fs, Emitted(tr, TaskStarted(Some(task), None)), task, [], 1, Retries(env.config));
      r.flow == Done
      && |r.trace.validations| == |tr.validations| + Retries(env.config)
      && |s.history| == Retries(env.config)
      && r.fs == Finalized(fs, task, env.failed, s.history, Some(s.history[|s.history| - 1]))
      && r.trace.events[|r.trace.events| - 1] == TaskFailed(task, Some(s.history[|s.history| - 1]))
      && r.trace.commits == tr.commits
  {
    var tr1 := Emitted(tr, TaskStarted(Some(task), None));
    AllAttemptsFail(env, fs, tr1, task, [], 1, Retries(env.config));
    AttemptsShape(env, fs, tr1, task, [], 1, Retries(env.config));
  }

  /** The passing-task case: the first attempt passes, so the task is moved
      to the done directory with that one entry, committed with the fixed
      message, and the events are the start, one attempt, and the completion. */
  lemma RunTaskFirstSuccess(env: Env, fs: Fs, tr: Trace, fileName: string, task: Task, output: string)
    requires Load(fs, env.todo, env.matter, fileName) == Success(task)
    requires forall e :: env.listener(e).None?
    requires AiAnswer(env, fs, task, tr.aiCalls) == Resolved(output)
    requires env.validate(|tr.validations|).None?
    requires env.commitError(|tr.commits|).None?
    requires Retries(env.config) >= 1
    ensures var r := RunTaskSpec(env, fs, tr, fileName);
      r.flow == Done
      && r.fs == Finalized(fs, task, env.done, [SuccessEntry(1, output)], None)
      && r.trace.validations == tr.validations + [ValidationCall(task.data.validationCmd, env.config.validationTimeout)]
      && r.trace.commits == tr.commits + [CommitCall(CommitMessageOf(task), CommitFiles(env.config, task))]
      && r.trace.events == tr.events + [TaskStarted(Some(task), None), AttemptStarted(task, 1),
           AiProposalReceived(task, 1, output), AttemptSucceeded(task, 1), TaskCompleted(task)]
  {
    var tr1 := Emitted(tr, TaskStarted(Some(task), None));
    var s := Attempt(env, fs, tr1, task, [], 1);
    QuietAttemptSucceeds(env, fs, tr1, task, output);
    assert AttemptsFrom(env, fs, tr1, task, [], 1, Retries(env.config)) == s;
    assert RunTaskSpec(env, fs, tr, fileName) == Conclude(env, fs, task, s);
    var tr2 := s.trace.(commits := s.trace.commits + [CommitCall(CommitMessageOf(task), CommitFiles(env.config, task))]);
    assert Conclude(env, fs, task, s) == Run(Finalized(fs, task, env.done, s.history, None), Emitted(tr2, TaskCompleted(task)), Done);
    FiveEvents(tr.events, TaskStarted(Some(task), None), AttemptStarted(task, 1),
      AiProposalReceived(task, 1, output), AttemptSucceeded(task, 1), TaskCompleted(task));
  }

  lemma FiveEvents(a: seq<EngineEvent>, x: EngineEvent, y: EngineEvent, z: EngineEvent, w: EngineEvent, v: EngineEvent)
    ensures a + [x] + [y, z, w] + [v] == a + [x, y, z, w, v]
  {
  }

  /** A first attempt with a quiet listener, a proposal and a passing validation. */
  lemma QuietAttemptSucceeds(env: Env, fs: Fs, tr: Trace, task: Task, output: string)
    requires forall e :: env.listener(e).None?
    requires AiAnswer(env, fs, task, tr.aiCalls) == Resolved(output)
    requires env.validate(|tr.validations|).None?
    ensures var s := Attempt(env, fs, tr, task, [], 1);
      s.flow == Done && s.success && s.history == [SuccessEntry(1, output)]
      && s.trace.events == tr.events + [AttemptStarted(task, 1), AiProposalReceived(task, 1, output), AttemptSucceeded(task, 1)]
      && s.trace.validations == tr.validations + [ValidationCall(task.data.validationCmd, env.config.validationTimeout)]
      && s.trace.commits == tr.commits
  {
    assert [] + [SuccessEntry(1, output)] == [SuccessEntry(1, output)];
  }

  /** An empty todo directory is reported once and nothing else happens. */
  lemma EmptyTodoReported(env: Env, fs: Fs, tr: Trace)
    requires Listing(fs, env.todo) == Success([])
    ensures RunAllSpec(env, fs, tr)
      == Run(fs, Emitted(tr, TaskStarted(None, Some(0))), FlowOf(env.listener(TaskStarted(None, Some(0)))))
  {
  }

  /** Running two lists of tasks is running the first, then (if it ended
      normally) the second from where the first left off. */
  lemma {:induction false} RunFilesAppend(env: Env, fs: Fs, tr: Trace, a: seq<string>, b: seq<string>)
    ensures var r := RunFiles(env, fs, tr, a);
      RunFiles(env, fs, tr, a + b) == if r.flow != Done then r else RunFiles(env, r.fs, r.trace, b)
    decreases |a|
  {
    if |a| == 0 {
      assert a + b == b;
    } else {
      assert (a + b)[0] == a[0] && (a + b)[1..] == a[1..] + b;
      var r := RunTaskSpec(env, fs, tr, a[0]);
      if r.flow == Done {
        RunFilesAppend(env, r.fs, r.trace, a[1..], b);
      }
    }
  }

  /** The engine with its collaborators. */
  class LoopEngine {
    const repo: TaskRepository
    const ai: AiConfig
    const config: EngineConfig
    const child: nat -> seq<ChildEvent>
    const validate: nat -> Option<string>
    const commitError: nat -> Option<string>
    const listener: EngineEvent -> Option<string>
    var trace: Trace

    constructor (repo: TaskRepository, ai: AiConfig, config: EngineConfig, child: nat -> seq<ChildEvent>,
                 validate: nat -> Option<string>, commitError: nat -> Option<string>, listener: EngineEvent -> Option<string>)
      ensures this.repo == repo && this.ai == ai && this.config == config && this.child == child
      ensures this.validate == validate && this.commitError == commitError && this.listener == listener
      ensures trace == Trace([], 0, [], [])
    {
      this.repo := repo;
      this.ai := ai;
      this.config := config;
      this.child := child;
      this.validate := validate;
      this.commitError := commitError;
      this.listener := listener;
      trace := Trace([], 0, [], []);
    }

    function Environment(): Env
    {
      Env(repo.todo, repo.done, repo.failed, repo.matter, ai, config, child, validate, commitError, listener)
    }

    /** `this.emit(name, payload)`: what the listeners throw comes back. */
    method Emit(e: EngineEvent) returns (err: Option<string>)
      modifies this
      ensures trace == Emitted(old(trace), e) && err == listener(e)
    {
      trace := trace.(events := trace.events + [e]);
      err := listener(e);
    }

    /** `_generateProposal(task, history)`. */
    method GenerateProposal(task: Task) returns (answer: Settlement)
      modifies this
      ensures answer == AiAnswer(Environment(), repo.disk.state, task, old(trace).aiCalls)
      ensures trace == old(trace).(aiCalls := old(trace).aiCalls + 1)
    {
      var opts := Options(config, task);
      var result, spawned, killed := CallAI(Prompt(task), opts, ai, repo.disk.state, child(trace.aiCalls));
      trace := trace.(aiCalls := trace.aiCalls + 1);
      answer := result;
    }

    /** `_verifyChanges(validationCmd)`: what `runValidation` throws comes back. */
    method VerifyChanges(validationCmd: Option<string>) returns (err: Option<string>)
      modifies this
      ensures err == validate(|old(trace).validations|)
      ensures trace == old(trace).(validations := old(trace).validations + [ValidationCall(validationCmd, config.validationTimeout)])
    {
      err := validate(|trace.validations|);
      trace := trace.(validations := trace.validations + [ValidationCall(validationCmd, config.validationTimeout)]);
    }

    /** `_commitTask(task)`: what `commit` throws comes back. */
    method CommitTask(task: Task) returns (err: Option<string>)
      modifies this
      ensures err == commitError(|old(trace).commits|)
      ensures trace == old(trace).(commits := old(trace).commits + [CommitCall(CommitMessageOf(task), CommitFiles(config, task))])
    {
      var donePath := PathJoin(config.doneDir, task.fileName);
      var filesToCommit := [donePath];
      if FilesTruthy(task.data.affectedFiles) {
        filesToCommit := filesToCommit + Affected(task.data.affectedFiles);
      } else {
        assert filesToCommit == filesToCommit + Affected(task.data.affectedFiles);
      }
      err := commitError(|trace.commits|);
      trace := trace.(commits := trace.commits + [CommitCall(CommitMessageOf(task), filesToCommit)]);
    }

    /** The `catch` block of `_executeAttempt`. */
    method RecordFailure(task: Task, history: seq<string>, n: nat, message: string) returns (s: Step)
      modifies this
      ensures s == Caught(Environment(), old(trace), task, history, n, message) && trace == s.trace
    {
      var err := Emit(AttemptFailed(task, n, message));
      if err.Some? {
        return Step(trace, Thrown(err.value), false, history);
      }
      s := Step(trace, Done, false, history + [FailureEntry(n, message)]);
    }

    /** `_executeAttempt(state, n)`. */
    method ExecuteAttempt(task: Task, history: seq<string>, n: nat) returns (s: Step)
      modifies this
      ensures s == Attempt(Environment(), repo.disk.state, old(trace), task, history, n) && trace == s.trace
    {
      var err := Emit(AttemptStarted(task, n));
      if err.Some? {
        return Step(trace, Thrown(err.value), false, history);
      }
      var answer := GenerateProposal(task);
      match answer {
        case Pending =>
          return Step(trace, Stalled, false, history);
        case Rejected(m) =>
          s := RecordFailure(task, history, n, m);
          return;
        case Resolved(aiOutput) =>
          err := Emit(AiProposalReceived(task, n, aiOutput));
          if err.Some? {
            s := RecordFailure(task, history, n, err.value);
            return;
          }
          err := VerifyChanges(task.data.validationCmd);
          if err.Some? {
            s := RecordFailure(task, history, n, err.value);
            return;
          }
          err := Emit(AttemptSucceeded(task, n));
          if err.Some? {
            s := RecordFailure(task, history, n, err.value);
            return;
          }
          s := Step(trace, Done, true, history + [SuccessEntry(n, aiOutput)]);
      }
    }

    /** The retry loop of `runTask`. */
    method Attempts(task: Task) returns (s: Step)
      modifies this
      ensures s == AttemptsFrom(Environment(), repo.disk.state, old(trace), task, [], 1, Retries(config)) && trace == s.trace
    {
      var retries := Retries(config);
      s := Step(trace, Done, false, []);
      var i: nat := 1;
      while i <= retries
        invariant s.flow == Done && !s.success && s.trace == trace
        invariant AttemptsFrom(Environment(), repo.disk.state, old(trace), task, [], 1, retries)
          == AttemptsFrom(Environment(), repo.disk.state, trace, task, s.history, i, retries)
        decreases retries - i + 1
      {
        s := ExecuteAttempt(task, s.history, i);
        if s.flow != Done || s.success {
          return;
        }
        i := i + 1;
      }
    }

    /** `runTask(fileName)`. */
    method RunTask(fileName: string) returns (flow: Flow)
      modifies this, repo.disk
      ensures Run(repo.disk.state, trace, flow) == RunTaskSpec(Environment(), old(repo.disk.state), old(trace), fileName)
    {
      var loaded := repo.LoadTask(fileName);
      if loaded.Failure? {
        return Thrown(loaded.error);
      }
      var task := loaded.value;
      var err := Emit(TaskStarted(Some(task), None));
      if err.Some? {
        return Thrown(err.value);
      }
      var s := Attempts(task);
      if s.flow != Done {
        return s.flow;
      }
      if s.success {
        repo.MarkDone(task, s.history);
        err := CommitTask(task);
        if err.Some? {
          return Thrown(err.value);
        }
        err := Emit(TaskCompleted(task));
        flow := FlowOf(err);
      } else {
        var lastError := LastEntry(s.history);
        repo.MarkFailed(task, s.history, lastError);
        err := Emit(TaskFailed(task, lastError));
        flow := FlowOf(err);
      }
    }

    /** `runAll()`. */
    method RunAll() returns (flow: Flow)
      modifies this, repo.disk
      ensures Run(repo.disk.state, trace, flow) == RunAllSpec(Environment(), old(repo.disk.state), old(trace))
    {
      var listed := repo.ListTodo();
      if listed.Failure? {
        return Thrown(listed.error);
      }
      var files := listed.value;
      if |files| == 0 {
        var err := Emit(TaskStarted(None, Some(0)));
        return FlowOf(err);
      }
      flow := RunEach(files);
    }

    /** The `for` loop of `runAll()`: each task awaited before the next. */
    method RunEach(files: seq<string>) returns (flow: Flow)
      modifies this, repo.disk
      ensures Run(repo.disk.state, trace, flow) == RunFiles(Environment(), old(repo.disk.state), old(trace), files)
    {
      var i := 0;
      while i < |files|
        invariant 0 <= i <= |files|
        invariant RunFiles(Environment(), old(repo.disk.state), old(trace), files)
          == RunFiles(Environment(), repo.disk.state, trace, files[i..])
      {
        assert files[i..][0] == files[i] && files[i..][1..] == files[i + 1..];
        flow := RunTask(files[i]);
        if flow != Done {
          return;
        }
        i := i + 1;
      }
      flow := Done;
    }
  }
}
