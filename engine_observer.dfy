/** `EngineObserver`: subscribes to the engine's events and turns each into
    at most one logger call. The handler for a completed task calls
    `logger.success`, which `LoggerService` does not have; `HandleAsWritten`
    is that code, and `Handle` is the handler with the completion logged at
    the info severity, which the rest of the model uses. */
module Observer {
  import opened Wrappers
  import opened Text
  import opened TaskModel
  import opened FileSystem
  import opened TaskStore
  import opened Engine
  import opened Logging

  /** One logger call: its severity and its message. */
  datatype Notice = Notice(severity: Severity, message: string)

  /** What a handler does with an event: a logger call or none, or a throw. */
  datatype Handled = Logged(notice: Option<Notice>) | Threw(error: string)

  /** `▶️ Running task: `, with the play sign and the emoji selector. */
  const RUNNING := "\U{25B6}\U{FE0F} Running task: "
  const NO_TASKS := "No tasks found in TODO directory."
  const PROPOSAL := "AI proposal received. Starting validation..."
  /** The error calling a missing method throws. */
  const NO_SUCCESS := "this.logger.success is not a function"

  function CompletedMessage(task: Task): string
  {
    "Task " + task.fileName + " completed successfully."
  }

  /** The handlers except the one for a completed task, which the two
      versions below differ on. */
  function Common(e: EngineEvent): (r: Option<Notice>)
    requires !e.TaskCompleted?
    ensures e.TaskStarted? ==> (r.Some? <==> e.started.Some? || e.count == Some(0))
    ensures e.TaskStarted? && e.started.Some? ==> r == Some(Notice(Info, RUNNING + e.started.value.fileName))
    ensures e.TaskStarted? && e.started.None? && e.count == Some(0) ==> r == Some(Notice(Info, NO_TASKS))
    ensures (e.AttemptStarted? || e.AttemptFailed? || e.TaskFailed? || e.AiProposalReceived? || e.AttemptSucceeded?) ==> r.Some?
    ensures e.AttemptStarted? ==> r.value.severity == Info
    ensures e.AiProposalReceived? || e.AttemptSucceeded? ==> r.value.severity == Severity.Debug
    ensures e.AttemptFailed? ==> r.value.severity == Warn
    ensures e.TaskFailed? ==> r.value.severity == Severity.Error
    ensures e.AttemptStarted? ==> r == Some(Notice(Info, "   Attempt " + NatToString(e.attemptNumber) + "..."))
    ensures e.AiProposalReceived? ==> r == Some(Notice(Severity.Debug, PROPOSAL))
    ensures e.AttemptSucceeded? ==>
      r == Some(Notice(Severity.Debug, "Attempt " + NatToString(e.attemptNumber) + " passed validation."))
    ensures e.AttemptFailed? ==>
      r == Some(Notice(Warn, "Attempt " + NatToString(e.attemptNumber) + " failed: " + e.error))
    ensures e.TaskFailed? ==>
      r == Some(Notice(Severity.Error, "Task " + e.task.fileName + " failed: " + Render(e.lastError)))
  {
    match e
    case TaskStarted(started, count) =>
      if started.Some? then Some(Notice(Info, RUNNING + started.value.fileName))
      else if count == Some(0) then Some(Notice(Info, NO_TASKS))
      else None
    case AttemptStarted(_, n) => Some(Notice(Info, "   Attempt " + NatToString(n) + "..."))
    case AiProposalReceived(_, _, _) => Some(Notice(Severity.Debug, PROPOSAL))
    case AttemptSucceeded(_, n) => Some(Notice(Severity.Debug, "Attempt " + NatToString(n) + " passed validation."))
    case AttemptFailed(_, n, error) => Some(Notice(Warn, "Attempt " + NatToString(n) + " failed: " + error))
    case TaskFailed(task, error) => Some(Notice(Severity.Error, "Task " + task.fileName + " failed: " + Render(error)))
  }

  /** The handlers as written: a completed task throws. */
  function HandleAsWritten(e: EngineEvent): (r: Handled)
    ensures r.Threw? <==> e.TaskCompleted?
    ensures r.Threw? ==> r.error == NO_SUCCESS
  {
    if e.TaskCompleted? then Threw(NO_SUCCESS) else Logged(Common(e))
  }

  /** The handlers as intended: a completed task is logged, and nothing throws. */
  function Handle(e: EngineEvent): (r: Handled)
    ensures r.Logged?
    ensures e.TaskCompleted? ==> r.notice == Some(Notice(Info, CompletedMessage(e.task)))
    ensures !e.TaskCompleted? ==> r == HandleAsWritten(e)
  {
    if e.TaskCompleted? then Logged(Some(Notice(Info, CompletedMessage(e.task)))) else Logged(Common(e))
  }

  /** What `emit` sees of a handler: the error it throws, if any. */
  function ThrownBy(h: Handled): (r: Option<string>)
    ensures r.Some? <==> h.Threw?
  {
    if h.Threw? then Some(h.error) else None
  }

  /** The lines one event writes through a logger at threshold `level`. */
  function Written(level: nat, e: EngineEvent): (r: seq<Line>)
    ensures |r| <= 1
    ensures r != [] <==> Handle(e).notice.Some? && level <= Rank(Handle(e).notice.value.severity)
  {
    match Handle(e).notice
    case None => []
    case Some(n) => Output(level, n.severity, n.message)
  }

  /** Every failure reaches the console whatever the threshold; at the
      default threshold the proposal and pass notices do not. */
  lemma Visibility(e: EngineEvent, message: string)
    ensures e.TaskFailed? ==> Written(LevelOf(None), e) != [] && Written(0, e) != []
    ensures e.AttemptFailed? ==> Written(LevelOf(None), e) != []
    ensures e.AiProposalReceived? || e.AttemptSucceeded? ==> Written(LevelOf(None), e) == [] && Written(0, e) != []
    ensures e.TaskCompleted? ==> Written(LevelOf(None), e) == [Line(ConsoleLog, "[INFO] " + CompletedMessage(e.task))]
  {
  }

  /** With the handlers as written, a task that passes and is committed makes
      the run reject with the missing-method error, so the tasks after it
      never run. */
  lemma {:induction false} AsWrittenSkipsRemainingTasks(env: Env, fs: Fs, tr: Trace, fileName: string, rest: seq<string>, task: Task)
    requires forall e :: env.listener(e) == ThrownBy(HandleAsWritten(e))
    requires Load(fs, env.todo, env.matter, fileName) == Success(task)
    requires AttemptsFrom(env, fs, Emitted(tr, TaskStarted(Some(task), None)), task, [], 1, Retries(env.config)).success
    requires env.commitError(|AttemptsFrom(env, fs, Emitted(tr, TaskStarted(Some(task), None)), task, [], 1, Retries(env.config)).trace.commits|).None?
    ensures RunTaskSpec(env, fs, tr, fileName).flow == Thrown(NO_SUCCESS)
    ensures RunFiles(env, fs, tr, [fileName] + rest) == RunTaskSpec(env, fs, tr, fileName)
  {
    var tr1 := Emitted(tr, TaskStarted(Some(task), None));
    assert env.listener(TaskStarted(Some(task), None)).None?;
    var s := AttemptsFrom(env, fs, tr1, task, [], 1, Retries(env.config));
    AttemptsShape(env, fs, tr1, task, [], 1, Retries(env.config));
    assert env.listener(TaskCompleted(task)) == Some(NO_SUCCESS);
    assert ([fileName] + rest)[0] == fileName;
  }

  /** Engine attempts under handlers that never throw do not end in a throw. */
  lemma {:induction false} QuietAttemptsDoNotThrow(env: Env, fs: Fs, tr: Trace, task: Task, history: seq<string>, i: nat, last: int)
    requires forall e :: env.listener(e).None?
    ensures !AttemptsFrom(env, fs, tr, task, history, i, last).flow.Thrown?
    decreases last - i + 1
  {
    if i <= last {
      var s := Attempt(env, fs, tr, task, history, i);
      if s.flow == Done && !s.success {
        QuietAttemptsDoNotThrow(env, fs, s.trace, task, s.history, i + 1, last);
      }
      assert env.listener(AttemptStarted(task, i)).None?;
      match AiAnswer(env, fs, task, tr.aiCalls)
      case Pending =>
      case Rejected(m) =>
        assert env.listener(AttemptFailed(task, i, m)).None?;
      case Resolved(out) =>
        var tr2 := Emitted(tr, AttemptStarted(task, i)).(aiCalls := tr.aiCalls + 1);
        assert env.listener(AiProposalReceived(task, i, out)).None?;
        assert env.listener(AttemptSucceeded(task, i)).None?;
        match env.validate(|tr2.validations|)
        case Some(m) =>
          assert env.listener(AttemptFailed(task, i, m)).None?;
        case None =>
    }
  }

  /** With the intended handlers a task run rejects only when the task cannot
      be loaded or its commit fails; so a task that passes and is committed
      lets the next one run. */
  lemma ObservedRunRejectsOnlyOnCollaborators(env: Env, fs: Fs, tr: Trace, fileName: string)
    requires forall e :: env.listener(e) == ThrownBy(Handle(e))
    ensures var r := RunTaskSpec(env, fs, tr, fileName);
      r.flow.Thrown? ==> (Load(fs, env.todo, env.matter, fileName).Failure?
        || (exists k :: env.commitError(k) == Some(r.flow.message)))
  {
    assert forall e :: env.listener(e).None?;
    match Load(fs, env.todo, env.matter, fileName)
    case Failure(_) =>
    case Success(task) =>
      var tr1 := Emitted(tr, TaskStarted(Some(task), None));
      assert env.listener(TaskStarted(Some(task), None)).None?;
      var s := AttemptsFrom(env, fs, tr1, task, [], 1, Retries(env.config));
      QuietAttemptsDoNotThrow(env, fs, tr1, task, [], 1, Retries(env.config));
      assert env.listener(TaskCompleted(task)).None?;
      assert env.listener(TaskFailed(task, LastEntry(s.history))).None?;
  }

  /** With the intended handlers, the same task ends normally and the run
      goes on to the tasks after it. */
  lemma {:induction false} ObservedRunContinues(env: Env, fs: Fs, tr: Trace, fileName: string, rest: seq<string>, task: Task)
    requires forall e :: env.listener(e) == ThrownBy(Handle(e))
    requires Load(fs, env.todo, env.matter, fileName) == Success(task)
    requires AttemptsFrom(env, fs, Emitted(tr, TaskStarted(Some(task), None)), task, [], 1, Retries(env.config)).success
    requires env.commitError(|AttemptsFrom(env, fs, Emitted(tr, TaskStarted(Some(task), None)), task, [], 1, Retries(env.config)).trace.commits|).None?
    ensures var r := RunTaskSpec(env, fs, tr, fileName);
      r.flow == Done && RunFiles(env, fs, tr, [fileName] + rest) == RunFiles(env, r.fs, r.trace, rest)
  {
    var tr1 := Emitted(tr, TaskStarted(Some(task), None));
    assert env.listener(TaskStarted(Some(task), None)).None?;
    AttemptsShape(env, fs, tr1, task, [], 1, Retries(env.config));
    assert env.listener(TaskCompleted(task)).None?;
    assert ([fileName] + rest)[0] == fileName && ([fileName] + rest)[1..] == rest;
  }

  /** The observer, holding the logger it reports to. */
  class EngineObserver {
    const logger: LoggerService

    constructor (logger: LoggerService)
      ensures this.logger == logger
    {
      this.logger := logger;
    }

    /** The handler subscribed for `e`'s name, called with `e`'s payload. */
    method Deliver(e: EngineEvent)
      modifies logger
      ensures logger.lines == old(logger.lines) + Written(logger.level, e)
    {
      match Handle(e).notice
      case None =>
      case Some(n) =>
        match n.severity
        case Debug => logger.Debug(n.message);
        case Info => logger.Info(n.message);
        case Warn => logger.Warn(n.message);
        case Error => logger.Error(n.message);
    }
  }

  /** The handler texts, event by event. */
  lemma StartedExample(task: Task)
    requires task.fileName == "0001-test.md"
    ensures Handle(TaskStarted(Some(task), None)) == Logged(Some(Notice(Info, "\U{25B6}\U{FE0F} Running task: 0001-test.md")))
    ensures Handle(TaskStarted(None, Some(0))) == Logged(Some(Notice(Info, "No tasks found in TODO directory.")))
    ensures Handle(TaskStarted(None, Some(1))) == Logged(None)
  {
    assert RUNNING + task.fileName == "\U{25B6}\U{FE0F} Running task: 0001-test.md";
  }

  lemma AttemptStartedExample(task: Task)
    ensures Handle(AttemptStarted(task, 1)) == Logged(Some(Notice(Info, "   Attempt 1...")))
  {
    assert NatToString(1) == "1";
    assert "   Attempt " + "1" + "..." == "   Attempt 1...";
  }

  lemma AttemptSucceededExample(task: Task)
    ensures Handle(AttemptSucceeded(task, 2)) == Logged(Some(Notice(Severity.Debug, "Attempt 2 passed validation.")))
  {
    assert NatToString(2) == "2";
    assert "Attempt " + "2" + " passed validation." == "Attempt 2 passed validation.";
  }

  lemma AttemptFailedExample(task: Task, error: string)
    requires error == "Validation failed"
    ensures Handle(AttemptFailed(task, 1, error)) == Logged(Some(Notice(Warn, "Attempt 1 failed: Validation failed")))
  {
    assert NatToString(1) == "1";
    assert "Attempt " + "1" + " failed: " + error == "Attempt 1 failed: Validation failed";
  }

  lemma FailedExample(task: Task, error: string)
    requires task.fileName == "0001-test.md" && error == "Fatal error"
    ensures Handle(TaskFailed(task, Some(error))) == Logged(Some(Notice(Severity.Error, "Task 0001-test.md failed: Fatal error")))
  {
    assert "Task " + task.fileName + " failed: " + error == "Task 0001-test.md failed: Fatal error";
  }

  lemma FailedWithoutErrorExample(task: Task)
    requires task.fileName == "0001-test.md"
    ensures Handle(TaskFailed(task, None)) == Logged(Some(Notice(Severity.Error, "Task 0001-test.md failed: undefined")))
  {
    assert "Task " + task.fileName + " failed: " + "undefined" == "Task 0001-test.md failed: undefined";
  }
}
