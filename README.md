# open-ralph, modelled in Dafny

open-ralph ("Ralph") is a task runner that drives AI coding tools. Tasks are
Markdown files with YAML front matter in a `tasks/todo` directory. For each
task the `LoopEngine` runs up to `retries` attempts. An attempt asks an AI
provider for a proposal and then runs the task's validation command. The
first attempt that passes ends the retries. A passed task is moved to
`tasks/done` with an audit log and committed. A task whose attempts all fail
is moved to `tasks/failed` with its last history entry as the error.

The project models the engine and the services around it:

- **`Engine`** (`loop_engine.dfy`): the retry loop, the events, commits and
  history entries. `LoopEngine` is a class whose methods are proved equal to
  specification functions (`Attempt`, `AttemptsFrom`, `RunTaskSpec`,
  `RunFiles`, `RunAllSpec`). Lemmas about those functions state what a run
  does.
- **`AiService`** (`ai_service.dfy`): `callAI`. This covers the provider
  lookup, the three-level model priority, and the promise settled by the
  child process's events in arrival order.
- **`Providers`** (`providers.dfy`): the eight `build` strategies.
- **`Context`** (`context_service.dfy`): `ContextService`, that is, persona
  resolution and the assembly of the context file.
- **`TaskStore`** (`task_repository.dfy`): `TaskRepository`, that is,
  listing, loading and finalizing task files.
- **`CommitMessage`** (`commit_message.dfy`): `deriveCommitMessage`,
  including the two regular expressions it matches.
- **`Config`**, **`Setup`**, **`Logging`**, **`Observer`**: `loadConfig`,
  `SetupService`, `LoggerService` and `EngineObserver`.
- **Shared modules:** `Wrappers`, `Text` (the JavaScript string operations
  used), `Ordering` (lexicographic order on characters, standing for the order `sort()` uses), `FileSystem` (an
  in-memory file system with a `Disk` class), and `TaskModel` (tasks and
  front matter).

**How the model stands in for what it cannot run:**

- The collaborators the engine cannot see into are parameters:
  - the events of the n-th child process;
  - the outcome of the n-th validation and of the n-th commit;
  - what the event listeners throw;
  - the front-matter parser.
- The engine records its calls in a `Trace`.
- A JavaScript value that may be absent is an `Option`, and "truthy" means
  present and non-empty. An absent value rendered in a template is the text
  `undefined`.

**Where the model follows the code rather than the documented intent:**

- `runAll` takes no task name.
- The engine commits with the fixed message `fix(<task_id>): automated task
  resolution` and never calls `deriveCommitMessage`.
- `callAI` neither uses the context service it is passed nor forwards the
  provider's `stdin`.
- The engine passes no `config` to `callAI`. Only the providers of its own
  `AiConfig` parameter are looked up.
- `_finalize` overwrites the target file.
- `lastError` is the whole last history entry.
- A negative `retries` value means no attempt at all.
- aider's `build` throws on a front-matter list of files, because it calls
  `split` on it (`Providers.Aider`).

## Model

| member | source | states |
|---|---|---|
| FileSystem.PathJoin | src/services/task.repository.js:34 | the joined path is the directory, one `/`, and the name |
| FileSystem.Unslashed | src/services/task.repository.js:59 | the path with its trailing `/` removed is no longer and does not end in `/` |
| FileSystem.UnslashedDropsSeparators | src/services/task.repository.js:59 | what is kept is a prefix, and what is removed is `/` characters only |
| FileSystem.LastSegment | src/services/task.repository.js:59 | a `/`-free suffix of the path, preceded by a `/` when shorter than it |
| FileSystem.Basename | src/services/task.repository.js:59 | the base name holds no `/` |
| FileSystem.BasenameSegment | src/services/task.repository.js:59 | trailing `/` are ignored; the base name is then the suffix after the last `/` |
| FileSystem.BasenameEmpty | src/services/task.repository.js:59 | the base name is empty exactly for a path of separators only |
| FileSystem.BasenameTrailingSlash | src/services/task.repository.js:59 | a trailing `/` does not change the base name |
| FileSystem.DoneBasenameExample | src/services/task.repository.js:59 | `tasks/done/` and `tasks/done` both have the base name `done` |
| FileSystem.Fs.Read | src/services/task.repository.js:35 | a read succeeds exactly on a stored, non-directory, readable path and returns its contents |
| FileSystem.Fs.List | src/services/task.repository.js:23 | a listing succeeds exactly on a readable directory and names exactly its direct children |
| FileSystem.Fs.Write | src/services/task.repository.js:68 | the path exists afterwards and reads back the content; every other path is unchanged |
| FileSystem.Fs.Remove | src/services/task.repository.js:70-72 | the path no longer exists; every other path is unchanged |
| FileSystem.Fs.EnsureDir | src/services/task.repository.js:67 | the directory exists afterwards; files are unchanged |
| FileSystem.Disk.WriteFile | src/services/task.repository.js:68 | the disk state becomes the written state |
| FileSystem.Disk.RemovePath | src/services/task.repository.js:71 | the disk state becomes the state without the path |
| FileSystem.Disk.EnsureDir | src/services/task.repository.js:67 | the disk state becomes the state with the directory |
| TaskModel.Or | src/engine/loop.engine.js:112 | `a \|\| b`: the first operand when truthy, else the second |
| TaskModel.Render | src/engine/loop.engine.js:133 | a present value renders as itself, an absent one as `undefined` |
| TaskModel.RenderFiles | src/engine/loop.engine.js:109 | a file list renders joined by commas, a string as itself, an absent value as `undefined` |
| TaskStore.ErrorLine | src/services/task.repository.js:60-62 | the error line is `\n- Error: <error>` exactly when the error is truthy, and empty otherwise |
| TaskStore.AuditLogShape | src/services/task.repository.js:59-62 | the log opens with the status header and the history joined by newlines, and ends with the error line only for a truthy error |
| TaskStore.FinalizeRemovesSource | src/services/task.repository.js:67-72 | after finalizing, the source path is absent and the target directory exists, whether or not the source existed |
| TaskStore.FinalizeWritesTarget | src/services/task.repository.js:64-68 | the target holds the raw content followed by the audit log, so the raw content is a prefix |
| TaskStore.FinalizeFrame | src/services/task.repository.js:67-72 | no path other than the target, its directory and the source changes |
| TaskStore.FinalizeInPlaceLosesTask | src/services/task.repository.js:68-72 | when the target is the source path, the write is removed again |
| TaskStore.Listing | src/services/task.repository.js:21-26 | a missing directory lists as empty; otherwise the result is exactly the `.md` names, strictly sorted |
| TaskStore.Load | src/services/task.repository.js:33-38 | an unreadable file fails; otherwise the task has `filePath = todo/fileName`, the raw content read, and the parser's data and body |
| TaskStore.TaskRepository.constructor | src/services/task.repository.js:10-15 | the repository keeps the three directories, the disk and the parser |
| TaskStore.TaskRepository.ListTodo | src/services/task.repository.js:21-26 | `listTodo` is `Listing` of the current disk |
| TaskStore.TaskRepository.LoadTask | src/services/task.repository.js:33-38 | `loadTask` is `Load` on the current disk |
| TaskStore.TaskRepository.MarkDone | src/services/task.repository.js:43-45 | the disk becomes the state finalized into the done directory with no error |
| TaskStore.TaskRepository.MarkFailed | src/services/task.repository.js:50-52 | the disk becomes the state finalized into the failed directory with the error |
| TaskStore.TaskRepository.Finalize | src/services/task.repository.js:58-73 | the disk becomes `Finalized` of the old disk |
| Providers.FileOrPrompt | src/services/providers/forge.js:9-16 | the message is the file's contents when the prompt names a readable file, and the prompt itself when the path is missing or reading throws |
| Providers.Forge | src/services/providers/forge.js:8-21 | `forge` with exactly `["--prompt", message]` |
| Providers.Copilot | src/services/providers/github-copilot.js:5-18 | `copilot` with exactly `["--allow-all-tools", "--prompt", message]` |
| Providers.Cline | src/services/providers/cline.js:5-20 | `cline` with exactly `[message, "--oneshot", "--yolo"]` |
| Providers.Nanocoder | src/services/providers/nanocoder.js:5-18 | `nanocoder` with the message as its only argument |
| Providers.Qwen | src/services/providers/qwen-code.js:5-18 | `qwen` with exactly `["--yolo", message]` |
| Providers.Opencode | src/services/providers/opencode.js:5-18 | `opencode` with the message as its only argument |
| Providers.AiderFiles | src/services/providers/aider.js:13-22 | falsy files add nothing; otherwise the pieces are non-empty and free of separators, and the text is exactly the pieces woven with the separator runs between them (runs that are non-empty between pieces) |
| Providers.AiderFilesJoin | src/services/providers/aider.js:20 | splitting non-empty separator-free names joined by one separator gives back exactly those names |
| Providers.ModelFlag | src/services/providers/aider.js:24-26 | `--model <model>` exactly when the model is truthy |
| Providers.AiderArgsLayout | src/services/providers/aider.js:10-31 | the arguments open with `--message` and the unread prompt, then the files, and end with the model flag |
| Providers.Aider | src/services/providers/aider.js:10-32 | `build` throws exactly for a file list; otherwise it is `aider` with `AiderArgs` and no stdin |
| Providers.GeminiArgs | src/services/providers/gemini.js:12-18 | `["--model", model, "--yolo"]` for a truthy model, else `["--yolo"]`; `--yolo` is always last |
| Providers.Gemini | src/services/providers/gemini.js:11-34 | `gemini` with those arguments; the message goes to stdin and never into the arguments |
| Providers.Layout | src/services/ai.service.js:28-30 | a strategy's result fails only for aider with a file list; a fixed strategy returns its result |
| Providers.Build | src/services/ai.service.js:28-30 | calling `build` gives `Layout` |
| AiService.FilesOption | src/services/ai.service.js:11 | undefined files become `""`; given files pass unchanged; truthiness is kept |
| AiService.ResolveModel | src/services/ai.service.js:21 | the task model, else the provider default, else the global model, else null, each taken only when truthy |
| AiService.Prepare | src/services/ai.service.js:13-30 | an unknown provider rejects with `Unknown provider: <name>`; a provider without `build` rejects; otherwise `build` decides the spawn, with `args` defaulting to `[]` |
| AiService.SettleBy | src/services/ai.service.js:43-74 | exit 0 resolves with the output or `No output from AI.`; another code, a spawn error or a fired timer rejects with its message; data leaves the promise pending |
| AiService.CallAI | src/services/ai.service.js:11-76 | a failed preparation rejects with nothing spawned; otherwise the outcome is `Lifecycle` of the provider's events |
| AiService.CollectedAppend | src/services/ai.service.js:50-60 | output gathers stdout and stderr chunks in arrival order |
| AiService.SettledStays | src/services/ai.service.js:62-74 | once settled, later events change neither the settlement nor the kill |
| AiService.NoTimerNoKill | src/services/ai.service.js:41-48 | without a positive timeout, the child is never killed |
| AiService.DataKeepsPending | src/services/ai.service.js:50-60 | data events alone leave the promise pending |
| AiService.CleanExitResolves | src/services/ai.service.js:62-68 | chunks followed by exit 0 resolve with the chunks, or `No output from AI.` when there are none |
| AiService.TimeoutRejects | src/services/ai.service.js:43-47 | a timer firing before the exit kills the child and rejects, whatever comes after |
| AiService.TimeoutMessage | src/services/ai.service.test.js:251-273 | a 1000 ms timeout rejects with `AI process timed out after 1000ms` |
| Context.PersonasDir | src/services/context.service.js:27-32 | the configured personas directory when truthy, else `cwd/.ralph/personas` |
| Context.ContextFile | src/services/context.service.js:79-82 | the context file is `cwd/.ralph/context/current_task.md` |
| Context.JoinHead | src/services/context.service.js:56-60 | persona, `\n# TASK` and body joined by newlines form the head |
| Context.MinimalContext | src/services/context.service.js:56-77 | without validation command, files or history, the content is the head alone |
| Context.ContextLayout | src/services/context.service.js:53-77 | the content is exactly the head, then `\n# CONSTRAINTS` and the validation line exactly when the command is truthy, then the affected files line exactly when the files are truthy, then the history header, intro and the entries joined by blank lines exactly when there is a history, each after a newline |
| Context.ContextOpening | src/services/context.service.js:56-60 | the content always begins with the head |
| Context.ContextConstraints | src/services/context.service.js:62-65 | with a truthy validation command, the constraints header and command line follow the head |
| Context.ContextFilesLine | src/services/context.service.js:67-69 | without a validation command but with files, the files line follows the head |
| Context.ContextHistory | src/services/context.service.js:71-75 | a non-empty history ends the content with its header and the entries joined by blank lines |
| Context.ContextService.constructor | src/services/context.service.js:9-12 | the service keeps its configuration and disk |
| Context.ContextService.PersonaPath | src/services/context.service.js:34 | the persona path is `<personas dir>/<name>.md` |
| Context.ContextService.ResolvePersona | src/services/context.service.js:20-43 | no persona name gives the default persona; a readable persona file gives its contents; a missing one gives the default; one that exists but cannot be read throws |
| Context.ContextService.BuildContext | src/services/context.service.js:53-86 | the context file is written with `ContextContent` and its path is returned; nothing else changes |
| CommitMessage.SpaceRun | src/services/task.msg.service.js:46 | `\s+` consumes the longest run of whitespace |
| CommitMessage.LineFrom | src/services/task.msg.service.js:46 | `[^\n]+` greedily takes the rest of the line |
| CommitMessage.CaptureStart | src/services/task.msg.service.js:46 | backtracking gives the latest capture start inside the whitespace run that begins a non-empty line |
| CommitMessage.Tail | src/services/task.msg.service.js:46 | a capture is non-empty and contains no newline |
| CommitMessage.TailMatches | src/services/task.msg.service.js:46 | `\s+([^\n]+)` matches exactly when some whitespace run is followed by a non-newline character |
| CommitMessage.FirstObjective | src/services/task.msg.service.js:46 | the Objective match is the leftmost position where the pattern matches |
| CommitMessage.FirstH1 | src/services/task.msg.service.js:60 | the H1 match is the leftmost line start where `#\s+` and a capture match |
| CommitMessage.StripMd | src/services/task.msg.service.js:92 | a trailing `.md` is removed and nothing else |
| CommitMessage.HumanizeProperties | src/services/task.msg.service.js:88-114 | the result has no hyphen; numbered names of three or more parts keep parts from index 2; other names have every hyphen replaced by a space |
| CommitMessage.Truncate | src/services/task.msg.service.js:116-119 | subjects up to 72 characters are unchanged; longer ones become their first 72 characters and `...` |
| CommitMessage.DeriveType | src/services/task.msg.service.js:16-34 | `fix` exactly for FIX or BUG, `test` for TEST, `docs` for DOCS, `feat` for anything else or no second segment |
| CommitMessage.NoHyphenIsFeat | src/services/task.msg.service.js:18-20 | a name without a hyphen is `feat` |
| CommitMessage.DeriveSubject | src/services/task.msg.service.js:38-84 | the trimmed Objective line, else the trimmed H1, else the humanized name, truncated, at most 75 characters |
| CommitMessage.EmptyContentUsesFileName | src/services/task.msg.service.js:74-82 | empty content falls back to the humanized file name |
| CommitMessage.ScopePart | src/services/task.msg.service.js:12 | `(<task_id>)` exactly when the id is truthy |
| CommitMessage.DeriveCommitMessage | src/services/task.msg.service.js:7-14 | the message starts with the type and ends with `: <subject>` |
| CommitMessage.CommitMessageScope | src/services/task.msg.service.js:8-13 | with a truthy id the message is exactly `<type>(<id>): <subject>`; otherwise it is `<type>: <subject>` |
| CommitMessage.MalformedExample | src/services/task.msg.service.test.js:71-78 | `0022-BUG-malformed.md` with empty content gives type `fix` and subject `malformed` |
| CommitMessage.NoIdExample | src/services/task.msg.service.test.js:80-87 | `0023-FEAT-no-id.md` with an Objective and no id gives `feat: Test no ID` |
| Config.ConfigPath | src/services/config.service.js:15 | the file consulted is `<cwd>/ralph.config.js` |
| Config.UserDirs | src/services/config.service.js:31 | the user's `dirs` fields when it is an object, else none |
| Config.LoadConfig | src/services/config.service.js:14-34 | no file gives the defaults; a loadable file gives the merge; a failing one gives the defaults and a warning |
| Config.NoProjectFileGivesDefaults | src/services/config.service.js:4-12 | merging nothing gives exactly `DEFAULTS` |
| Config.TopLevelOverride | src/services/config.service.js:26-28 | user keys override, unset keys keep their default, and no other key appears |
| Config.DirsMerged | src/services/config.service.js:29-32 | `dirs` is merged key by key and always names todo, done and failed |
| Config.PartialDirs | src/services/config.service.js:29-32 | a user `dirs` naming only todo keeps the default done and failed |
| Setup.Required | src/services/setup.service.js:4-10 | the five required directories, each under cwd |
| Setup.EnsureAll | src/services/setup.service.js:36-40 | ensuring a list adds exactly its paths as directories and leaves files alone |
| Setup.DirsCreated | src/services/setup.service.js:36-40 | after `initializeDirs` every required directory exists and setup counts as initialized |
| Setup.SeedKeepsExisting | src/services/setup.service.js:42-50 | seeding never changes an existing file |
| Setup.SeedMonotone | src/services/setup.service.js:42-50 | seeding never removes a path |
| Setup.SeedWritesPersonas | src/services/setup.service.js:42-50 | absent persona files are written with their contents; present ones keep theirs |
| Setup.GitignoreEffect | src/services/setup.service.js:52-64 | afterwards the file is readable and contains `.ralph/context`, and a second update changes nothing |
| Setup.ConfigKept | src/services/setup.service.js:66-71 | the config file exists afterwards; an existing one is kept; an absent one gets `DEFAULT_CONFIG` |
| Setup.SetupCompletes | src/services/setup.service.js:79-86 | a completed setup leaves the project initialized, with a `.gitignore` and a config file |
| Setup.SetupService.constructor | src/services/setup.service.js:35 | the service keeps its cwd and disk |
| Setup.SetupService.InitializeDirs | src/services/setup.service.js:36-40 | the loop makes the disk `EnsureAll` of the required directories |
| Setup.SetupService.SeedPersonas | src/services/setup.service.js:42-50 | the loop makes the disk `Seeded` with the personas |
| Setup.SetupService.UpdateGitignore | src/services/setup.service.js:52-64 | it fails when reading fails; otherwise the disk becomes `Gitignore` of the old disk |
| Setup.SetupService.CreateConfigFile | src/services/setup.service.js:66-71 | the disk becomes `CreateConfig` of the old disk |
| Setup.SetupService.IsInitialized | src/services/setup.service.js:73-77 | true exactly when `tasks/todo` exists under cwd |
| Setup.SetupService.RunSetup | src/services/setup.service.js:79-86 | the four steps in order; the result is `RunSetupResult` |
| Logging.Rank | src/services/logger.service.js:1-6 | the four severities number 0 to 3 |
| Logging.LevelNamed | src/services/logger.service.js:1-6 | exactly the four upper-case names have a level |
| Logging.LevelOf | src/services/logger.service.js:9-11 | the named level, matched case-insensitively; INFO when missing or unknown |
| Logging.Output | src/services/logger.service.js:13-35 | a line is written exactly when the severity reaches the threshold, on the severity's stream, with the `[LEVEL] ` prefix and the message |
| Logging.LowerLevelShowsMore | src/services/logger.service.js:13-35 | a lower threshold shows everything a higher one shows |
| Logging.Thresholds | src/services/logger.service.js:31-35 | errors always show; debug shows only at the debug threshold; the default shows info and hides debug |
| Logging.UnknownLevelIsInfo | src/services/logger.service.js:10 | an unknown name behaves as INFO |
| Logging.DebugAnyCase | src/services/logger.service.js:10 | `debug` in lower case selects DEBUG |
| Logging.LoggerService.constructor | src/services/logger.service.js:9-11 | the level is `LevelOf` the name; nothing is written yet |
| Logging.LoggerService.Log | src/services/logger.service.js:13-35 | the written lines grow by `Output` |
| Logging.LoggerService.Debug | src/services/logger.service.js:13-17 | `debug` writes `Output` at the debug severity |
| Logging.LoggerService.Info | src/services/logger.service.js:19-23 | `info` writes `Output` at the info severity |
| Logging.LoggerService.Warn | src/services/logger.service.js:25-29 | `warn` writes `Output` at the warn severity |
| Logging.LoggerService.Error | src/services/logger.service.js:31-35 | `error` writes `Output` at the error severity |
| Engine.EventNamesDistinct | src/engine/loop.engine.js:7-15 | two events share a name exactly when they are of the same kind |
| Engine.Retries | src/engine/loop.engine.js:34 | `config.retries` when truthy, otherwise 3 |
| Engine.FlowOf | src/engine/loop.engine.js:52 | a listener's throw ends the run with its message |
| Engine.Emitted | src/engine/loop.engine.js:52 | an emit appends the event and records nothing else |
| Engine.Options | src/engine/loop.engine.js:110-117 | the task's provider and model over the engine's, the task's files, the engine's AI timeout |
| Engine.Caught | src/engine/loop.engine.js:98-105 | a caught error reports `attempt:failed` and, unless that throws, appends the failure entry |
| Engine.LastEntry | src/engine/loop.engine.js:70 | the last history entry, or `undefined` for an empty history |
| Engine.Affected | src/engine/loop.engine.js:127-131 | a file list as it is; a string split on quotes, whitespace and commas with empty pieces dropped, the string being exactly the pieces woven with the separator runs between them; nothing when falsy |
| Engine.AffectedJoin | src/engine/loop.engine.js:127-131 | splitting non-empty separator-free names joined by one separator gives back exactly those names |
| Engine.CommitFiles | src/engine/loop.engine.js:125-131 | the done path first, then the affected files |
| Engine.AttemptOutcome | src/engine/loop.engine.js:80-106 | an attempt passes exactly when the AI answers, the validation passes and no listener throws; a pass appends the success entry and one validation call |
| Engine.RejectedAttemptSkipsValidation | src/engine/loop.engine.js:84-105 | an AI rejection fails the attempt without running the validation |
| Engine.FailedValidationAttempt | src/engine/loop.engine.js:87-105 | a throwing validation fails the attempt after the proposal event, with the failure entry |
| Engine.AttemptsShape | src/engine/loop.engine.js:60-63 | the history keeps its prefix; with no pass it has one entry per attempt; a pass ends with a validation that passed |
| Engine.AttemptsPass | src/engine/loop.engine.js:60-63 | a pass happens at some attempt `k` with `i <= k <= last`, after one history entry per attempt up to it; the last two events are that attempt's proposal and pass, and the last entry is its success entry with the proposal's output |
| Engine.AllAttemptsFail | src/engine/loop.engine.js:60-63 | when every validation fails, every attempt runs, each with one validation and one entry |
| Engine.RunTaskAllFail | src/engine/loop.engine.test.js:62-77 | `retries` validations, `markFailed` with the last entry, no commit, `task:failed` last |
| Engine.RunTaskFirstSuccess | src/engine/loop.engine.test.js:44-60 | one validation with the task's command, `markDone` with one entry, the fixed commit, and the five events in order |
| Engine.EmptyTodoReported | src/engine/loop.engine.js:40-43 | an empty todo list emits one `task:started` with count 0 and runs nothing |
| Engine.RunFilesAppend | src/engine/loop.engine.js:45-47 | the tasks run in list order, each from the state the previous one left |
| Engine.LoopEngine.constructor | src/engine/loop.engine.js:21-35 | the engine keeps its collaborators and starts with an empty trace |
| Engine.LoopEngine.Emit | src/engine/loop.engine.js:52 | the event is recorded and the listeners' throw is returned |
| Engine.LoopEngine.GenerateProposal | src/engine/loop.engine.js:108-118 | the answer is `AiAnswer` for this call, and the AI call is counted |
| Engine.LoopEngine.VerifyChanges | src/engine/loop.engine.js:120-122 | the validation call is recorded with the engine's timeout, and its outcome is returned |
| Engine.LoopEngine.CommitTask | src/engine/loop.engine.js:124-134 | the commit is recorded with the fixed message and `CommitFiles`, and its outcome is returned |
| Engine.LoopEngine.RecordFailure | src/engine/loop.engine.js:98-105 | the step is `Caught` |
| Engine.LoopEngine.ExecuteAttempt | src/engine/loop.engine.js:80-106 | the step is `Attempt` |
| Engine.LoopEngine.Attempts | src/engine/loop.engine.js:60-63 | the loop's result is `AttemptsFrom` attempt 1 to `retries` |
| Engine.LoopEngine.RunTask | src/engine/loop.engine.js:50-74 | the disk, trace and ending are `RunTaskSpec` |
| Engine.LoopEngine.RunAll | src/engine/loop.engine.js:37-48 | the disk, trace and ending are `RunAllSpec` |
| Engine.LoopEngine.RunEach | src/engine/loop.engine.js:45-47 | the loop's result is `RunFiles` of the list |
| Observer.Common | src/services/engine.observer.js:15-37 | a start logs the running task, or the no-tasks notice for count 0, or nothing; an attempt start logs `   Attempt N...` at info, a proposal the proposal notice at debug, a pass `Attempt N passed validation.` at debug, a failure `Attempt N failed: <error>` at warn, and a task failure `Task <file> failed: <error>` at error |
| Observer.HandleAsWritten | src/services/engine.observer.js:39-41 | the handlers as written throw exactly on `task:completed`, with the missing-method error |
| Observer.Handle | src/services/engine.observer.js:14-46 | the handlers never throw; completion logs at info; every other event is handled as written |
| Observer.ThrownBy | src/services/engine.observer.js:39-41 | `emit` sees an error exactly when a handler throws |
| Observer.Written | src/services/engine.observer.js:14-46 | an event writes a line exactly when its handler logs at a severity the threshold lets through |
| Observer.Visibility | src/services/engine.observer.js:35-45 | failures always reach the console; at the default threshold, proposal and pass notices do not |
| Observer.AsWrittenSkipsRemainingTasks | src/services/engine.observer.js:39-41 | with the handlers as written, a passed and committed task makes the run reject, and later tasks never run |
| Observer.QuietAttemptsDoNotThrow | src/engine/loop.engine.js:84-105 | with handlers that never throw, the attempts never end in a throw |
| Observer.ObservedRunRejectsOnlyOnCollaborators | src/engine/loop.engine.js:50-74 | with the intended handlers, a task run rejects only when loading fails or a commit fails |
| Observer.ObservedRunContinues | src/engine/loop.engine.js:45-47 | with the intended handlers, a passed and committed task ends normally and the next task runs |
| Observer.EngineObserver.constructor | src/services/engine.observer.js:8-12 | the observer keeps its logger |
| Observer.EngineObserver.Deliver | src/services/engine.observer.js:14-46 | delivering an event writes exactly `Written` through the logger |
| Observer.StartedExample | src/services/engine.observer.test.js:23-37 | the start notices for a task, for count 0, and none for count 1 |
| Observer.AttemptStartedExample | src/services/engine.observer.test.js:39-42 | attempt 1 starting logs `   Attempt 1...` at info |
| Observer.AttemptSucceededExample | src/services/engine.observer.test.js:49-52 | attempt 2 passing logs `Attempt 2 passed validation.` at debug |
| Observer.AttemptFailedExample | src/services/engine.observer.test.js:54-57 | attempt 1 failing logs `Attempt 1 failed: Validation failed` at warn |
| Observer.FailedExample | src/services/engine.observer.test.js:65-69 | `Task 0001-test.md failed: Fatal error` at error |
| Observer.FailedWithoutErrorExample | src/services/engine.observer.js:43-45 | a failure without an error renders `undefined` |

## Left out

- Console output of `callAI`, the context service, the setup script and the config loader: these only print, and print nothing the program reads back.
- Real process spawning, stdout/stderr forwarding and timers: the child's events are a sequence in arrival order, and a timer is one more event in it. Concurrency beyond that order is not modelled.
- `git.service.js` is not part of this model. Validation and commit outcomes are parameters of the engine. The real `commit` ignores its file list and stages everything.
- gray-matter front-matter parsing is a parameter that returns data and body or an error.
- `require` of `ralph.config.js`: a parameter returning the exported object or an error message. Node's module cache, non-object exports and a `dirs` that is a string are not modelled.
- Node error texts for failing file-system calls: a failed read is the message `cannot read <path>`, and a listing failure is a plain failure.
- Path normalisation: `path.join` and `path.resolve` are modelled as joining with `/`, without `..`, `.` or duplicate-slash handling. `ensureDir` does not model creating the missing ancestors.
- Unicode case mapping and UTF-16 lengths: `toUpperCase`, the `/i` flag and .length are modelled on characters, with ASCII case mapping.
- TaskStore.Listing: sorts by comparing characters (code points), while `sort()` compares UTF-16 code units. The two orders differ only when one name has a character above U+FFFF where another has one in U+E000 to U+FFFF; for such names the listing order can differ from the source's.
- `bin/ralph.js`, `ralph.js`, the docs site and `ralph.config.js`: command-line wiring and static files outside the engine and its services.
- Tests that disagree with the source, which the model follows instead:
  - the `{prompt}` template and shell mode in the AI service tests;
  - the provider layouts in the provider tests;
  - provider-directory loading in the config tests;
  - the logger in the engine tests.
- The extra `...args` of the logger methods: no caller passes any.
- FileSystem.Fs.Write: never fails. Node's `writeFileSync` throws on a directory (EISDIR) or an unwritable path (EACCES), and that throw would leave `_finalize`, `buildContext` and the setup steps. The model has no such failure, so `Finalized`, `BuildContext` and the setup operations never reject on a write error.
- FileSystem.Fs.EnsureDir: never fails. Node's `ensureDirSync` throws when a file already sits at the path or the path cannot be created. The model has no such failure, so the members that call it never reject on that error.
- TaskModel.Render: front-matter values are strings or absent, so a YAML `null` has no value in the model. The source's template literals render it as `null`.
- AiService.Prepare: the configured providers are a finite map, so a name found only on `Object.prototype` (such as `constructor`) is an unknown provider here, while the source finds the inherited member and rejects with the must-export-`build` error instead.

## Findings

| source | as written | input that shows it | evidently intended | confidence | as-written member | corrected member |
|---|---|---|---|---|---|---|
| src/services/engine.observer.js:39-41 | the `task:completed` handler calls `this.logger.success`, which `LoggerService` (src/services/logger.service.js:8-36) does not define, so `emit` throws `this.logger.success is not a function` out of `runTask` after the task was moved and committed | a todo directory with two tasks whose first attempt passes: the first task is marked done and committed, then `runAll` rejects and the second task never runs | the completion is logged and the run continues with the next task | not executed | Observer.AsWrittenSkipsRemainingTasks | Observer.ObservedRunContinues |
