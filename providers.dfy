/** The provider strategies: each `build(prompt, { model, files, fs })` turns
    a prompt into the command line of one AI tool. Most of them share one
    rule: when the prompt is the path of an existing file, its contents are
    sent instead, and a read that throws falls back to the prompt text. */
module Providers {
  import opened Wrappers
  import opened Text
  import opened FileSystem
  import opened TaskModel

  /** `{ command, args, stdin }` as a `build` function returns it; `args` and
      `stdin` may be missing. */
  datatype Invocation = Invocation(command: string, args: Option<seq<string>>, stdin: Option<string>)

  /** The message a file-reading provider sends for `prompt`. */
  function FileOrPrompt(fs: Fs, prompt: string): (m: string)
    ensures fs.Read(prompt).Some? ==> m == fs.Read(prompt).value
    ensures fs.Exists(prompt) && fs.Read(prompt).None? ==> m == prompt
    ensures !fs.Exists(prompt) ==> m == prompt
  {
    if fs.Exists(prompt) then
      match fs.Read(prompt)
      case Some(content) => content
      case None => prompt
    else prompt
  }

  /** forge: `forge --prompt <message>`. */
  function Forge(prompt: string, fs: Fs): (inv: Invocation)
    ensures inv.command == "forge" && inv.stdin.None?
    ensures inv.args.Some? && |inv.args.value| == 2
    ensures inv.args.value[0] == "--prompt" && inv.args.value[1] == FileOrPrompt(fs, prompt)
  {
    Invocation("forge", Some(["--prompt", FileOrPrompt(fs, prompt)]), None)
  }

  /** github-copilot: `copilot --allow-all-tools --prompt <message>`. */
  function Copilot(prompt: string, fs: Fs): (inv: Invocation)
    ensures inv.command == "copilot" && inv.stdin.None?
    ensures inv.args.Some? && |inv.args.value| == 3
    ensures inv.args.value[..2] == ["--allow-all-tools", "--prompt"]
    ensures inv.args.value[2] == FileOrPrompt(fs, prompt)
  {
    Invocation("copilot", Some(["--allow-all-tools", "--prompt", FileOrPrompt(fs, prompt)]), None)
  }

  /** cline: `cline <message> --oneshot --yolo`. */
  function Cline(prompt: string, fs: Fs): (inv: Invocation)
    ensures inv.command == "cline" && inv.stdin.None?
    ensures inv.args.Some? && |inv.args.value| == 3
    ensures inv.args.value[0] == FileOrPrompt(fs, prompt)
    ensures inv.args.value[1..] == ["--oneshot", "--yolo"]
  {
    Invocation("cline", Some([FileOrPrompt(fs, prompt), "--oneshot", "--yolo"]), None)
  }

  /** nanocoder: the message is the only argument. */
  function Nanocoder(prompt: string, fs: Fs): (inv: Invocation)
    ensures inv.command == "nanocoder" && inv.stdin.None?
    ensures inv.args == Some([FileOrPrompt(fs, prompt)])
  {
    Invocation("nanocoder", Some([FileOrPrompt(fs, prompt)]), None)
  }

  /** qwen: `qwen --yolo <message>`. */
  function Qwen(prompt: string, fs: Fs): (inv: Invocation)
    ensures inv.command == "qwen" && inv.stdin.None?
    ensures inv.args.Some? && |inv.args.value| == 2
    ensures inv.args.value[0] == "--yolo" && inv.args.value[1] == FileOrPrompt(fs, prompt)
  {
    Invocation("qwen", Some(["--yolo", FileOrPrompt(fs, prompt)]), None)
  }

  /** opencode: the message is the only argument. */
  function Opencode(prompt: string, fs: Fs): (inv: Invocation)
    ensures inv.command == "opencode" && inv.stdin.None?
    ensures inv.args == Some([FileOrPrompt(fs, prompt)])
  {
    Invocation("opencode", Some([FileOrPrompt(fs, prompt)]), None)
  }

  /** The separators of aider's `files.split(/[\s,]+/)`. */
  predicate IsFileSeparator(c: char)
  {
    IsSpace(c) || c == ','
  }

  /** The file list aider passes: nothing for falsy `files`, else the pieces of the
      string between runs of separators. */
  function AiderFiles(files: Files): (r: seq<string>)
    requires !files.FileList?
    ensures !FilesTruthy(files) ==> r == []
    ensures FilesTruthy(files) ==> Concat(r) == Strip(files.text, IsFileSeparator)
    ensures forall k :: 0 <= k < |r| ==> r[k] != "" && Free(r[k], IsFileSeparator)
    ensures FilesTruthy(files) ==>
      Gapped(SplitGaps(files.text, IsFileSeparator), |r|, IsFileSeparator)
      && files.text == Weave(SplitGaps(files.text, IsFileSeparator), r)
  {
    if FilesTruthy(files) then
      SplitRunsKeepsText(files.text, IsFileSeparator);
      SplitRunsRebuilds(files.text, IsFileSeparator);
      SplitRuns(files.text, IsFileSeparator)
    else []
  }

  /** File names joined by a comma or a blank come back as the same list. */
  lemma AiderFilesJoin(names: seq<string>, c: char)
    requires |names| > 0 && IsFileSeparator(c)
    requires forall k :: 0 <= k < |names| ==> names[k] != "" && Free(names[k], IsFileSeparator)
    ensures AiderFiles(FileText(Join(names, [c]))) == names
  {
    JoinFirst(names, [c]);
    SplitRunsJoin(names, c, IsFileSeparator);
  }

  /** `--model <model>` when the model is truthy. */
  function ModelFlag(model: Option<string>): (r: seq<string>)
    ensures Truthy(model) ==> r == ["--model", model.value]
    ensures !Truthy(model) ==> r == []
  {
    if Truthy(model) then ["--model", model.value] else []
  }

  /** aider's argument list. */
  function AiderArgs(prompt: string, model: Option<string>, files: Files): seq<string>
    requires !files.FileList?
  {
    ["--message", prompt] + AiderFiles(files) + ModelFlag(model)
  }

  /** aider's arguments open with the prompt, end with the model flag and carry
      in between exactly the file names, in order. */
  lemma AiderArgsLayout(prompt: string, model: Option<string>, files: Files)
    requires !files.FileList?
    ensures var args := AiderArgs(prompt, model, files);
      var n := |AiderFiles(files)|;
      args[..2] == ["--message", prompt]
      && args[2..2 + n] == AiderFiles(files)
      && args[2 + n..] == ModelFlag(model)
      && |args| == 2 + n + (if Truthy(model) then 2 else 0)
  {
  }

  /** aider.js `build`. The `files` it receives is `affected_files` as the task
      gives it: a YAML list has no `split`, and the resulting TypeError rejects
      the AI call. */
  method Aider(prompt: string, model: Option<string>, files: Files) returns (r: Result<Invocation>)
    ensures r.Failure? <==> files.FileList?
    ensures r.Failure? ==> r.error == "files.split is not a function"
    ensures r.Success? ==> r.value == Invocation("aider", Some(AiderArgs(prompt, model, files)), None)
  {
    if files.FileList? {
      return Failure("files.split is not a function");
    }
    var args := ["--message", prompt];
    if FilesTruthy(files) {
      var fileList := SplitRuns(files.text, IsFileSeparator);
      args := args + fileList;
    }
    if Truthy(model) {
      args := args + ["--model", model.value];
    }
    assert args == ["--message", prompt] + AiderFiles(files) + ModelFlag(model);
    r := Success(Invocation("aider", Some(args), None));
  }

  /** gemini's argument list: the prompt is never part of it, and `--yolo` is last. */
  function GeminiArgs(model: Option<string>): (args: seq<string>)
    ensures |args| >= 1 && args[|args| - 1] == "--yolo"
    ensures Truthy(model) ==> args == ["--model", model.value, "--yolo"]
    ensures !Truthy(model) ==> args == ["--yolo"]
  {
    ModelFlag(model) + ["--yolo"]
  }

  /** gemini.js `build`: the message goes to standard input. */
  method Gemini(prompt: string, model: Option<string>, fs: Fs) returns (inv: Invocation)
    ensures inv.command == "gemini"
    ensures inv.args == Some(GeminiArgs(model))
    ensures inv.stdin == Some(FileOrPrompt(fs, prompt))
  {
    var args: seq<string> := [];
    if Truthy(model) {
      args := args + ["--model", model.value];
    }
    args := args + ["--yolo"];
    assert args == ModelFlag(model) + ["--yolo"];
    var stdin := prompt;
    if fs.Exists(prompt) {
      match fs.Read(prompt)
      case Some(content) => stdin := content;
      case None =>
    }
    inv := Invocation("gemini", Some(args), Some(stdin));
  }

  /** The `build` of a registered provider: one of the shipped strategies, or a
      user-supplied one whose result does not depend on its inputs here. */
  datatype Builder =
    | AiderBuild | GeminiBuild | ForgeBuild | CopilotBuild
    | ClineBuild | NanocoderBuild | QwenBuild | OpencodeBuild
    | FixedBuild(result: Invocation)

  /** A provider module: its name, `defaultModel`, and `build` if it is a function. */
  datatype Descriptor = Descriptor(name: string, defaultModel: Option<string>, build: Option<Builder>)

  /** What `build(prompt, { model, files })` returns for each strategy. */
  function Layout(b: Builder, prompt: string, model: Option<string>, files: Files, fs: Fs): (r: Result<Invocation>)
    ensures r.Failure? <==> b.AiderBuild? && files.FileList?
    ensures b.FixedBuild? ==> r == Success(b.result)
  {
    match b
    case AiderBuild =>
      if files.FileList? then Failure("files.split is not a function")
      else Success(Invocation("aider", Some(AiderArgs(prompt, model, files)), None))
    case GeminiBuild => Success(Invocation("gemini", Some(GeminiArgs(model)), Some(FileOrPrompt(fs, prompt))))
    case ForgeBuild => Success(Forge(prompt, fs))
    case CopilotBuild => Success(Copilot(prompt, fs))
    case ClineBuild => Success(Cline(prompt, fs))
    case NanocoderBuild => Success(Nanocoder(prompt, fs))
    case QwenBuild => Success(Qwen(prompt, fs))
    case OpencodeBuild => Success(Opencode(prompt, fs))
    case FixedBuild(result) => Success(result)
  }

  /** Calls the strategy's `build`. */
  method Build(b: Builder, prompt: string, model: Option<string>, files: Files, fs: Fs) returns (r: Result<Invocation>)
    ensures r == Layout(b, prompt, model, files, fs)
  {
    match b
    case AiderBuild =>
      r := Aider(prompt, model, files);
    case GeminiBuild =>
      var inv := Gemini(prompt, model, fs);
      r := Success(inv);
    case ForgeBuild => r := Success(Forge(prompt, fs));
    case CopilotBuild => r := Success(Copilot(prompt, fs));
    case ClineBuild => r := Success(Cline(prompt, fs));
    case NanocoderBuild => r := Success(Nanocoder(prompt, fs));
    case QwenBuild => r := Success(Qwen(prompt, fs));
    case OpencodeBuild => r := Success(Opencode(prompt, fs));
    case FixedBuild(result) => r := Success(result);
  }

  /** The shipped provider modules. Only aider declares a `defaultModel`, and it is null. */
  const AiderProvider := Descriptor("aider", None, Some(AiderBuild))
  const GeminiProvider := Descriptor("gemini", None, Some(GeminiBuild))
  const ForgeProvider := Descriptor("forge", None, Some(ForgeBuild))
  const CopilotProvider := Descriptor("github-copilot", None, Some(CopilotBuild))
  const ClineProvider := Descriptor("cline", None, Some(ClineBuild))
  const NanocoderProvider := Descriptor("nanocoder", None, Some(NanocoderBuild))
  const QwenProvider := Descriptor("qwen", None, Some(QwenBuild))
  const OpencodeProvider := Descriptor("opencode", None, Some(OpencodeBuild))
}
