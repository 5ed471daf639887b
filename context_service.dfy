/** `ContextService`: picks the persona for a task and writes the prompt
    context file that gathers the persona, the task body, its constraints and
    the history of earlier attempts. */
module Context {
  import opened Wrappers
  import opened Text
  import opened FileSystem
  import opened TaskModel

  const DEFAULT_PERSONA: string :=
    "ROLE: Senior Engineer\n"
    + "You are a senior software engineer. You write clean, efficient, and well-tested code.\n"
    + "You adhere strictly to project conventions and requirements."

  /** The fixed lines of the context file. */
  const TASK_HEADER: string := "\n# TASK"
  const CONSTRAINTS_HEADER: string := "\n# CONSTRAINTS"
  const HISTORY_HEADER: string := "\n# HISTORY"
  const HISTORY_INTRO: string := "Previous attempts and outcomes:"

  /** `config.dirs.personas` when truthy, else `<cwd>/.ralph/personas`. */
  function PersonasDir(configured: Option<string>, cwd: string): (d: string)
    ensures Truthy(configured) ==> d == configured.value
    ensures !Truthy(configured) ==> d == cwd + "/.ralph/personas"
  {
    if Truthy(configured) then configured.value else PathJoin(PathJoin(cwd, ".ralph"), "personas")
  }

  /** The directory and the slot the context file is always written to. */
  function ContextDir(cwd: string): string
  {
    PathJoin(PathJoin(cwd, ".ralph"), "context")
  }

  function ContextFile(cwd: string): (p: string)
    ensures p == cwd + "/.ralph/context/current_task.md"
  {
    PathJoin(ContextDir(cwd), "current_task.md")
  }

  /** The sections `buildContext` pushes, in order. */
  function Sections(persona: string, data: TaskData, body: string, history: seq<string>): seq<string>
  {
    [persona, TASK_HEADER, body] + Constraints(data) + FilesLine(data) + HistoryPart(history)
  }

  function ValidationLine(cmd: string): string
  {
    "Validation Command: " + cmd
  }

  function FilesLineText(files: Files): string
  {
    "Affected Files: " + RenderFiles(files)
  }

  function Constraints(data: TaskData): seq<string>
  {
    if Truthy(data.validationCmd) then [CONSTRAINTS_HEADER, ValidationLine(data.validationCmd.value)] else []
  }

  function FilesLine(data: TaskData): seq<string>
  {
    if FilesTruthy(data.affectedFiles) then [FilesLineText(data.affectedFiles)] else []
  }

  function HistoryPart(history: seq<string>): seq<string>
  {
    if |history| > 0 then [HISTORY_HEADER, HISTORY_INTRO, Join(history, "\n\n")] else []
  }

  /** The text of the context file: the sections joined by newlines. */
  function ContextContent(persona: string, data: TaskData, body: string, history: seq<string>): string
  {
    Join(Sections(persona, data, body, history), "\n")
  }

  /** The heading every context file starts with. */
  function Head(persona: string, body: string): string
  {
    persona + "\n" + TASK_HEADER + "\n" + body
  }

  lemma JoinHead(persona: string, body: string)
    ensures Join([persona, TASK_HEADER, body], "\n") == Head(persona, body)
  {
    JoinTriple(persona, TASK_HEADER, body, "\n");
  }

  /** With neither constraints, files nor history the file is the heading alone. */
  lemma MinimalContext(persona: string, data: TaskData, body: string)
    requires !Truthy(data.validationCmd) && !FilesTruthy(data.affectedFiles)
    ensures ContextContent(persona, data, body, []) == Head(persona, body)
  {
    assert Sections(persona, data, body, []) == [persona, TASK_HEADER, body];
    JoinHead(persona, body);
  }

  /** The content in closed form: the heading, then the constraints exactly
      for a truthy validation command, then the files line exactly for truthy
      affected files, then the history exactly for a non-empty history, each
      after a newline. */
  lemma ContextLayout(persona: string, data: TaskData, body: string, history: seq<string>)
    ensures ContextContent(persona, data, body, history) ==
      Head(persona, body)
      + (if Truthy(data.validationCmd) then "\n" + CONSTRAINTS_HEADER + "\n" + ValidationLine(data.validationCmd.value) else "")
      + (if FilesTruthy(data.affectedFiles) then "\n" + FilesLineText(data.affectedFiles) else "")
      + (if |history| > 0 then "\n" + HISTORY_HEADER + "\n" + HISTORY_INTRO + "\n" + Join(history, "\n\n") else "")
  {
    JoinSections([persona, TASK_HEADER, body], Constraints(data), FilesLine(data), HistoryPart(history), "\n");
    JoinHead(persona, body);
    ConstraintsText(data);
    FilesText(data);
    HistoryText(history);
  }

  lemma ConstraintsText(data: TaskData)
    ensures Prefixed(Constraints(data), "\n") ==
      if Truthy(data.validationCmd) then "\n" + CONSTRAINTS_HEADER + "\n" + ValidationLine(data.validationCmd.value) else ""
  {
    if Truthy(data.validationCmd) {
      PrefixedTwo(CONSTRAINTS_HEADER, ValidationLine(data.validationCmd.value), "\n");
    }
  }

  lemma FilesText(data: TaskData)
    ensures Prefixed(FilesLine(data), "\n") ==
      if FilesTruthy(data.affectedFiles) then "\n" + FilesLineText(data.affectedFiles) else ""
  {
    if FilesTruthy(data.affectedFiles) {
      PrefixedOne(FilesLineText(data.affectedFiles), "\n");
    }
  }

  lemma HistoryText(history: seq<string>)
    ensures Prefixed(HistoryPart(history), "\n") ==
      if |history| > 0 then "\n" + HISTORY_HEADER + "\n" + HISTORY_INTRO + "\n" + Join(history, "\n\n") else ""
  {
    if |history| > 0 {
      PrefixedThree(HISTORY_HEADER, HISTORY_INTRO, Join(history, "\n\n"), "\n");
    }
  }

  /** Whatever the optional sections, the file opens with the persona, the
      `# TASK` heading and the body. */
  lemma ContextOpening(persona: string, data: TaskData, body: string, history: seq<string>)
    ensures StartsWith(ContextContent(persona, data, body, history), Head(persona, body))
  {
    ContextLayout(persona, data, body, history);
    var c := if Truthy(data.validationCmd) then "\n" + CONSTRAINTS_HEADER + "\n" + ValidationLine(data.validationCmd.value) else "";
    var f := if FilesTruthy(data.affectedFiles) then "\n" + FilesLineText(data.affectedFiles) else "";
    var y := if |history| > 0 then "\n" + HISTORY_HEADER + "\n" + HISTORY_INTRO + "\n" + Join(history, "\n\n") else "";
    StartsWithFirst(Head(persona, body), c, f, y);
  }

  /** A truthy validation command follows the body directly as the constraints section. */
  lemma ContextConstraints(persona: string, data: TaskData, body: string, history: seq<string>)
    requires Truthy(data.validationCmd)
    ensures StartsWith(ContextContent(persona, data, body, history),
      Head(persona, body) + "\n" + CONSTRAINTS_HEADER + "\n" + ValidationLine(data.validationCmd.value))
  {
    ContextLayout(persona, data, body, history);
    var h, v := Head(persona, body), ValidationLine(data.validationCmd.value);
    var f := if FilesTruthy(data.affectedFiles) then "\n" + FilesLineText(data.affectedFiles) else "";
    var y := if |history| > 0 then "\n" + HISTORY_HEADER + "\n" + HISTORY_INTRO + "\n" + Join(history, "\n\n") else "";
    StartsWithLead(h, "\n" + CONSTRAINTS_HEADER + "\n" + v, f, y);
    Regroup4(h, "\n", CONSTRAINTS_HEADER, "\n", v);
  }

  /** Without a validation command, the affected files line follows the body. */
  lemma ContextFilesLine(persona: string, data: TaskData, body: string, history: seq<string>)
    requires !Truthy(data.validationCmd) && FilesTruthy(data.affectedFiles)
    ensures StartsWith(ContextContent(persona, data, body, history),
      Head(persona, body) + "\n" + FilesLineText(data.affectedFiles))
  {
    ContextLayout(persona, data, body, history);
    var h, l := Head(persona, body), FilesLineText(data.affectedFiles);
    var y := if |history| > 0 then "\n" + HISTORY_HEADER + "\n" + HISTORY_INTRO + "\n" + Join(history, "\n\n") else "";
    StartsWithLead(h, "\n" + l, "", y);
    assert h + "" == h;
    assert h + ("\n" + l) == h + "\n" + l;
  }

  /** A non-empty history closes the file, entries separated by a blank line. */
  lemma ContextHistory(persona: string, data: TaskData, body: string, history: seq<string>)
    requires |history| > 0
    ensures EndsWith(ContextContent(persona, data, body, history),
      "\n" + HISTORY_HEADER + "\n" + HISTORY_INTRO + "\n" + Join(history, "\n\n"))
  {
    ContextLayout(persona, data, body, history);
    var tail := "\n" + HISTORY_HEADER + "\n" + HISTORY_INTRO + "\n" + Join(history, "\n\n");
    var content := ContextContent(persona, data, body, history);
    assert content == content[..|content| - |tail|] + tail;
    EndsWithConcat(content[..|content| - |tail|], tail);
  }

  /** The service with its configuration (`defaultPersona`, `dirs.personas`),
      the working directory and the file system it reads and writes. */
  class ContextService {
    const defaultPersona: Option<string>
    const personasDir: Option<string>
    const cwd: string
    const disk: Disk

    constructor (defaultPersona: Option<string>, personasDir: Option<string>, cwd: string, disk: Disk)
      ensures this.defaultPersona == defaultPersona && this.personasDir == personasDir
      ensures this.cwd == cwd && this.disk == disk
    {
      this.defaultPersona := defaultPersona;
      this.personasDir := personasDir;
      this.cwd := cwd;
      this.disk := disk;
    }

    /** The persona name: the task's, else the configured default. */
    function PersonaName(data: TaskData): Option<string>
    {
      Or(data.persona, defaultPersona)
    }

    function PersonaPath(name: string): (p: string)
      ensures p == PersonasDir(personasDir, cwd) + "/" + name + ".md"
    {
      PathJoin(PersonasDir(personasDir, cwd), name + ".md")
    }

    /** `resolvePersona(taskData)`. A file that exists but cannot be read makes
        it throw. */
    function ResolvePersona(data: TaskData): (r: Result<string>)
      reads disk
      ensures !Truthy(PersonaName(data)) ==> r == Success(DEFAULT_PERSONA)
      ensures Truthy(PersonaName(data)) ==>
        var p := PersonaPath(PersonaName(data).value);
        (disk.state.Read(p).Some? ==> r == Success(disk.state.Read(p).value))
        && (!disk.state.Exists(p) ==> r == Success(DEFAULT_PERSONA))
        && (disk.state.Exists(p) && disk.state.Read(p).None? ==> r == Failure(ReadError(p)))
    {
      var name := PersonaName(data);
      if !Truthy(name) then Success(DEFAULT_PERSONA)
      else
        var p := PersonaPath(name.value);
        if disk.state.Exists(p) then
          match disk.state.Read(p)
          case Some(content) => Success(content)
          case None => Failure(ReadError(p))
        else Success(DEFAULT_PERSONA)
    }

    /** `buildContext({ data, content, history })`: writes the context file and
        returns its path; when the persona cannot be read nothing is written. */
    method BuildContext(data: TaskData, body: string, history: seq<string>) returns (r: Result<string>)
      modifies disk
      ensures old(ResolvePersona(data)).Failure? ==>
        r == Failure(old(ResolvePersona(data)).error) && disk.state == old(disk.state)
      ensures old(ResolvePersona(data)).Success? ==>
        r == Success(ContextFile(cwd))
        && disk.state == old(disk.state).EnsureDir(ContextDir(cwd))
             .Write(ContextFile(cwd), ContextContent(old(ResolvePersona(data)).value, data, body, history))
    {
      var persona := ResolvePersona(data);
      if persona.Failure? {
        return Failure(persona.error);
      }
      var sections := [persona.value, TASK_HEADER, body];
      if Truthy(data.validationCmd) {
        sections := sections + [CONSTRAINTS_HEADER];
        sections := sections + [ValidationLine(data.validationCmd.value)];
      }
      if FilesTruthy(data.affectedFiles) {
        sections := sections + [FilesLineText(data.affectedFiles)];
      }
      if |history| > 0 {
        sections := sections + [HISTORY_HEADER];
        sections := sections + [HISTORY_INTRO];
        sections := sections + [Join(history, "\n\n")];
      }
      assert sections == Sections(persona.value, data, body, history);
      var contextContent := Join(sections, "\n");
      disk.EnsureDir(ContextDir(cwd));
      disk.WriteFile(ContextFile(cwd), contextContent);
      r := Success(ContextFile(cwd));
    }
  }
}
