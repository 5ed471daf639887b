/** `TaskRepository`: the task files on disk. Pending tasks are the `.md`
    files of the todo directory; finishing a task writes it, with an audit
    log appended, into the done or failed directory and removes the pending
    file. */
module TaskStore {
  import opened Wrappers
  import opened Text
  import opened Ordering
  import opened FileSystem
  import opened TaskModel

  /** The log appended to a finished task file. */
  function AuditLog(targetDir: string, history: seq<string>, error: Option<string>): string
  {
    StatusHeader(targetDir) + Join(history, "\n") + ErrorLine(error)
  }

  /** `\n\n## Results\n- Status: <TARGET>\n`, the target directory's name upper-cased. */
  function StatusHeader(targetDir: string): string
  {
    "\n\n## Results\n- Status: " + ToUpper(Basename(targetDir)) + "\n"
  }

  /** `\n- Error: <error>` for a truthy error, else nothing. */
  function ErrorLine(error: Option<string>): (r: string)
    ensures Truthy(error) ==> r == "\n- Error: " + error.value
    ensures !Truthy(error) ==> r == ""
  {
    if Truthy(error) then "\n- Error: " + error.value else ""
  }

  /** The log opens with the status taken from the target directory, lists the
      history, and closes with the error line exactly when the error is truthy. */
  lemma AuditLogShape(targetDir: string, history: seq<string>, error: Option<string>)
    ensures StartsWith(AuditLog(targetDir, history, error), StatusHeader(targetDir) + Join(history, "\n"))
    ensures Truthy(error) ==> EndsWith(AuditLog(targetDir, history, error), "\n- Error: " + error.value)
    ensures !Truthy(error) ==> AuditLog(targetDir, history, error) == StatusHeader(targetDir) + Join(history, "\n")
  {
    StartsWithConcat(StatusHeader(targetDir) + Join(history, "\n"), ErrorLine(error));
    EndsWithConcat(StatusHeader(targetDir) + Join(history, "\n"), ErrorLine(error));
  }

  /** The file system after `_finalize`: the target directory exists, the
      target holds the raw content and the log, and the pending file is gone. */
  function Finalized(fs: Fs, task: Task, targetDir: string, history: seq<string>, error: Option<string>): Fs
  {
    var written := fs.EnsureDir(targetDir).Write(PathJoin(targetDir, task.fileName), task.rawContent + AuditLog(targetDir, history, error));
    if written.Exists(task.filePath) then written.Remove(task.filePath) else written
  }

  /** `_finalize` removes the source and leaves the target directory in place. */
  lemma FinalizeRemovesSource(fs: Fs, task: Task, targetDir: string, history: seq<string>, error: Option<string>)
    ensures !Finalized(fs, task, targetDir, history, error).Exists(task.filePath)
    ensures targetDir != task.filePath ==> targetDir in Finalized(fs, task, targetDir, history, error).dirs
  {
  }

  /** `_finalize` overwrites the target whatever it held: it reads back as the
      raw task text followed by the log, so the original text is a prefix. */
  lemma FinalizeWritesTarget(fs: Fs, task: Task, targetDir: string, history: seq<string>, error: Option<string>)
    requires PathJoin(targetDir, task.fileName) != task.filePath
    requires PathJoin(targetDir, task.fileName) != targetDir
    requires PathJoin(targetDir, task.fileName) !in fs.dirs && PathJoin(targetDir, task.fileName) !in fs.unreadable
    ensures var content := Finalized(fs, task, targetDir, history, error).Read(PathJoin(targetDir, task.fileName));
      content == Some(task.rawContent + AuditLog(targetDir, history, error))
      && StartsWith(content.value, task.rawContent)
  {
    var target := PathJoin(targetDir, task.fileName);
    var written := fs.EnsureDir(targetDir).Write(target, task.rawContent + AuditLog(targetDir, history, error));
    assert written.Read(target) == Some(task.rawContent + AuditLog(targetDir, history, error));
    StartsWithConcat(task.rawContent, AuditLog(targetDir, history, error));
  }

  /** No path other than the target, the source and the target directory changes. */
  lemma FinalizeFrame(fs: Fs, task: Task, targetDir: string, history: seq<string>, error: Option<string>, q: string)
    requires q != PathJoin(targetDir, task.fileName) && q != task.filePath && q != targetDir
    ensures var after := Finalized(fs, task, targetDir, history, error);
      (after.Exists(q) <==> fs.Exists(q)) && after.Read(q) == fs.Read(q)
  {
    var target := PathJoin(targetDir, task.fileName);
    var made := fs.EnsureDir(targetDir);
    assert (made.Exists(q) <==> fs.Exists(q)) && made.Read(q) == fs.Read(q);
  }

  /** A task whose target path is its own path is deleted rather than moved. */
  lemma FinalizeInPlaceLosesTask(fs: Fs, task: Task, targetDir: string, history: seq<string>, error: Option<string>)
    requires task.filePath == PathJoin(targetDir, task.fileName)
    ensures !Finalized(fs, task, targetDir, history, error).Exists(PathJoin(targetDir, task.fileName))
  {
    FinalizeRemovesSource(fs, task, targetDir, history, error);
  }

  /** The pending task names in `todo`: the `.md` entries, sorted; `[]`
      when the directory does not exist, and a failure when it cannot be listed. */
  function Listing(fs: Fs, todo: string): (r: Result<seq<string>>)
    ensures !fs.Exists(todo) ==> r == Success([])
    ensures fs.Exists(todo) && fs.List(todo).None? ==> r.Failure?
    ensures r.Success? ==> StrictlySorted(r.value)
    ensures fs.List(todo).Some? ==>
      r.Success? && forall n :: n in r.value <==>
           PathJoin(todo, n) in fs.Paths() && n != "" && '/' !in n && EndsWith(n, ".md")
  {
    if !fs.Exists(todo) then Success([])
    else
      match fs.List(todo)
      case None => Failure(ReadError(todo))
      case Some(names) => Success(SortedElements(set n | n in names && EndsWith(n, ".md")))
  }

  /** A pending task read from `todo` and split by the frontmatter parser. */
  function Load(fs: Fs, todo: string, matter: string -> Result<Parsed>, fileName: string): (r: Result<Task>)
    ensures fs.Read(PathJoin(todo, fileName)).None? ==> r == Failure(ReadError(PathJoin(todo, fileName)))
    ensures fs.Read(PathJoin(todo, fileName)).Some? ==>
      var raw := fs.Read(PathJoin(todo, fileName)).value;
      (matter(raw).Failure? ==> r == Failure(matter(raw).error))
      && (matter(raw).Success? ==>
            r == Success(Task(matter(raw).value.data, matter(raw).value.content, PathJoin(todo, fileName), fileName, raw)))
  {
    var filePath := PathJoin(todo, fileName);
    match fs.Read(filePath)
    case None => Failure(ReadError(filePath))
    case Some(rawContent) =>
      match matter(rawContent)
      case Failure(e) => Failure(e)
      case Success(parsed) => Success(Task(parsed.data, parsed.content, filePath, fileName, rawContent))
  }

  /** The repository over its configured directories. `matter` is the
      frontmatter parser: it splits a file's text into data and body, or fails. */
  class TaskRepository {
    const todo: string
    const done: string
    const failed: string
    const disk: Disk
    const matter: string -> Result<Parsed>

    constructor (todo: string, done: string, failed: string, disk: Disk, matter: string -> Result<Parsed>)
      ensures this.todo == todo && this.done == done && this.failed == failed
      ensures this.disk == disk && this.matter == matter
    {
      this.todo := todo;
      this.done := done;
      this.failed := failed;
      this.disk := disk;
      this.matter := matter;
    }

    /** `listTodo()`. */
    function ListTodo(): (r: Result<seq<string>>)
      reads disk
      ensures r == Listing(disk.state, todo)
    {
      Listing(disk.state, todo)
    }

    /** `loadTask(fileName)`. */
    function LoadTask(fileName: string): (r: Result<Task>)
      reads disk
      ensures r == Load(disk.state, todo, matter, fileName)
    {
      Load(disk.state, todo, matter, fileName)
    }

    /** `markDone(task, history)`. */
    method MarkDone(task: Task, history: seq<string>)
      modifies disk
      ensures disk.state == Finalized(old(disk.state), task, done, history, None)
    {
      Finalize(task, done, history, None);
    }

    /** `markFailed(task, history, error)`. */
    method MarkFailed(task: Task, history: seq<string>, error: Option<string>)
      modifies disk
      ensures disk.state == Finalized(old(disk.state), task, failed, history, error)
    {
      Finalize(task, failed, history, error);
    }

    /** `_finalize(task, targetDir, history, error)`. */
    method Finalize(task: Task, targetDir: string, history: seq<string>, error: Option<string>)
      modifies disk
      ensures disk.state == Finalized(old(disk.state), task, targetDir, history, error)
    {
      var log := "\n\n## Results\n- Status: " + ToUpper(Basename(targetDir)) + "\n" + Join(history, "\n");
      if Truthy(error) {
        log := log + "\n- Error: " + error.value;
      }
      assert log == AuditLog(targetDir, history, error);
      var newContent := task.rawContent + log;
      var targetPath := PathJoin(targetDir, task.fileName);
      disk.EnsureDir(targetDir);
      disk.WriteFile(targetPath, newContent);
      if disk.state.Exists(task.filePath) {
        disk.RemovePath(task.filePath);
      }
    }
  }
}
