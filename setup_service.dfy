/** `SetupService`: `ralph init`. It creates the task and `.ralph`
    directories, seeds the two persona files, keeps the context directory out
    of version control and writes a starter `ralph.config.js`, never
    overwriting a file that is already there. */
module Setup {
  import opened Wrappers
  import opened Text
  import opened FileSystem

  const REQUIRED_DIRS: seq<string> := ["tasks/todo", "tasks/done", "tasks/failed", ".ralph/personas", ".ralph/context"]

  const RALPH_PERSONA: string :=
    "ROLE: Senior Software Engineer\n"
    + "You are Ralph, an autonomous coding agent.\n"
    + "- You focus on clean, working code.\n"
    + "- You strictly follow the Test-Driven Development (TDD) cycle.\n"
    + "- You do not ask clarifying questions; you use your best judgment."

  const ARCHITECT_PERSONA: string :=
    "ROLE: Software Architect\n"
    + "You are a Staff Engineer responsible for system design and code quality.\n"
    + "- Focus on patterns, scalability, and security.\n"
    + "- Critique implementations for \"separation of concerns\".\n"
    + "- Prefer interfaces and abstractions over direct coupling."

  /** The seeded personas, file name and text, in the order they are written. */
  const PERSONAS: seq<(string, string)> := [("ralph.md", RALPH_PERSONA), ("architect.md", ARCHITECT_PERSONA)]

  const DEFAULT_CONFIG: string :=
    "module.exports = {\n"
    + "    dirs: {\n"
    + "        todo: 'tasks/todo',\n"
    + "        done: 'tasks/done',\n"
    + "        failed: 'tasks/failed'\n"
    + "    }\n"
    + "};\n"
    + "\n"

  const IGNORE_PATTERN: string := ".ralph/context"

  /** The required directories resolved against the working directory. */
  function Required(cwd: string): (r: seq<string>)
    ensures |r| == |REQUIRED_DIRS|
    ensures forall k :: 0 <= k < |r| ==> r[k] == PathJoin(cwd, REQUIRED_DIRS[k])
  {
    seq(|REQUIRED_DIRS|, k requires 0 <= k < |REQUIRED_DIRS| => PathJoin(cwd, REQUIRED_DIRS[k]))
  }

  function PersonasDir(cwd: string): string
  {
    PathJoin(cwd, ".ralph/personas")
  }

  function GitignorePath(cwd: string): string
  {
    PathJoin(cwd, ".gitignore")
  }

  function ConfigFilePath(cwd: string): string
  {
    PathJoin(cwd, "ralph.config.js")
  }

  /** `ensureDir` of each path in turn: exactly those directories are added
      and no file changes. */
  function EnsureAll(fs: Fs, paths: seq<string>): (r: Fs)
    ensures r.files == fs.files && r.unreadable == fs.unreadable
    ensures r.dirs == fs.dirs + set p | p in paths
  {
    if |paths| == 0 then fs
    else
      var r := EnsureAll(fs, paths[..|paths| - 1]).EnsureDir(paths[|paths| - 1]);
      assert forall p :: p in paths <==> p in paths[..|paths| - 1] || p == paths[|paths| - 1] by {
        assert paths == paths[..|paths| - 1] + [paths[|paths| - 1]];
      }
      r
  }

  /** `fs.outputFile(path.join(dir, name), content)`: the parent directory is
      created, then the file written. */
  function OutputFile(fs: Fs, dir: string, name: string, content: string): Fs
  {
    fs.EnsureDir(dir).Write(PathJoin(dir, name), content)
  }

  /** One persona: written only where no path of that name exists. */
  function SeedOne(fs: Fs, dir: string, entry: (string, string)): Fs
  {
    if fs.Exists(PathJoin(dir, entry.0)) then fs else OutputFile(fs, dir, entry.0, entry.1)
  }

  /** The personas seeded in order, the last one applied last. */
  function Seeded(fs: Fs, dir: string, entries: seq<(string, string)>): Fs
  {
    if |entries| == 0 then fs else SeedOne(Seeded(fs, dir, entries[..|entries| - 1]), dir, entries[|entries| - 1])
  }

  /** `updateGitignore`: fails when the file exists but cannot be read; adds
      the pattern on a line of its own when it is not already in the text;
      creates the file when there is none. */
  function Gitignore(fs: Fs, cwd: string): Result<Fs>
  {
    var p := GitignorePath(cwd);
    if fs.Exists(p) then
      match fs.Read(p)
      case None => Failure(ReadError(p))
      case Some(content) =>
        if Contains(content, IGNORE_PATTERN) then Success(fs)
        else Success(fs.Write(p, content + "\n" + IGNORE_PATTERN + "\n"))
    else Success(fs.Write(p, IGNORE_PATTERN + "\n"))
  }

  /** `createConfigFile`: the starter configuration, only where none exists. */
  function CreateConfig(fs: Fs, cwd: string): Fs
  {
    if fs.Exists(ConfigFilePath(cwd)) then fs else OutputFile(fs, cwd, "ralph.config.js", DEFAULT_CONFIG)
  }

  /** `isInitialized`: the todo directory exists. */
  predicate Initialized(fs: Fs, cwd: string)
  {
    fs.Exists(PathJoin(cwd, "tasks/todo"))
  }

  /** The file system after directories and personas, before `.gitignore`. */
  function Prepared(fs: Fs, cwd: string): Fs
  {
    Seeded(EnsureAll(fs, Required(cwd)), PersonasDir(cwd), PERSONAS)
  }

  /** `runSetup`: the four steps in order; a failing step stops the rest. */
  function RunSetupResult(fs: Fs, cwd: string): Result<Fs>
  {
    match Gitignore(Prepared(fs, cwd), cwd)
    case Failure(e) => Failure(e)
    case Success(f) => Success(CreateConfig(f, cwd))
  }

  /** After the directories step every required directory exists, so the
      project counts as initialized, and no file changed. */
  lemma DirsCreated(fs: Fs, cwd: string)
    ensures forall k :: 0 <= k < |REQUIRED_DIRS| ==> PathJoin(cwd, REQUIRED_DIRS[k]) in EnsureAll(fs, Required(cwd)).dirs
    ensures Initialized(EnsureAll(fs, Required(cwd)), cwd)
    ensures EnsureAll(fs, Required(cwd)).files == fs.files
  {
    assert Required(cwd)[0] == PathJoin(cwd, "tasks/todo");
  }

  /** Seeding never changes what an existing path reads as (except the
      personas directory itself, which it creates). */
  lemma {:induction false} SeedKeepsExisting(fs: Fs, dir: string, entries: seq<(string, string)>, q: string)
    requires q != dir && fs.Exists(q)
    ensures Seeded(fs, dir, entries).Exists(q)
    ensures Seeded(fs, dir, entries).Read(q) == fs.Read(q)
  {
    if |entries| > 0 {
      SeedKeepsExisting(fs, dir, entries[..|entries| - 1], q);
    }
  }

  /** Seeding only ever adds paths: whatever existed still exists. */
  lemma {:induction false} SeedMonotone(fs: Fs, dir: string, entries: seq<(string, string)>, q: string)
    requires fs.Exists(q)
    ensures Seeded(fs, dir, entries).Exists(q)
  {
    if |entries| > 0 {
      SeedMonotone(fs, dir, entries[..|entries| - 1], q);
    }
  }

  /** After seeding, both persona files exist; one that was not there before
      holds its seed text. */
  lemma SeedWritesPersonas(fs: Fs, dir: string)
    requires PathJoin(dir, "ralph.md") !in fs.dirs + fs.unreadable
    requires PathJoin(dir, "architect.md") !in fs.dirs + fs.unreadable
    ensures var after := Seeded(fs, dir, PERSONAS);
      after.Exists(PathJoin(dir, "ralph.md")) && after.Exists(PathJoin(dir, "architect.md"))
      && (!fs.Exists(PathJoin(dir, "ralph.md")) ==> after.Read(PathJoin(dir, "ralph.md")) == Some(RALPH_PERSONA))
      && (!fs.Exists(PathJoin(dir, "architect.md")) ==> after.Read(PathJoin(dir, "architect.md")) == Some(ARCHITECT_PERSONA))
      && (fs.Exists(PathJoin(dir, "ralph.md")) ==> after.Read(PathJoin(dir, "ralph.md")) == fs.Read(PathJoin(dir, "ralph.md")))
      && (fs.Exists(PathJoin(dir, "architect.md")) ==> after.Read(PathJoin(dir, "architect.md")) == fs.Read(PathJoin(dir, "architect.md")))
  {
    var ralph := PathJoin(dir, "ralph.md");
    var architect := PathJoin(dir, "architect.md");
    assert ralph != architect by {
      assert ralph[|dir| + 1..] == "ralph.md" && architect[|dir| + 1..] == "architect.md";
    }
    assert ralph != dir && architect != dir;
    assert PERSONAS[..1] == [PERSONAS[0]] && PERSONAS[..1][..0] == [];
    var first := SeedOne(fs, dir, PERSONAS[0]);
    assert Seeded(fs, dir, PERSONAS[..1]) == first;
    assert Seeded(fs, dir, PERSONAS) == SeedOne(first, dir, PERSONAS[1]);
  }

  /** A successful `.gitignore` step leaves a readable file containing the
      pattern, and running the step again changes nothing. */
  lemma GitignoreEffect(fs: Fs, cwd: string)
    requires Gitignore(fs, cwd).Success?
    ensures var f := Gitignore(fs, cwd).value;
      f.Read(GitignorePath(cwd)).Some? && Contains(f.Read(GitignorePath(cwd)).value, IGNORE_PATTERN)
      && Gitignore(f, cwd) == Success(f)
  {
    var p := GitignorePath(cwd);
    var f := Gitignore(fs, cwd).value;
    if fs.Exists(p) {
      var content := fs.Read(p).value;
      if !Contains(content, IGNORE_PATTERN) {
        var added := content + "\n" + IGNORE_PATTERN + "\n";
        assert added == (content + "\n") + IGNORE_PATTERN + "\n";
        ContainsAt(added, IGNORE_PATTERN, |content| + 1);
      }
    } else {
      ContainsAt(IGNORE_PATTERN + "\n", IGNORE_PATTERN, 0);
    }
  }

  /** The starter configuration never replaces an existing one. */
  lemma ConfigKept(fs: Fs, cwd: string)
    ensures CreateConfig(fs, cwd).Exists(ConfigFilePath(cwd))
    ensures fs.Exists(ConfigFilePath(cwd)) ==> CreateConfig(fs, cwd) == fs
    ensures !fs.Exists(ConfigFilePath(cwd)) && cwd !in fs.files && cwd !in fs.unreadable ==>
      CreateConfig(fs, cwd).Read(ConfigFilePath(cwd)) == Some(DEFAULT_CONFIG)
  {
    assert ConfigFilePath(cwd) != cwd;
  }

  /** A successful setup leaves the project initialized, with the pattern in
      `.gitignore` and a configuration file. */
  lemma SetupCompletes(fs: Fs, cwd: string)
    requires RunSetupResult(fs, cwd).Success?
    ensures var f := RunSetupResult(fs, cwd).value;
      Initialized(f, cwd) && f.Exists(ConfigFilePath(cwd)) && f.Exists(GitignorePath(cwd))
  {
    var dirs := EnsureAll(fs, Required(cwd));
    DirsCreated(fs, cwd);
    SeedMonotone(dirs, PersonasDir(cwd), PERSONAS, PathJoin(cwd, "tasks/todo"));
    var g := Gitignore(Prepared(fs, cwd), cwd).value;
    GitignoreEffect(Prepared(fs, cwd), cwd);
    assert g.Exists(PathJoin(cwd, "tasks/todo"));
    ConfigKept(g, cwd);
    assert CreateConfig(g, cwd).Exists(PathJoin(cwd, "tasks/todo"));
  }

  /** The setup commands over the process's working directory and file system. */
  class SetupService {
    const cwd: string
    const disk: Disk

    constructor (cwd: string, disk: Disk)
      ensures this.cwd == cwd && this.disk == disk
    {
      this.cwd := cwd;
      this.disk := disk;
    }

    /** `initializeDirs()`. */
    method InitializeDirs()
      modifies disk
      ensures disk.state == EnsureAll(old(disk.state), Required(cwd))
    {
      var dirs := Required(cwd);
      var i := 0;
      while i < |REQUIRED_DIRS|
        invariant 0 <= i <= |REQUIRED_DIRS|
        invariant disk.state == EnsureAll(old(disk.state), dirs[..i])
      {
        assert dirs[..i + 1][..i] == dirs[..i];
        disk.EnsureDir(PathJoin(cwd, REQUIRED_DIRS[i]));
        i := i + 1;
      }
      assert dirs[..|REQUIRED_DIRS|] == dirs;
    }

    /** `seedPersonas()`. */
    method SeedPersonas()
      modifies disk
      ensures disk.state == Seeded(old(disk.state), PersonasDir(cwd), PERSONAS)
    {
      var personasDir := PersonasDir(cwd);
      var i := 0;
      while i < |PERSONAS|
        invariant 0 <= i <= |PERSONAS|
        invariant disk.state == Seeded(old(disk.state), personasDir, PERSONAS[..i])
      {
        assert PERSONAS[..i + 1][..i] == PERSONAS[..i];
        var (filename, content) := PERSONAS[i];
        var filePath := PathJoin(personasDir, filename);
        if !disk.state.Exists(filePath) {
          disk.EnsureDir(personasDir);
          disk.WriteFile(filePath, content);
        }
        i := i + 1;
      }
      assert PERSONAS[..|PERSONAS|] == PERSONAS;
    }

    /** `updateGitignore()`. */
    method UpdateGitignore() returns (r: Result<()>)
      modifies disk
      ensures Gitignore(old(disk.state), cwd).Failure? ==>
        r == Failure(Gitignore(old(disk.state), cwd).error) && disk.state == old(disk.state)
      ensures Gitignore(old(disk.state), cwd).Success? ==>
        r == Success(()) && disk.state == Gitignore(old(disk.state), cwd).value
    {
      var gitignorePath := GitignorePath(cwd);
      if disk.state.Exists(gitignorePath) {
        var content := disk.state.Read(gitignorePath);
        if content.None? {
          return Failure(ReadError(gitignorePath));
        }
        if !Contains(content.value, IGNORE_PATTERN) {
          disk.WriteFile(gitignorePath, content.value + "\n" + IGNORE_PATTERN + "\n");
        }
      } else {
        disk.WriteFile(gitignorePath, IGNORE_PATTERN + "\n");
      }
      r := Success(());
    }

    /** `createConfigFile()`. */
    method CreateConfigFile()
      modifies disk
      ensures disk.state == CreateConfig(old(disk.state), cwd)
    {
      var configPath := ConfigFilePath(cwd);
      if !disk.state.Exists(configPath) {
        disk.EnsureDir(cwd);
        disk.WriteFile(configPath, DEFAULT_CONFIG);
      }
    }

    /** `isInitialized()`. */
    function IsInitialized(): (b: bool)
      reads disk
      ensures b <==> disk.state.Exists(cwd + "/tasks/todo")
    {
      assert PathJoin(cwd, "tasks/todo") == cwd + "/tasks/todo";
      Initialized(disk.state, cwd)
    }

    /** `runSetup()`: on failure the state is whatever the earlier steps left. */
    method RunSetup() returns (r: Result<()>)
      modifies disk
      ensures RunSetupResult(old(disk.state), cwd).Failure? ==>
        r == Failure(RunSetupResult(old(disk.state), cwd).error) && disk.state == Prepared(old(disk.state), cwd)
      ensures RunSetupResult(old(disk.state), cwd).Success? ==>
        r == Success(()) && disk.state == RunSetupResult(old(disk.state), cwd).value
    {
      InitializeDirs();
      SeedPersonas();
      r := UpdateGitignore();
      if r.Failure? {
        return;
      }
      CreateConfigFile();
    }
  }
}
