/** `loadConfig(cwd, fsImpl)`: the defaults, overridden key by key by the
    project's `ralph.config.js`, with the `dirs` object merged one level
    deeper so that a project naming only some directories keeps the default
    for the others. */
module Config {
  import opened Wrappers
  import opened FileSystem

  /** The values a configuration module can export. */
  datatype Value =
    | Str(s: string)
    | Num(n: int)
    | Bool(b: bool)
    | Null
    | Obj(fields: map<string, Value>)

  const DefaultDirs: map<string, Value> :=
    map["todo" := Str("./tasks/todo"), "done" := Str("./tasks/done"), "failed" := Str("./tasks/failed")]

  const Defaults: map<string, Value> :=
    map["dirs" := Obj(DefaultDirs), "retries" := Num(3), "model" := Str("gemini-1.5-flash")]

  /** `path.join(cwd, "ralph.config.js")`. */
  function ConfigPath(cwd: string): (p: string)
    ensures p == cwd + "/ralph.config.js"
  {
    PathJoin(cwd, "ralph.config.js")
  }

  /** `userConfig.dirs || {}` as spread into an object: the fields of an
      object, nothing for any other value. */
  function UserDirs(user: map<string, Value>): (d: map<string, Value>)
    ensures "dirs" in user && user["dirs"].Obj? ==> d == user["dirs"].fields
    ensures !("dirs" in user && user["dirs"].Obj?) ==> d == map[]
  {
    if "dirs" in user && user["dirs"].Obj? then user["dirs"].fields else map[]
  }

  /** `{ ...DEFAULTS, ...userConfig, dirs: { ...DEFAULTS.dirs, ...(userConfig.dirs || {}) } }`. */
  function Merge(user: map<string, Value>): map<string, Value>
  {
    (Defaults + user)["dirs" := Obj(DefaultDirs + UserDirs(user))]
  }

  /** The effective configuration and the warning printed when the file
      exists but loading it throws. `load` stands for `require(configPath)`. */
  datatype Loaded = Loaded(config: map<string, Value>, warning: Option<string>)

  function LoadConfig(cwd: string, fs: Fs, load: string -> Result<map<string, Value>>): (r: Loaded)
    ensures !fs.Exists(ConfigPath(cwd)) ==> r == Loaded(Merge(map[]), None)
    ensures fs.Exists(ConfigPath(cwd)) && load(ConfigPath(cwd)).Success? ==>
      r == Loaded(Merge(load(ConfigPath(cwd)).value), None)
    ensures fs.Exists(ConfigPath(cwd)) && load(ConfigPath(cwd)).Failure? ==>
      r.config == Merge(map[]) && r.warning.Some?
  {
    var configPath := ConfigPath(cwd);
    if !fs.Exists(configPath) then Loaded(Merge(map[]), None)
    else
      match load(configPath)
      case Success(userConfig) => Loaded(Merge(userConfig), None)
      case Failure(e) => Loaded(Merge(map[]), Some("Warning: Failed to load config from " + configPath + " " + e))
  }

  /** Without a (loadable) project file the configuration is the defaults. */
  lemma NoProjectFileGivesDefaults()
    ensures Merge(map[]) == Defaults
  {
    assert UserDirs(map[]) == map[];
    assert DefaultDirs + map[] == DefaultDirs;
    assert Defaults + map[] == Defaults;
  }

  /** Every key other than `dirs` comes from the project file when it sets it
      and from the defaults otherwise; no other key appears. */
  lemma TopLevelOverride(user: map<string, Value>)
    ensures Merge(user).Keys == Defaults.Keys + user.Keys
    ensures forall k :: k != "dirs" && k in user ==> Merge(user)[k] == user[k]
    ensures forall k :: k != "dirs" && k !in user && k in Defaults ==> Merge(user)[k] == Defaults[k]
  {
  }

  /** The merged `dirs` always names the three directories: the project's
      entry where it gives one, the default otherwise, and nothing is dropped. */
  lemma DirsMerged(user: map<string, Value>)
    ensures Merge(user)["dirs"].Obj?
    ensures var dirs := Merge(user)["dirs"].fields;
      dirs.Keys == DefaultDirs.Keys + UserDirs(user).Keys
      && (forall d :: d in UserDirs(user) ==> dirs[d] == UserDirs(user)[d])
      && (forall d :: d in DefaultDirs && d !in UserDirs(user) ==> dirs[d] == DefaultDirs[d])
      && "todo" in dirs && "done" in dirs && "failed" in dirs
  {
  }

  /** A project file naming only `todo` keeps the default done and failed directories. */
  lemma PartialDirs(todo: string)
    ensures Merge(map["dirs" := Obj(map["todo" := Str(todo)])])["dirs"]
      == Obj(map["todo" := Str(todo), "done" := Str("./tasks/done"), "failed" := Str("./tasks/failed")])
  {
    var user := map["dirs" := Obj(map["todo" := Str(todo)])];
    assert UserDirs(user) == map["todo" := Str(todo)];
    assert DefaultDirs + UserDirs(user)
      == map["todo" := Str(todo), "done" := Str("./tasks/done"), "failed" := Str("./tasks/failed")];
  }
}
