/** The file system the services see through `fs`/`fs-extra` and `path`: a
    snapshot value `Fs` for reads, and a `Disk` object holding the current
    snapshot for the services that change it. */
module FileSystem {
  import opened Wrappers
  import opened Text

  /** `path.join(dir, name)` for a directory given without a trailing slash. */
  function PathJoin(dir: string, name: string): (p: string)
    ensures |p| == |dir| + 1 + |name| && p[..|dir| + 1] == dir + "/" && p[|dir| + 1..] == name
  {
    dir + "/" + name
  }

  /** `p` without its trailing `/` characters. */
  function Unslashed(p: string): (q: string)
    ensures |q| <= |p|
    ensures q == [] || q[|q| - 1] != '/'
  {
    if p != [] && p[|p| - 1] == '/' then Unslashed(p[..|p| - 1]) else p
  }

  /** `Unslashed` keeps a prefix and drops separators only. */
  lemma {:induction false} UnslashedDropsSeparators(p: string)
    ensures Unslashed(p) == p[..|Unslashed(p)|]
    ensures forall k :: |Unslashed(p)| <= k < |p| ==> p[k] == '/'
    decreases |p|
  {
    if p != [] && p[|p| - 1] == '/' {
      UnslashedDropsSeparators(p[..|p| - 1]);
    }
  }

  /** What follows the last `/` of `p`. */
  function LastSegment(p: string): (r: string)
    ensures '/' !in r
    ensures EndsWith(p, r)
    ensures |r| < |p| ==> p[|p| - |r| - 1] == '/'
  {
    if p == [] || p[|p| - 1] == '/' then []
    else
      var q := p[..|p| - 1];
      var r := LastSegment(q);
      assert p == q + [p[|p| - 1]];
      assert p[|p| - |r| - 1..] == q[|q| - |r|..] + [p[|p| - 1]];
      assert |r| < |q| ==> p[|p| - |r| - 2] == q[|q| - |r| - 1];
      r + [p[|p| - 1]]
  }

  /** `path.basename(p)`: trailing separators are ignored, then what follows
      the last `/`. */
  function Basename(p: string): (r: string)
    ensures '/' !in r
  {
    LastSegment(Unslashed(p))
  }

  /** The base name is the last segment of the path without its trailing
      separators: a suffix of it, preceded by a `/` when shorter. */
  lemma BasenameSegment(p: string)
    ensures EndsWith(Unslashed(p), Basename(p))
    ensures var q, r := Unslashed(p), Basename(p);
      |r| < |q| ==> q[|q| - |r| - 1] == '/'
  {
  }

  /** The base name is empty exactly for a path of separators only. */
  lemma BasenameEmpty(p: string)
    ensures Basename(p) == [] <==> forall k :: 0 <= k < |p| ==> p[k] == '/'
  {
    var q := Unslashed(p);
    UnslashedDropsSeparators(p);
    assert q != [] ==> p[|q| - 1] == q[|q| - 1] && q[|q| - 1] != '/';
  }

  /** A trailing separator does not change the base name. */
  lemma BasenameTrailingSlash(p: string)
    ensures Basename(p + "/") == Basename(p)
  {
    UnslashedSlash(p);
  }

  lemma UnslashedSlash(p: string)
    ensures Unslashed(p + "/") == Unslashed(p)
  {
    var q := p + "/";
    assert q[|q| - 1] == '/';
    assert q[..|q| - 1] == p;
  }

  /** A separator-free name after a directory is the last segment. */
  lemma {:induction false} LastSegmentOf(d: string, n: string)
    requires '/' !in n
    ensures LastSegment(d + "/" + n) == n
    decreases |n|
  {
    var p := d + "/" + n;
    if n != [] {
      var m := n[..|n| - 1];
      assert p[..|p| - 1] == d + "/" + m;
      assert p[|p| - 1] == n[|n| - 1];
      LastSegmentOf(d, m);
      assert m + [n[|n| - 1]] == n;
    }
  }

  /** The base name that names a task's status: `done` for a directory
      given with or without a trailing `/`. */
  lemma DoneBasenameExample()
    ensures Basename("tasks/done/") == "done"
    ensures Basename("tasks/done") == "done"
  {
    var p := "tasks/done";
    assert p == "tasks" + "/" + "done";
    LastSegmentOf("tasks", "done");
    assert Unslashed(p) == p;
    BasenameTrailingSlash(p);
    assert p + "/" == "tasks/done/";
  }

  /** The error a read of `p` throws; Node's own error texts are not modelled. */
  function ReadError(p: string): string
  {
    "cannot read " + p
  }

  /** The path `p` is a direct entry of directory `d`. */
  predicate ChildOf(d: string, p: string)
  {
    |p| > |d| + 1 && p[..|d| + 1] == d + "/" && '/' !in p[|d| + 1..]
  }

  /** A snapshot: the contents of the regular files, the directories, and the
      paths that exist but whose reading throws (permission denied). */
  datatype Fs = Fs(files: map<string, string>, dirs: set<string>, unreadable: set<string>) {

    function Paths(): set<string>
    {
      files.Keys + dirs + unreadable
    }

    /** `fs.existsSync(p)` / `fs.pathExists(p)`. */
    predicate Exists(p: string)
    {
      p in Paths()
    }

    /** `fs.readFileSync(p, "utf8")`, `None` where it throws: a missing path,
        a directory, or an unreadable file. */
    function Read(p: string): (r: Option<string>)
      ensures r.Some? <==> p in files && p !in dirs && p !in unreadable
      ensures r.Some? ==> r.value == files[p] && Exists(p)
    {
      if p in files && p !in dirs && p !in unreadable then Some(files[p]) else None
    }

    /** The names `fs.readdirSync(d)` returns, `None` where it throws. */
    function List(d: string): (r: Option<set<string>>)
      ensures r.Some? <==> d in dirs && d !in unreadable
      ensures r.Some? ==> forall n :: n in r.value <==> PathJoin(d, n) in Paths() && n != "" && '/' !in n
    {
      if d in dirs && d !in unreadable then
        var names := set p | p in Paths() && ChildOf(d, p) :: p[|d| + 1..];
        assert forall n :: n in names <==> PathJoin(d, n) in Paths() && n != "" && '/' !in n by {
          forall n
            ensures n in names <==> PathJoin(d, n) in Paths() && n != "" && '/' !in n
          {
            if PathJoin(d, n) in Paths() && n != "" && '/' !in n {
              assert ChildOf(d, PathJoin(d, n));
            }
            if n in names {
              var p :| p in Paths() && ChildOf(d, p) && n == p[|d| + 1..];
              assert p == p[..|d| + 1] + p[|d| + 1..];
            }
          }
        }
        Some(names)
      else None
    }

    /** `fs.writeFileSync(p, content)`: only `p` changes. */
    function Write(p: string, content: string): (r: Fs)
      ensures r.Exists(p)
      ensures r.Read(p) == if p in dirs || p in unreadable then None else Some(content)
      ensures forall q :: q != p ==> (r.Exists(q) <==> Exists(q)) && r.Read(q) == Read(q)
    {
      this.(files := files[p := content])
    }

    /** `fs.removeSync(p)` of a path without descendants. */
    function Remove(p: string): (r: Fs)
      ensures !r.Exists(p)
      ensures forall q :: q != p ==> (r.Exists(q) <==> Exists(q)) && r.Read(q) == Read(q)
    {
      Fs(files - {p}, dirs - {p}, unreadable - {p})
    }

    /** `fs.ensureDirSync(d)`. */
    function EnsureDir(d: string): (r: Fs)
      ensures r.Exists(d) && d in r.dirs
      ensures r.files == files && r.unreadable == unreadable && r.dirs == dirs + {d}
    {
      this.(dirs := dirs + {d})
    }
  }

  /** The process's file system; its snapshot changes as services write. */
  class Disk {
    var state: Fs

    constructor (initial: Fs)
      ensures state == initial
    {
      state := initial;
    }

    method WriteFile(p: string, content: string)
      modifies this
      ensures state == old(state).Write(p, content)
    {
      state := state.Write(p, content);
    }

    method RemovePath(p: string)
      modifies this
      ensures state == old(state).Remove(p)
    {
      state := state.Remove(p);
    }

    method EnsureDir(d: string)
      modifies this
      ensures state == old(state).EnsureDir(d)
    {
      state := state.EnsureDir(d);
    }
  }
}
