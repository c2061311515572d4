/** The log-file path from the environment: validation, canonical parent, per-thread cache, and the
    split that the writer makes of the result. */
module LogPath {
  import opened Types

  const PATH_MAX: nat := 4096

  /** Index of the last occurrence, or -1. */
  function LastIndexOf(s: string, c: char): (i: int)
    ensures -1 <= i < |s|
    ensures i >= 0 ==> s[i] == c
    ensures forall j :: i < j < |s| ==> s[j] != c
  {
    if s == "" then -1
    else if s[|s| - 1] == c then |s| - 1
    else LastIndexOf(s[..|s| - 1], c)
  }

  predicate TraversalAt(s: string, i: nat) { i + 3 <= |s| && s[i..i + 3] == "../" }

  predicate HasTraversal(s: string) { exists i :: 0 <= i < |s| && TraversalAt(s, i) }

  /** Parent directory and file name at the last slash. */
  function SplitAtLastSlash(path: string): (string, string)
    requires '/' in path
  {
    var i := LastIndexOf(path, '/');
    (if i == 0 then "/" else path[..i], path[i + 1..])
  }

  predicate GoodFilename(name: string) {
    name != "" && name != "." && name != ".." && '/' !in name
  }

  function Join(parent: string, name: string): string
    requires parent != ""
  {
    (if parent[|parent| - 1] != '/' then parent + "/" else parent) + name
  }

  /** realpath yields an absolute path with no slash at its end, except for the root. */
  predicate CanonicalDir(p: string) {
    p != "" && p[0] == '/' && (p == "/" || p[|p| - 1] != '/')
  }

  type RealPath = string -> Option<string>

  ghost predicate YieldsCanonical(realpath: RealPath) {
    forall p :: realpath(p).Some? ==> CanonicalDir(realpath(p).value)
  }

  /** The value accepted for a set, non-empty variable that fits the buffer. */
  function Validated(path: string, realpath: RealPath): string
    requires path != ""
  {
    if path[0] != '/' || HasTraversal(path) then ""
    else
      var (parentDir, filename) := SplitAtLastSlash(path);
      if !GoodFilename(filename) then ""
      else match realpath(parentDir)
        case None => ""
        case Some(parent) =>
          if parent == "" || |Join(parent, filename)| >= PATH_MAX then "" else Join(parent, filename)
  }

  /** What the resolver returns with no cache.  None: the variable is not set. */
  function Resolved(env: Option<string>, realpath: RealPath): string {
    if env.None? || env.value == "" || |env.value| >= PATH_MAX then ""
    else Validated(env.value, realpath)
  }

  datatype Cache = Cache(env: string, path: string)

  /** One call of the cached resolver. */
  function CachedResolve(c: Cache, env: Option<string>, realpath: RealPath): (Cache, string) {
    if env.None? || env.value == "" then (Cache("", ""), "")
    else if |env.value| >= PATH_MAX then (c, "")
    else if c.env == env.value then (c, c.path)
    else
      var path := Validated(env.value, realpath);
      if path == "" then (c, "") else (Cache(env.value, path), path)
  }

  class PathResolver {
    const realpath: RealPath
    var cachedEnvValue: string
    var cachedCanonicalPath: string

    constructor (realpath: RealPath)
      ensures this.realpath == realpath && cachedEnvValue == "" && cachedCanonicalPath == ""
    {
      this.realpath := realpath;
      cachedEnvValue, cachedCanonicalPath := "", "";
    }

    method Resolve(env: Option<string>) returns (result: string)
      modifies this
      ensures (Cache(cachedEnvValue, cachedCanonicalPath), result)
              == CachedResolve(Cache(old(cachedEnvValue), old(cachedCanonicalPath)), env, realpath)
    {
      if env.None? || env.value == "" {
        cachedEnvValue, cachedCanonicalPath := "", "";
        return "";
      }
      if |env.value| >= PATH_MAX {
        return "";
      }
      if cachedEnvValue == env.value {
        return cachedCanonicalPath;
      }
      var path := env.value;
      if path[0] != '/' || HasTraversal(path) {
        return "";
      }
      var (parentDir, filename) := SplitAtLastSlash(path);
      if !GoodFilename(filename) {
        return "";
      }
      var canonicalParent := realpath(parentDir);
      if canonicalParent.None? || canonicalParent.value == "" {
        return "";
      }
      var canonicalPath := canonicalParent.value;
      if canonicalPath[|canonicalPath| - 1] != '/' {
        canonicalPath := canonicalPath + "/";
      }
      canonicalPath := canonicalPath + filename;
      if |canonicalPath| >= PATH_MAX {
        return "";
      }
      cachedEnvValue := env.value;
      cachedCanonicalPath := canonicalPath;
      result := canonicalPath;
    }
  }

  /** The cache holds nothing, or an accepted value with its path. */
  predicate CacheInv(c: Cache, realpath: RealPath) {
    c.env == "" || (|c.env| < PATH_MAX && c.path == Validated(c.env, realpath))
  }

  function Results(c: Cache, envs: seq<Option<string>>, realpath: RealPath): seq<string>
    decreases |envs|
  {
    if envs == [] then []
    else [CachedResolve(c, envs[0], realpath).1] + Results(CachedResolve(c, envs[0], realpath).0, envs[1..], realpath)
  }

  /** On every sequence of values of the variable, set, cleared or rejected, the cached resolver
      returns what an uncached one would. */
  lemma {:induction false} CacheIsTransparent(c: Cache, envs: seq<Option<string>>, realpath: RealPath)
    requires CacheInv(c, realpath)
    ensures |Results(c, envs, realpath)| == |envs|
    ensures forall i :: 0 <= i < |envs| ==> Results(c, envs, realpath)[i] == Resolved(envs[i], realpath)
    decreases |envs|
  {
    if envs != [] {
      CacheIsTransparent(CachedResolve(c, envs[0], realpath).0, envs[1..], realpath);
    }
  }

  lemma LastIndexUnique(s: string, c: char, i: nat)
    requires i < |s| && s[i] == c && forall j :: i < j < |s| ==> s[j] != c
    ensures LastIndexOf(s, c) == i
  {
  }

  lemma JoinSplits(parent: string, name: string)
    requires CanonicalDir(parent) && GoodFilename(name)
    ensures '/' in Join(parent, name) && SplitAtLastSlash(Join(parent, name)) == (parent, name)
  {
    var p := Join(parent, name);
    var i := if parent == "/" then 0 else |parent|;
    assert p[i] == '/' && p[i + 1..] == name;
    assert forall j :: i < j < |p| ==> p[j] == name[j - i - 1];
    LastIndexUnique(p, '/', i);
    assert parent != "/" ==> p[..i] == parent;
  }

  /** The writer's split of an accepted path gives back the canonical parent and the file name it
      was joined from, and the file name is the variable's own. */
  lemma SplitRecoversParts(env: Option<string>, realpath: RealPath)
    requires YieldsCanonical(realpath) && Resolved(env, realpath) != ""
    ensures env.Some? && '/' in env.value && '/' in Resolved(env, realpath)
    ensures var (parentDir, filename) := SplitAtLastSlash(env.value);
            realpath(parentDir).Some? && GoodFilename(filename)
            && SplitAtLastSlash(Resolved(env, realpath)) == (realpath(parentDir).value, filename)
  {
    assert env.value[0] == '/';
    var (parentDir, filename) := SplitAtLastSlash(env.value);
    JoinSplits(realpath(parentDir).value, filename);
  }

  /** env is `dir`, a slash and the file name `name`. */
  ghost predicate Names(env: string, dir: string, name: string) {
    env == dir + "/" + name && '/' !in name && name !in {"", ".", ".."}
  }

  /** "../" occurs in s. */
  ghost predicate StepsUp(s: string) { exists a, b :: s == a + "../" + b }

  lemma TraversalMeaning(s: string)
    ensures HasTraversal(s) <==> StepsUp(s)
  {
    if HasTraversal(s) {
      var i :| 0 <= i < |s| && TraversalAt(s, i);
      CutAt(s, i, 3);
      assert s == s[..i] + "../" + s[i + 3..];
    }
    if a, b :| s == a + "../" + b {
      assert s[|a|..|a| + 3] == "../";
      assert TraversalAt(s, |a|);
    }
  }

  lemma CutAt(s: string, i: nat, k: nat)
    requires i + k <= |s|
    ensures s == s[..i] + s[i..i + k] + s[i + k..]
  {
  }

  function DirOrRoot(dir: string): string { if dir == "" then "/" else dir }

  lemma NamesIsSplit(env: string, dir: string, name: string)
    requires Names(env, dir, name)
    ensures '/' in env && SplitAtLastSlash(env) == (DirOrRoot(dir), name)
  {
    assert env[|dir|] == '/' && env[|dir| + 1..] == name && env[..|dir|] == dir;
    assert forall j :: |dir| < j < |env| ==> env[j] == name[j - |dir| - 1];
    LastIndexUnique(env, '/', |dir|);
  }

  lemma SplitNames(env: string)
    requires '/' in env && GoodFilename(SplitAtLastSlash(env).1)
    ensures var i := LastIndexOf(env, '/'); i < |env| && Names(env, env[..i], env[i + 1..])
    ensures SplitAtLastSlash(env).0 == DirOrRoot(env[..LastIndexOf(env, '/')])
  {
    CutAtSlash(env, LastIndexOf(env, '/'));
  }

  lemma CutAtSlash(s: string, i: nat)
    requires i < |s| && s[i] == '/'
    ensures s == s[..i] + "/" + s[i + 1..]
  {
  }

  /** Exactly which values give a log file: absolute, without "../", of bounded length before and
      after canonicalisation, naming a proper file in a directory that realpath can resolve. */
  lemma AcceptedExactlyWhen(env: string, realpath: RealPath)
    requires YieldsCanonical(realpath)
    ensures Resolved(Some(env), realpath) != "" <==>
              env != "" && |env| < PATH_MAX && env[0] == '/' && !StepsUp(env)
              && exists dir, name :: Names(env, dir, name)
                   && realpath(DirOrRoot(dir)).Some?
                   && |Join(realpath(DirOrRoot(dir)).value, name)| < PATH_MAX
  {
    TraversalMeaning(env);
    if Resolved(Some(env), realpath) != "" {
      assert env[0] == '/';
      SplitNames(env);
      var i := LastIndexOf(env, '/');
      assert Names(env, env[..i], env[i + 1..]);
    }
    if dir, name :| Names(env, dir, name) && realpath(DirOrRoot(dir)).Some?
                    && |Join(realpath(DirOrRoot(dir)).value, name)| < PATH_MAX {
      NamesIsSplit(env, dir, name);
    }
  }
}
