/** The path arithmetic of LinuxConnetionHelper: the dirname/basename splits of
    `downloadFile`, both `uploadFile` variants and `removeDir`, all written with
    `substring` and `lastIndexOf("/")`, and the at-most-two-levels directory
    creation that `uploadFile` falls back to when `cd` fails. The SFTP server
    is reduced to the set of directories it can `cd` into. */
module RemotePaths {
  import opened JavaLang

  /** `path.substring(path.lastIndexOf("/") + 1)`: what follows the last slash,
      or the whole path when it has none. Never throws. */
  function Basename(path: string): (name: string)
    ensures '/' !in name
    ensures EndsWith(path, name)
    ensures '/' !in path ==> name == path
    ensures '/' in path ==> |name| < |path| && path[|path| - |name| - 1] == '/'
  {
    path[LastIndexOf(path, '/') + 1..]
  }

  /** `path.substring(0, path.lastIndexOf("/"))`: what precedes the last slash;
      throws when there is no slash, since the end index is then -1. */
  function Dirname(path: string): (r: Result<string>)
    ensures r.Ok? <==> '/' in path
    ensures r.Fail? ==> r.error == StringIndexOutOfBounds(0, -1, |path|)
    ensures r.Ok? ==> r.value + "/" + Basename(path) == path
  {
    var i := LastIndexOf(path, '/');
    var r := Substring(path, 0, i);
    if r.Ok? then
      assert path == path[..i] + "/" + path[i + 1..];
      r
    else r
  }

  /** A name without slashes appended after `dir + "/"` is that path's
      basename, and `dir` its directory. */
  lemma LastSegment(dir: string, name: string)
    requires '/' !in name
    ensures Basename(dir + "/" + name) == name
    ensures Dirname(dir + "/" + name) == Ok(dir)
  {
    var p := dir + "/" + name;
    var i := LastIndexOf(p, '/');
    assert p[|dir|] == '/';
    assert i == |dir|;
    assert p[i + 1..] == name;
    assert p[..i] == dir;
  }

  /** Where `downloadFile` reads and writes. */
  datatype DownloadTarget = DownloadTarget(remoteDir: string, remoteName: string, localDir: string)

  /** `downloadFile` lines 204-208: split the remote file at its last slash and
      make sure the local directory ends with one. The directory part is taken
      first, so a remote file without a slash throws before the local path is
      looked at; an empty local path throws on `charAt(-1)`. */
  function DownloadSplit(remoteFile: string, localPath: string): (r: Result<DownloadTarget>)
    ensures r.Ok? <==> '/' in remoteFile && localPath != []
    ensures '/' !in remoteFile ==> r == Fail(StringIndexOutOfBounds(0, -1, |remoteFile|))
    ensures '/' in remoteFile && localPath == [] ==> r == Fail(CharIndexOutOfBounds(-1, 0))
    ensures r.Ok? ==> r.value.remoteDir + "/" + r.value.remoteName == remoteFile
    ensures r.Ok? ==> '/' !in r.value.remoteName
    ensures r.Ok? ==> EndsWith(r.value.localDir, "/") && StartsWith(r.value.localDir, localPath)
    ensures r.Ok? ==> |r.value.localDir| <= |localPath| + 1
    ensures r.Ok? && EndsWith(localPath, "/") ==> r.value.localDir == localPath
  {
    match Dirname(remoteFile)
    case Fail(e) => Fail(e)
    case Ok(dir) =>
      var name := Basename(remoteFile);
      if |localPath| == 0 then Fail(CharIndexOutOfBounds(-1, 0))
      else
        var local := if localPath[|localPath| - 1] != '/' then localPath + "/" else localPath;
        assert local[..|localPath|] == localPath;
        Ok(DownloadTarget(dir, name, local))
  }

  /** Whether `cd path` succeeds: `existing` lists the paths the server lets
      the client `cd` into, the empty path included when it does. Paths are
      taken as absolute, so a `cd` that succeeds changes no later answer. */
  predicate Reachable(path: string, existing: set<string>) {
    path in existing
  }

  /** Whether `mkdir path` finds the directory to create `path` in (SFTP's
      `mkdir` makes one level only): what precedes the last slash is the root
      (empty) or a directory the server has; a path without a slash is made
      in the current directory, except the empty path, which names nothing. */
  predicate CanMake(path: string, existing: set<string>) {
    if '/' in path then Dirname(path).value == "" || Dirname(path).value in existing
    else path != ""
  }

  /** What the server answers to a `mkdir` whose parent is missing
      (SSH_FX_NO_SUCH_FILE). */
  const NoSuchFile: string := "No such file"

  /** The directories `uploadFile` creates before the transfer (lines 247-259 and
      285-297), given the set of directories it can `cd` into. When `cd dir`
      fails it computes the parent with `substring(0, lastIndexOf("/"))`, which
      throws outside the inner `catch (SftpException)` when `dir` has no slash;
      otherwise it creates the parent when that is missing, then `dir` itself.
      Creating the parent throws when it cannot be made: the parent's own
      parent is missing, or the parent is the empty path left by a target
      directly under the root. */
  function EnsureRemoteDir(dir: string, existing: set<string>): (r: Result<seq<string>>)
    ensures Reachable(dir, existing) ==> r == Ok([])
    ensures !Reachable(dir, existing) && '/' in dir && Reachable(Dirname(dir).value, existing) ==> r == Ok([dir])
    ensures r.Ok? ==> |r.value| <= 2 && (r.value == [] <==> Reachable(dir, existing))
    ensures r.Ok? && r.value != [] ==> r.value[|r.value| - 1] == dir
    ensures r.Ok? && |r.value| == 2 ==> r.value[0] + "/" + Basename(dir) == dir
    ensures r.Ok? ==> forall i :: 0 <= i < |r.value| ==> !Reachable(r.value[i], existing)
    ensures !Reachable(dir, existing) && '/' !in dir ==> r == Fail(StringIndexOutOfBounds(0, -1, |dir|))
    ensures r.Fail? ==> r == Fail(StringIndexOutOfBounds(0, -1, |dir|)) || r == Fail(Remote(NoSuchFile))
  {
    if Reachable(dir, existing) then Ok([])
    else
      match Dirname(dir)
      case Fail(e) => Fail(e)
      case Ok(parent) =>
        if Reachable(parent, existing) then Ok([dir])
        else if CanMake(parent, existing) then Ok([parent, dir])
        else Fail(Remote(NoSuchFile))
  }

  /** After the creations `EnsureRemoteDir` asks for, `cd dir` succeeds. */
  lemma EnsureRemoteDirReaches(dir: string, existing: set<string>)
    requires EnsureRemoteDir(dir, existing).Ok?
    ensures var made := EnsureRemoteDir(dir, existing).value;
            Reachable(dir, existing + set i | 0 <= i < |made| :: made[i])
  {
    var made := EnsureRemoteDir(dir, existing).value;
    if made != [] {
      assert made[|made| - 1] in set i | 0 <= i < |made| :: made[i];
    }
  }

  /** Every `mkdir` the code issues finds its parent (the first one among the
      existing directories, the second one in the first), and below a
      missing parent the call fails exactly when that parent cannot be made. */
  lemma EnsureRemoteDirMkdirs(dir: string, existing: set<string>)
    ensures var r := EnsureRemoteDir(dir, existing);
            (r.Ok? && r.value != [] ==> CanMake(r.value[0], existing))
            && (r.Ok? && |r.value| == 2 ==> CanMake(r.value[1], existing + {r.value[0]}))
    ensures !Reachable(dir, existing) && '/' in dir && !Reachable(Dirname(dir).value, existing) ==>
              (EnsureRemoteDir(dir, existing).Fail? <==> !CanMake(Dirname(dir).value, existing))
  {
  }

  /** Two missing levels below the root or an existing directory `g` are
      made one after the other, the upper one first. */
  lemma EnsureRemoteDirTwoLevels(g: string, a: string, b: string, existing: set<string>)
    requires '/' !in a && '/' !in b && (g == "" || Reachable(g, existing))
    requires !Reachable(g + "/" + a, existing) && !Reachable(g + "/" + a + "/" + b, existing)
    ensures EnsureRemoteDir(g + "/" + a + "/" + b, existing) == Ok([g + "/" + a, g + "/" + a + "/" + b])
  {
    LastSegment(g + "/" + a, b);
    LastSegment(g, a);
  }

  /** A missing directory right under the root: `cd` into the empty path
      decides. When it succeeds the directory is made; otherwise the code
      tries `mkdir` on the empty path, which throws. */
  lemma EnsureRemoteDirUnderRoot(a: string, existing: set<string>)
    requires '/' !in a && !Reachable("/" + a, existing)
    ensures EnsureRemoteDir("/" + a, existing)
            == if Reachable("", existing) then Ok(["/" + a]) else Fail(Remote(NoSuchFile))
  {
    LastSegment("", a);
    assert "" + "/" + a == "/" + a;
  }

  /** Three missing levels make the first `mkdir` throw: SFTP creates one
      level at a time and the code tries only two. */
  lemma EnsureRemoteDirThreeLevels(g: string, a: string, b: string, existing: set<string>)
    requires '/' !in a && '/' !in b && g != "" && !Reachable(g, existing)
    requires !Reachable(g + "/" + a, existing) && !Reachable(g + "/" + a + "/" + b, existing)
    ensures EnsureRemoteDir(g + "/" + a + "/" + b, existing) == Fail(Remote(NoSuchFile))
  {
    LastSegment(g + "/" + a, b);
    LastSegment(g, a);
  }

  /** `removeDir` with one trailing slash removed (lines 388-390). On the empty
      path `lastIndexOf` gives -1, which equals `length() - 1`, so the code
      takes `substring(0, -1)` and throws. */
  function StripTrailingSlash(path: string): (r: Result<string>)
    ensures r.Ok? <==> path != []
    ensures path == [] ==> r == Fail(StringIndexOutOfBounds(0, -1, 0))
    ensures r.Ok? ==> r.value == path || r.value + "/" == path
    ensures r.Ok? && EndsWith(path, "/") ==> r.value + "/" == path
  {
    if LastIndexOf(path, '/') == |path| - 1 then
      if path == [] then Fail(StringIndexOutOfBounds(0, -1, 0))
      else
        assert path == path[..|path| - 1] + "/";
        Ok(path[..|path| - 1])
    else Ok(path)
  }

  /** `removeDir` lines 388-392: the directory to `cd` into (through the last
      slash) and the name to `rmdir` (after it). */
  function RemoveDirSplit(path: string): (r: Result<(string, string)>)
    ensures r.Ok? <==> path != []
    ensures r.Ok? ==> r.value.0 + r.value.1 == StripTrailingSlash(path).value
    ensures r.Ok? ==> '/' !in r.value.1
    ensures r.Ok? ==> r.value.0 == [] || EndsWith(r.value.0, "/")
  {
    match StripTrailingSlash(path)
    case Fail(e) => Fail(e)
    case Ok(p) =>
      var i := LastIndexOf(p, '/');
      assert p == p[..i + 1] + p[i + 1..];
      Ok((p[..i + 1], p[i + 1..]))
  }
}
