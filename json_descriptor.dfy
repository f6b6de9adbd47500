/** The strings `deploymentByJSON` derives from one `Config` and the
    timestamp (lines 210-236): where the artifact is staged, the two backup
    moves and the start line. Each substring that can throw returns a
    `Result`. */
module JsonDescriptor {
  import opened JavaLang
  import opened RemotePaths

  const BackupPath: string := "/www/backup/AutoDeployment/"
  const TempPath: string := "/tmp/AutoDeployment/"

  /** The text between the start command and the log command (line 236). */
  const StartedEcho: string := " & echo 自动部署已完成，开始输出启动日志 && "

  /** `"mkdir -p " + backupPath` (line 224). */
  const MakeBackupDir: string := "mkdir -p /www/backup/AutoDeployment/"

  /** `tempPath + datetime + "." + localFilename` (lines 212, 216): the upload
      target of the artifact. */
  function StagingPath(datetime: string, localFile: string): string {
    TempPath + datetime + "." + Basename(localFile)
  }

  /** A timestamp without slashes puts the staged file directly in
      /tmp/AutoDeployment, under the timestamp, a dot and the local basename. */
  lemma StagingPathLocation(datetime: string, localFile: string)
    requires '/' !in datetime
    ensures Dirname(StagingPath(datetime, localFile)) == Ok("/tmp/AutoDeployment")
    ensures Basename(StagingPath(datetime, localFile)) == datetime + "." + Basename(localFile)
  {
    var name := datetime + "." + Basename(localFile);
    assert StagingPath(datetime, localFile) == "/tmp/AutoDeployment" + "/" + name;
    LastSegment("/tmp/AutoDeployment", name);
  }

  /** `remoteFile.substring(remoteFile.lastIndexOf("."))` (line 225): the remote
      file from its last dot on; without a dot the begin index is -1 and
      `substring` throws. */
  function Suffix(remoteFile: string): (r: Result<string>)
    ensures r.Ok? <==> '.' in remoteFile
    ensures r.Fail? ==> r.error == StringIndexOutOfBounds(-1, |remoteFile|, |remoteFile|)
    ensures r.Ok? ==> EndsWith(remoteFile, r.value) && |r.value| >= 1
                      && r.value[0] == '.' && '.' !in r.value[1..]
  {
    var i := LastIndexOf(remoteFile, '.');
    var r := SubstringFrom(remoteFile, i);
    if r.Ok? then
      assert forall k :: 1 <= k < |r.value| ==> r.value[k] == remoteFile[i + k];
      r
    else r
  }

  /** The target of the first backup move (line 226): no dot between the
      timestamp and the remote basename. */
  function FirstBackupTarget(datetime: string, remoteFile: string): string {
    BackupPath + datetime + Basename(remoteFile)
  }

  /** The first backup lands in /www/backup/AutoDeployment under the
      timestamp glued to the remote basename. */
  lemma FirstBackupLocation(datetime: string, remoteFile: string)
    requires '/' !in datetime
    ensures Dirname(FirstBackupTarget(datetime, remoteFile)) == Ok("/www/backup/AutoDeployment")
    ensures Basename(FirstBackupTarget(datetime, remoteFile)) == datetime + Basename(remoteFile)
  {
    var name := datetime + Basename(remoteFile);
    assert FirstBackupTarget(datetime, remoteFile) == "/www/backup/AutoDeployment" + "/" + name;
    LastSegment("/www/backup/AutoDeployment", name);
  }

  /** The two operands of one `mv -f` command. */
  datatype Move = Move(from: string, to: string)

  /** `String.format("mv -f %s %s", from, to)`. */
  function MoveCommand(m: Move): string {
    "mv -f " + m.from + " " + m.to
  }

  /** The second backup move (lines 227-229): the remote file without its
      suffix goes to `backupPath + datetime + "." + remoteFilename` without as
      many characters as the suffix has. Cutting the remote file cannot throw,
      since the suffix ends it; cutting the target throws when the suffix is
      longer than the target. */
  function SecondBackup(datetime: string, remoteFile: string, suffix: string): (r: Result<Move>)
    requires EndsWith(remoteFile, suffix)
    ensures var full := BackupPath + datetime + "." + Basename(remoteFile);
            (r.Ok? <==> |suffix| <= |full|)
            && (r.Fail? ==> r.error == StringIndexOutOfBounds(0, |full| - |suffix|, |full|))
            && (r.Ok? ==> r.value.from + suffix == remoteFile
                          && |r.value.to| + |suffix| == |full| && StartsWith(full, r.value.to))
  {
    var full := BackupPath + datetime + "." + Basename(remoteFile);
    var from := remoteFile[..|remoteFile| - |suffix|];
    assert from + suffix == remoteFile;
    match Substring(full, 0, |full| - |suffix|)
    case Fail(e) => Fail(e)
    case Ok(to) => Ok(Move(from, to))
  }

  /** When the last dot of the remote file lies in its basename, the second
      move takes the remote file without its extension to the dotted backup
      name without the same extension: its source and target are the remote
      file and `backupPath + datetime + "." + remoteFilename` with that one
      suffix removed. */
  lemma SecondBackupStripsExtension(datetime: string, remoteFile: string)
    requires Suffix(remoteFile).Ok? && '/' !in Suffix(remoteFile).value
    ensures var suffix := Suffix(remoteFile).value;
            var full := BackupPath + datetime + "." + Basename(remoteFile);
            var r := SecondBackup(datetime, remoteFile, suffix);
            r.Ok? && r.value.from + suffix == remoteFile && r.value.to + suffix == full
  {
    var suffix := Suffix(remoteFile).value;
    SlashFreeSuffixOfBasename(remoteFile, suffix);
    EndsWithAppend(BackupPath + datetime + ".", Basename(remoteFile), suffix);
  }

  lemma EndsWithAppend(a: string, b: string, suffix: string)
    requires EndsWith(b, suffix)
    ensures var ab := a + b; |suffix| <= |ab| && ab[..|ab| - |suffix|] + suffix == ab
  {
    var ab := a + b;
    assert ab[|ab| - |suffix|..] == b[|b| - |suffix|..];
    assert ab == ab[..|ab| - |suffix|] + ab[|ab| - |suffix|..];
  }

  /** A suffix without slashes ends the basename too. */
  lemma SlashFreeSuffixOfBasename(path: string, suffix: string)
    requires EndsWith(path, suffix) && '/' !in suffix
    ensures EndsWith(Basename(path), suffix)
  {
    var k := |path| - |suffix|;
    assert path[k..] == suffix;
    if '/' in path {
      var i := LastIndexOf(path, '/');
      assert Basename(path)[|Basename(path)| - |suffix|..] == path[k..];
    }
  }

  /** The start line (line 236); a null command prints as "null". */
  function StartLine(startCMD: Option<string>, logCMD: Option<string>): string {
    JavaStr(startCMD) + StartedEcho + JavaStr(logCMD)
  }
}
