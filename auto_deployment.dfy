/** The class `AutoDeployment`: its fields `session`, `channel`,
    `inputStream`, `outputStream` and `isClose`, and its methods, which
    perform the steps of a deployment one by one. The events a method sends
    to the log and over the network are appended to `trace`; each method is
    proved to append exactly what the matching function of `Deployment`
    says and to leave the fields as that function says. */
module Orchestrator {
  import opened JavaLang
  import opened RemotePaths
  import opened Trace
  import opened ScriptDescriptor
  import opened JsonDescriptor
  import opened ConfigBean
  import opened Deployment

  class AutoDeployment {
    /** `project.getBasePath()`, fixed at construction. */
    const basePath: string
    /** The descriptor file, `None` when it is null, missing or not a regular
        file. */
    const file: Option<Descriptor>
    var session: bool
    var channel: bool
    var inputStream: bool
    var outputStream: bool
    var isClose: bool
    /** Everything sent to the log and to the remote side so far. */
    var trace: seq<Event>

    function State(): Handles
      reads this
    {
      Handles(session, channel, inputStream, outputStream, isClose)
    }

    /** Lines 31-35: no session, no channel, no streams, not closed. */
    constructor (basePath: string, file: Option<Descriptor>)
      ensures this.basePath == basePath && this.file == file && State() == Fresh && trace == []
    {
      this.basePath := basePath;
      this.file := file;
      session, channel, inputStream, outputStream, isClose := false, false, false, false, false;
      trace := [];
    }

    /** `deployment()` (lines 37-59), with the body of its thread run at once:
        report a missing descriptor, or announce the run and take the path the
        extension names; an exception from that path is reported and followed
        by `close()`, and none escapes. */
    method Deployment(parsed: JsonList, datetime: string, net: Net)
      modifies this
      ensures var r := DeploymentRun(file, parsed, old(State()), datetime, basePath, net);
              trace == old(trace) + r.out.events && State() == r.handles
    {
      if file.None? {
        trace := trace + [Println(NoDescriptor)];
        return;
      }
      ghost var h, t0 := State(), trace;
      ghost var inner := Dispatch(file.value, parsed, h, datetime, basePath, net);
      trace := trace + [Println(Starting)];
      var thrown := RunDescriptor(file.value, parsed, datetime, net);
      Assoc(t0, [Println(Starting)], inner.out.events);
      ghost var events := [Println(Starting)] + inner.out.events;
      assert DeploymentRun(file, parsed, h, datetime, basePath, net) == Caught(inner);
      if thrown.Some? {
        ghost var t1 := trace;
        var report := Println(DeploymentFailed + Message(thrown.value));
        trace := trace + [report];
        Close();
        Assoc(t1, [report], CloseEvents(inner.handles));
        Assoc(t0, events, [report] + CloseEvents(inner.handles));
        Assoc(events, [report], CloseEvents(inner.handles));
        assert Caught(inner) == Run(Done(events + [report] + CloseEvents(inner.handles)), AfterClose);
      }
    }

    /** The `try` block of lines 45-52: the path the descriptor's extension
        names. */
    method RunDescriptor(d: Descriptor, parsed: JsonList, datetime: string, net: Net)
      returns (thrown: Option<JavaException>)
      modifies this
      ensures var r := Dispatch(d, parsed, old(State()), datetime, basePath, net);
              trace == old(trace) + r.out.events && State() == r.handles && thrown == r.out.failure
    {
      if d.ext == "json" {
        thrown := DeploymentByJSON(parsed, datetime, net);
      } else if d.ext == "sh" {
        thrown := DeploymentBySH(d.name, d.text, net);
      } else {
        trace := trace + [Println(Unsupported(d.ext))];
        thrown := None;
      }
    }

    /** `writeln` (lines 239-244). */
    method Writeln(cmd: Option<string>) returns (thrown: Option<JavaException>)
      modifies this
      ensures var o := WritelnStep(old(State()), cmd);
              trace == old(trace) + o.events && thrown == o.failure && State() == old(State())
    {
      thrown := None;
      if outputStream && !isClose {
        match cmd
        case None =>
          thrown := Some(NullPointer);
        case Some(c) =>
          trace := trace + [Write(c + "\n")];
      }
    }

    /** `close` (lines 249-259): each resource is released when present, then
        cleared. */
    method Close()
      modifies this
      ensures trace == old(trace) + CloseEvents(old(State())) && State() == AfterClose
    {
      ghost var h := State();
      var released: seq<Event> := [];
      isClose := true;
      if inputStream {
        released := released + [Release(InputStream)];
      }
      inputStream := false;
      assert released == ReleaseIfPresent(h, InputStream);
      if outputStream {
        released := released + [Release(OutputStream)];
      }
      outputStream := false;
      assert released == ReleaseIfPresent(h, InputStream) + ReleaseIfPresent(h, OutputStream);
      if channel {
        released := released + [Release(ShellChannel)];
      }
      channel := false;
      assert released == ReleaseIfPresent(h, InputStream) + ReleaseIfPresent(h, OutputStream)
                         + ReleaseIfPresent(h, ShellChannel);
      if session {
        released := released + [Release(SshSession)];
      }
      session := false;
      assert released == CloseEvents(h);
      trace := trace + released;
    }

    /** Lines 116-120 and 199-203: `connect(config)`, then the shell channel
        and its streams; each field is set as soon as the call producing it
        returns. */
    method ConnectShell(host: Option<string>, port: int, user: Option<string>, password: Option<string>,
                        net: Net) returns (thrown: Option<JavaException>)
      modifies this
      ensures var r := ConnectStep(old(State()), host, port, user, password, net);
              trace == old(trace) + r.out.events && State() == r.handles && thrown == r.out.failure
    {
      trace := trace + [Connect(host, port, user, password)];
      if net.connectError.Some? {
        return Some(Remote(net.connectError.value));
      }
      session := true;
      if net.openError.Some? {
        return Some(Remote(net.openError.value));
      }
      channel := true;
      trace := trace + [OpenShell];
      if net.channelError.Some? {
        return Some(Remote(net.channelError.value));
      }
      inputStream := true;
      outputStream := true;
      thrown := None;
    }

    /** Lines 220-236: stop, make the backup directory, the two backup moves,
        the move of the staged file, the start line. */
    method Backup(c: ConfigData, remote: string, staging: string, datetime: string)
      returns (thrown: Option<JavaException>)
      modifies this
      ensures var o := BackupMoves(old(State()), c, remote, staging, datetime);
              trace == old(trace) + o.events && thrown == o.failure && State() == old(State())
    {
      ghost var h, t0 := State(), trace;
      thrown := Writeln(c.stopCMD);
      ghost var stop := WritelnStep(h, c.stopCMD);
      if thrown.Some? {
        assert BackupMoves(h, c, remote, staging, datetime) == stop;
        return;
      }
      var _ := Writeln(Some(MakeBackupDir));
      ghost var pre := stop.events + WritelnStep(h, Some(MakeBackupDir)).events;
      Assoc(t0, stop.events, WritelnStep(h, Some(MakeBackupDir)).events);
      var suffix := Suffix(remote);
      if suffix.Fail? {
        assert BackupMoves(h, c, remote, staging, datetime) == Throw(pre, suffix.error);
        return Some(suffix.error);
      }
      var first := MoveCommand(Move(remote, FirstBackupTarget(datetime, remote)));
      var _ := Writeln(Some(first));
      ghost var pre2 := pre + WritelnStep(h, Some(first)).events;
      Assoc(t0, pre, WritelnStep(h, Some(first)).events);
      var second := SecondBackup(datetime, remote, suffix.value);
      if second.Fail? {
        assert BackupMoves(h, c, remote, staging, datetime) == Throw(pre2, second.error);
        return Some(second.error);
      }
      BackupTailWrites(c, remote, staging, second.value);
      Assoc(t0, pre2, BackupTail(h, c, remote, staging, second.value));
      assert BackupMoves(h, c, remote, staging, datetime) == Done(pre2 + BackupTail(h, c, remote, staging, second.value));
    }

    /** Lines 233-236: the second backup move, the move of the staged file
        into place, the start line. */
    method BackupTailWrites(c: ConfigData, remote: string, staging: string, second: Move)
      modifies this
      ensures trace == old(trace) + BackupTail(old(State()), c, remote, staging, second)
      ensures State() == old(State())
    {
      ghost var h, t1 := State(), trace;
      var _ := Writeln(Some(MoveCommand(second)));
      ghost var a := WritelnStep(h, Some(MoveCommand(second))).events;
      var _ := Writeln(Some(MoveCommand(Move(staging, remote))));
      ghost var b := WritelnStep(h, Some(MoveCommand(Move(staging, remote)))).events;
      Assoc(t1, a, b);
      var _ := Writeln(Some(StartLine(c.startCMD, c.logCMD)));
      ghost var d := WritelnStep(h, Some(StartLine(c.startCMD, c.logCMD))).events;
      Assoc(t1, a + b, d);
    }

    /** `deploymentByJSON` (lines 191-237) from the parsed list on: only
        "the list is not empty" is checked, and the first bean is used. */
    method DeploymentByJSON(parsed: JsonList, datetime: string, net: Net) returns (thrown: Option<JavaException>)
      modifies this
      ensures var r := JsonRun(old(State()), parsed, datetime, basePath, net);
              trace == old(trace) + r.out.events && State() == r.handles && thrown == r.out.failure
    {
      ghost var t0 := trace;
      match parsed {
        case Malformed(d) =>
          return Some(Remote(d));
        case NullList =>
          return Some(NullPointer);
        case ConfigList(configs) =>
          if configs == [] {
            trace := trace + [Println(NoRemoteHost)];
            return None;
          }
          var config := configs[0];
          if config.port.None? {
            return Some(NullPointer);
          }
          ghost var h := State();
          thrown := ConnectShell(config.host, config.port.value, config.user, config.password, net);
          ghost var conn := ConnectStep(h, config.host, config.port.value, config.user, config.password, net).out.events;
          if thrown.Some? {
            return;
          }
          ghost var t1 := trace;
          var _ := Writeln(Some(HistoryOff));
          ghost var history := WritelnStep(State(), Some(HistoryOff)).events;
          Assoc(t0, conn, history);
          if config.localFile.None? || config.remoteFile.None? {
            return Some(NullPointer);
          }
          ghost var t2 := trace;
          var staging := StagingPath(datetime, config.localFile.value);
          var (up, _) := UploadFile(basePath + config.localFile.value, staging, net, net.dirs);
          trace := trace + up.events;
          Assoc(t1, history, up.events);
          Assoc(t0, conn, history + up.events);
          if up.failure.Some? {
            return up.failure;
          }
          ghost var t3 := trace;
          trace := trace + [Println(ArtifactUploaded)];
          thrown := Backup(config, config.remoteFile.value, staging, datetime);
          ghost var moves := BackupMoves(State(), config, config.remoteFile.value, staging, datetime).events;
          ghost var rest := [Println(ArtifactUploaded)] + moves;
          Assoc(t3, [Println(ArtifactUploaded)], moves);
          Assoc(t2, up.events, rest);
          Assoc(t1, history, up.events + rest);
          Assoc(t0, conn, history + (up.events + rest));
      }
    }

    /** One turn of the upload loop (lines 128-131): announce the file,
        upload it to the remote directory under its basename, confirm. */
    method UploadOne(filename: string, remoteDir: string, net: Net, dirs: set<string>)
      returns (thrown: Option<JavaException>, after: set<string>)
      modifies this
      ensures var r := UploadTurn(filename, basePath, remoteDir, net, dirs);
              trace == old(trace) + r.0.events && thrown == r.0.failure && after == r.1
      ensures State() == old(State())
    {
      ghost var t := trace;
      trace := trace + [UploadStarted(filename)];
      var sent := UploadFile(basePath + filename, remoteDir + Basename(filename), net, dirs);
      var u := sent.0;
      after := sent.1;
      trace := trace + u.events;
      Assoc(t, [UploadStarted(filename)], u.events);
      if u.failure.Some? {
        return u.failure, after;
      }
      trace := trace + [UploadDone(filename)];
      Assoc(t, [UploadStarted(filename)] + u.events, [UploadDone(filename)]);
      thrown := None;
    }

    /** The upload loop of lines 126-132: one turn per local file, in order,
        until one throws. */
    method UploadFiles(files: seq<string>, remoteDir: string, net: Net) returns (thrown: Option<JavaException>)
      modifies this
      ensures var r := ScriptUploads(files, basePath, remoteDir, net, net.dirs).0;
              trace == old(trace) + r.events && thrown == r.failure && State() == old(State())
    {
      ghost var t1 := trace;
      ghost var done: seq<string> := [];
      var dirs := net.dirs;
      for i := 0 to |files|
        invariant done == files[..i]
        invariant trace == t1 + ScriptUploads(done, basePath, remoteDir, net, net.dirs).0.events
        invariant dirs == ScriptUploads(done, basePath, remoteDir, net, net.dirs).1
        invariant ScriptUploads(done, basePath, remoteDir, net, net.dirs).0.failure.None?
        invariant State() == old(State())
      {
        ghost var prev := ScriptUploads(done, basePath, remoteDir, net, net.dirs).0.events;
        ghost var turn := UploadTurn(files[i], basePath, remoteDir, net, dirs);
        ScriptUploadsSnoc(done, files[i], basePath, remoteDir, net, net.dirs);
        thrown, dirs := UploadOne(files[i], remoteDir, net, dirs);
        Assoc(t1, prev, turn.0.events);
        Snoc(files, i);
        done := done + [files[i]];
        if thrown.Some? {
          ScriptUploadsStop(files, done, basePath, remoteDir, net, net.dirs);
          return;
        }
      }
      Whole(files);
      thrown := None;
    }

    /** `deploymentBySH` (lines 64-112) up to the connection: the empty-text
        check, the configuration comments and the checks in their order. */
    method DeploymentBySH(fileName: string, text: string, net: Net) returns (thrown: Option<JavaException>)
      modifies this
      ensures var r := ScriptRun(old(State()), fileName, text, basePath, net);
              trace == old(trace) + r.out.events && State() == r.handles && thrown == r.out.failure
    {
      var checked := ReadScript(fileName, text);
      match checked
      case Abort(message) =>
        trace := trace + [Println(message)];
        thrown := None;
      case Ready(cfg, lines) =>
        thrown := RunScript(cfg, lines, net);
    }

    /** Lines 110-144 of `deploymentBySH`, for a valid script: warn when no
        local file is declared, connect with a `Config` of the login, upload
        every local file, turn history off, send the command body. */
    method RunScript(cfg: ScriptConfig, lines: seq<string>, net: Net) returns (thrown: Option<JavaException>)
      modifies this
      ensures var r := ScriptSteps(old(State()), cfg, Body(lines), basePath, net);
              trace == old(trace) + r.out.events && State() == r.handles && thrown == r.out.failure
    {
      ghost var t0, h := trace, State();
      ghost var spec := ScriptSteps(h, cfg, Body(lines), basePath, net);
      var warn := if cfg.localFiles == [] then [Println(NoLocalFile)] else [];
      trace := trace + warn;
      var config := new Config.WithLogin(Some(cfg.host), Some(cfg.port), Some(cfg.username), Some(cfg.password));
      assert config.GetHost() == Some(cfg.host) && config.GetPort() == Some(cfg.port);
      assert config.GetUser() == Some(cfg.username) && config.GetPassword() == Some(cfg.password);
      ghost var c := ConnectStep(h, Some(cfg.host), cfg.port, Some(cfg.username), Some(cfg.password), net);
      thrown := ConnectShell(config.GetHost(), config.GetPort().value, config.GetUser(), config.GetPassword(), net);
      Assoc(t0, warn, c.out.events);
      if thrown.Some? {
        assert spec == Run(Outcome(warn + c.out.events, thrown), c.handles);
        return;
      }
      ghost var up := ScriptUploads(cfg.localFiles, basePath, cfg.remoteDir, net, net.dirs).0;
      thrown := UploadFiles(cfg.localFiles, cfg.remoteDir, net);
      Assoc(t0, warn + c.out.events, up.events);
      if thrown.Some? {
        assert spec == Run(Outcome(warn + c.out.events + up.events, thrown), c.handles);
        return;
      }
      ghost var t2 := trace;
      var _ := Writeln(Some(HistoryOff));
      ghost var history := WritelnStep(Opened(h), Some(HistoryOff)).events;
      trace := trace + [Println(ScriptStarts)];
      var body := CommandBody(lines);
      var _ := Writeln(Some(body));
      ghost var sent := WritelnStep(Opened(h), Some(body)).events;
      ghost var cmds := ScriptCommands(Opened(h), body);
      assert cmds == history + [Println(ScriptStarts)] + sent;
      Assoc(t2, history, [Println(ScriptStarts)]);
      Assoc(t2, history + [Println(ScriptStarts)], sent);
      Assoc(t0, warn + c.out.events + up.events, cmds);
      assert spec == Run(Done(warn + c.out.events + up.events + cmds), c.handles);
    }
  }
}
