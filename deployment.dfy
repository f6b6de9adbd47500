/** `AutoDeployment`: dispatch on the descriptor's extension, the script and
    JSON deployment paths, `writeln` and `close`. The remote side (the SSH
    session, the shell channel, the SFTP transfers) is an oracle `Net`; what
    the run does is the trace of events it appends. The pure functions below
    say what each step appends; the class `AutoDeployment` performs the steps
    one by one over its fields and is proved to append exactly that. */
module Deployment {
  import opened JavaLang
  import opened RemotePaths
  import opened Trace
  import opened ScriptDescriptor
  import opened JsonDescriptor
  import opened ConfigBean

  const NoDescriptor: string := "没有找到配置文件！"
  const Starting: string := "开始自动部署..."
  const DeploymentFailed: string := "自动部署失败！"
  const NoLocalFile: string := "没有找到 localFile 的值！但是部署还在继续..."
  const ScriptStarts: string := "开始执行 sh 脚本："
  const NoRemoteHost: string := "autoDeployment.json 中没有配置远程主机！"
  const ArtifactUploaded: string := "文件上传完成！"
  const HistoryOff: string := "set +o history"

  function Unsupported(ext: string): string {
    "不支持 " + ext + " 类型的文件！"
  }

  // ---------------------------------------------------------------- the remote side

  /** How one `uploadFile` call goes wrong, if it does: opening the SFTP
      channel (line 281 of LinuxConnetionHelper.java), opening the local file
      (line 284) or the transfer itself (line 303). */
  datatype UploadFault = SftpUnavailable(detail: string) | LocalFileUnreadable(detail: string)
                       | TransferFailed(detail: string)

  /** The answers of the SSH library and the server: whether `session.connect`,
      `openChannel("shell")` and `channel.connect` throw, which remote
      directories exist, and which upload targets fail and how. */
  datatype Net = Net(
    connectError: Option<string>,
    openError: Option<string>,
    channelError: Option<string>,
    dirs: set<string>,
    uploadFaults: map<string, UploadFault>)

  /** Which of the fields `session`, `channel`, `inputStream` and
      `outputStream` are non-null, and `isClose`. */
  datatype Handles = Handles(session: bool, channel: bool, input: bool, output: bool, closed: bool)

  /** A newly constructed `AutoDeployment`. */
  const Fresh: Handles := Handles(false, false, false, false, false)

  /** A step's events and the fields it leaves behind. */
  datatype Run = Run(out: Outcome, handles: Handles)

  // ---------------------------------------------------------------- writeln and close

  /** `writeln(cmd)` (lines 239-244): `cmd + "\n"` goes to the shell when the
      output stream is there and the object is not closed; otherwise nothing
      happens, not even for a null command, which throws only when it would
      have been written. */
  function WritelnStep(h: Handles, cmd: Option<string>): (o: Outcome)
    ensures o.failure.Some? <==> h.output && !h.closed && cmd.None?
    ensures o.failure.Some? ==> o.failure.value == NullPointer
    ensures Writes(o.events) == if h.output && !h.closed && cmd.Some? then [cmd.value + "\n"] else []
    ensures forall i :: 0 <= i < |o.events| ==> o.events[i].Write?
    ensures Uploads(o.events) == []
  {
    if h.output && !h.closed then
      match cmd
      case None => Throw([], NullPointer)
      case Some(c) => Done([Write(c + "\n")])
    else Done([])
  }

  /** Whether the field holding resource `x` is non-null. */
  predicate Present(h: Handles, x: Resource) {
    match x
    case InputStream => h.input
    case OutputStream => h.output
    case ShellChannel => h.channel
    case SshSession => h.session
  }

  /** The position of each release in `close()`. */
  function CloseRank(x: Resource): nat {
    match x
    case InputStream => 0
    case OutputStream => 1
    case ShellChannel => 2
    case SshSession => 3
  }

  /** One step of `close()`: the release of `x` when it is present. */
  function ReleaseIfPresent(h: Handles, x: Resource): (es: seq<Event>)
    ensures |es| <= 1 && forall i :: 0 <= i < |es| ==> es[i] == Release(x)
  {
    if Present(h, x) then [Release(x)] else []
  }

  /** The releases `close()` performs (lines 249-259): the input stream, the
      output stream, the channel and the session, each only when present. */
  function CloseEvents(h: Handles): seq<Event> {
    ReleaseIfPresent(h, InputStream) + ReleaseIfPresent(h, OutputStream)
    + ReleaseIfPresent(h, ShellChannel) + ReleaseIfPresent(h, SshSession)
  }

  /** `close()` releases exactly the present resources, each once, in the
      order input stream, output stream, channel, session. */
  lemma CloseReleasesPresent(h: Handles)
    ensures var es := CloseEvents(h);
            (forall i :: 0 <= i < |es| ==> es[i].Release? && Present(h, es[i].resource))
            && (forall x :: Present(h, x) ==> Release(x) in es)
            && (forall i, j :: 0 <= i < j < |es| ==> CloseRank(es[i].resource) < CloseRank(es[j].resource))
  {
    ClosedOnlyPresent(h);
    ClosedAllPresent(h);
    ClosedInOrder(h);
  }

  /** Only present resources are released. */
  lemma ClosedOnlyPresent(h: Handles)
    ensures var es := CloseEvents(h); forall i :: 0 <= i < |es| ==> es[i].Release? && Present(h, es[i].resource)
  {
  }

  /** Every present resource is released. */
  lemma ClosedAllPresent(h: Handles)
    ensures var es := CloseEvents(h); forall x :: Present(h, x) ==> Release(x) in es
  {
  }

  /** Releases come in increasing rank, so none twice. */
  lemma ClosedInOrder(h: Handles)
    ensures var es := CloseEvents(h);
            forall i, j :: 0 <= i < j < |es| ==> CloseRank(es[i].resource) < CloseRank(es[j].resource)
  {
  }

  /** The fields after `close()`, whatever they were: all four null and
      `isClose` set. */
  const AfterClose: Handles := Handles(false, false, false, false, true)

  /** A second `close()` releases nothing, and after a close every `writeln`
      is dropped without a trace. */
  lemma CloseIsFinal(cmd: Option<string>)
    ensures CloseEvents(AfterClose) == []
    ensures WritelnStep(AfterClose, cmd) == Done([])
  {
    ClosedOnlyPresent(AfterClose);
    forall x ensures !Present(AfterClose, x) {
      match x
      case InputStream =>
      case OutputStream =>
      case ShellChannel =>
      case SshSession =>
    }
  }

  // ---------------------------------------------------------------- connecting

  /** The fields once the session, the shell channel and its streams exist. */
  function Opened(h: Handles): Handles {
    h.(session := true, channel := true, input := true, output := true)
  }

  /** `session = connect(config); channel = openChannelShell(session);
      channel.connect(); inputStream = ...; outputStream = ...` (lines 116-120
      and 199-203). A field is set only when the call that produces it
      returned. */
  function ConnectStep(h: Handles, host: Option<string>, port: int, user: Option<string>,
                       password: Option<string>, net: Net): (r: Run)
    ensures r.out.events == [Connect(host, port, user, password)]
            || r.out.events == [Connect(host, port, user, password), OpenShell]
    ensures Writes(r.out.events) == [] && Uploads(r.out.events) == []
    ensures r.out.failure.None? <==> net.connectError.None? && net.openError.None? && net.channelError.None?
    ensures r.out.failure.None? ==> r.out.events == [Connect(host, port, user, password), OpenShell] && r.handles == Opened(h)
    ensures r.handles.closed == h.closed
  {
    var connect := Connect(host, port, user, password);
    Silent([connect, OpenShell]);
    if net.connectError.Some? then Run(Throw([connect], Remote(net.connectError.value)), h)
    else if net.openError.Some? then Run(Throw([connect], Remote(net.openError.value)), h.(session := true))
    else if net.channelError.Some? then
      Run(Throw([connect, OpenShell], Remote(net.channelError.value)), h.(session := true, channel := true))
    else Run(Done([connect, OpenShell]), Opened(h))
  }

  // ---------------------------------------------------------------- uploading

  function MakeDirs(made: seq<string>): (es: seq<Event>)
    ensures |es| == |made|
    ensures forall i :: 0 <= i < |es| ==> es[i] == MakeDir(made[i])
  {
    if made == [] then [] else [MakeDir(made[0])] + MakeDirs(made[1..])
  }

  function Elements(made: seq<string>): set<string> {
    set i | 0 <= i < |made| :: made[i]
  }

  /** The events of an upload that reached the transfer: the directories
      made, the two log lines of lines 298-299, the transfer. */
  function TransferEvents(made: seq<string>, local: string, remote: string): seq<Event> {
    MakeDirs(made) + [Println("远程服务器路径：" + remote), Println("本地上传路径：" + local), Upload(local, remote)]
  }

  /** What `uploadFile(session, local, remote, log)` (lines 280-313 of
      LinuxConnetionHelper.java) appends, and the remote directories known
      afterwards: it makes the missing directories, logs both paths, then puts
      the file. A remote path without a slash throws on `substring` before
      anything happens. */
  function UploadFile(local: string, remote: string, net: Net, dirs: set<string>): (r: (Outcome, set<string>))
    ensures r.0.failure.None? ==> Dirname(remote).Ok? && Reachable(Dirname(remote).value, r.1)
    ensures '/' !in remote ==> r.0.events == [] && r.0.failure.Some?
    ensures dirs <= r.1
  {
    var fault := if remote in net.uploadFaults then Some(net.uploadFaults[remote]) else None;
    if fault.Some? && fault.value.SftpUnavailable? then (Throw([], Remote(fault.value.detail)), dirs)
    else if Dirname(remote).Fail? then (Throw([], Dirname(remote).error), dirs)
    else if fault.Some? && fault.value.LocalFileUnreadable? then (Throw([], Remote(fault.value.detail)), dirs)
    else
      match Ensured(remote, dirs)
      case Fail(e) => (Throw([], e), dirs)
      case Ok(made) =>
        EnsureRemoteDirReaches(Dirname(remote).value, dirs);
        var es := TransferEvents(made, local, remote);
        var after := dirs + Elements(made);
        if fault.Some? && fault.value.TransferFailed? then (Throw(es, Remote(fault.value.detail)), after)
        else (Done(es), after)
  }

  /** The directory step of an upload to `remote`: `EnsureRemoteDir` on the
      path's directory, or `substring`'s exception when it has no slash. */
  function Ensured(remote: string, dirs: set<string>): Result<seq<string>> {
    match Dirname(remote)
    case Fail(e) => Fail(e)
    case Ok(dir) => EnsureRemoteDir(dir, dirs)
  }

  /** The directories an upload to `remote` makes when it gets that far. */
  function Made(remote: string, dirs: set<string>): seq<string> {
    if Ensured(remote, dirs).Ok? then Ensured(remote, dirs).value else []
  }

  /** An upload either stops before any event or reaches the transfer; one
      that does not throw reached it. */
  lemma UploadFileEvents(local: string, remote: string, net: Net, dirs: set<string>)
    ensures var o := UploadFile(local, remote, net, dirs).0;
            (o.events == [] || o.events == TransferEvents(Made(remote, dirs), local, remote))
            && (o.failure.None? ==> o.events == TransferEvents(Made(remote, dirs), local, remote))
  {
    var fault := if remote in net.uploadFaults then Some(net.uploadFaults[remote]) else None;
    var o := UploadFile(local, remote, net, dirs).0;
    if fault.Some? && fault.value.SftpUnavailable? {
      assert o.events == [];
    } else if Dirname(remote).Fail? {
      assert o.events == [];
    } else if fault.Some? && fault.value.LocalFileUnreadable? {
      assert o.events == [];
    } else if Ensured(remote, dirs).Fail? {
      assert o.events == [];
    } else {
      assert o.events == TransferEvents(Ensured(remote, dirs).value, local, remote);
    }
  }

  /** An upload writes nothing to the shell and puts at most its file; one
      that does not throw puts exactly its file. */
  lemma UploadFileQuiet(local: string, remote: string, net: Net, dirs: set<string>)
    ensures var o := UploadFile(local, remote, net, dirs).0;
            Writes(o.events) == []
            && (Uploads(o.events) == [] || Uploads(o.events) == [Upload(local, remote)])
            && (o.failure.None? ==> Uploads(o.events) == [Upload(local, remote)])
  {
    var made := Made(remote, dirs);
    UploadFileEvents(local, remote, net, dirs);
    MakeDirsQuiet(made, [Println("远程服务器路径：" + remote), Println("本地上传路径：" + local), Upload(local, remote)]);
  }

  /** Made directories and log lines neither write to the shell nor upload. */
  lemma {:induction false} MakeDirsQuiet(made: seq<string>, rest: seq<Event>)
    requires |rest| >= 1 && rest[|rest| - 1].Upload?
    requires forall i :: 0 <= i < |rest| - 1 ==> rest[i].Log?
    ensures Writes(MakeDirs(made) + rest) == []
    ensures Uploads(MakeDirs(made) + rest) == [rest[|rest| - 1]]
  {
    var es := MakeDirs(made) + rest;
    WritesEmpty(es);
    QuietPrefix(es, |es| - 1);
  }

  /** When only the last event can upload, the uploads are that event. */
  lemma QuietPrefix(es: seq<Event>, n: nat)
    requires n < |es| && n == |es| - 1 && es[n].Upload?
    requires forall i :: 0 <= i < n ==> !es[i].Upload?
    ensures Uploads(es) == [es[n]]
  {
    UploadsEmpty(es[..n]);
    assert es == es[..n] + [es[n]];
    UploadsAppend(es[..n], [es[n]]);
    assert Uploads([es[n]]) == [es[n]] + Uploads([]);
  }

  /** The uploads the script path asks for (lines 126-132): each local file
      `f`, from `basePath + f` to `remoteDir + (f after its last "/")`. */
  function UploadPlan(files: seq<string>, basePath: string, remoteDir: string): (us: seq<Event>)
    ensures |us| == |files|
  {
    if files == [] then []
    else UploadPlan(files[..|files| - 1], basePath, remoteDir)
         + [Upload(basePath + files[|files| - 1], remoteDir + Basename(files[|files| - 1]))]
  }

  /** The `i`-th upload of the plan is the `i`-th file's. */
  lemma {:induction false} UploadPlanAt(files: seq<string>, basePath: string, remoteDir: string, i: nat)
    requires i < |files|
    ensures UploadPlan(files, basePath, remoteDir)[i] == Upload(basePath + files[i], remoteDir + Basename(files[i]))
  {
    if i < |files| - 1 {
      UploadPlanAt(files[..|files| - 1], basePath, remoteDir, i);
    }
  }

  /** The log lines around one upload of the script path (lines 127, 131). */
  function UploadStarted(f: string): Event {
    Println("开始上传文件：" + f)
  }

  function UploadDone(f: string): Event {
    Println("上传文件完成：" + f)
  }

  /** One turn of the upload loop: announce, upload, confirm. */
  function UploadTurn(f: string, basePath: string, remoteDir: string, net: Net, dirs: set<string>): (r: (Outcome, set<string>))
    ensures dirs <= r.1
  {
    var (u, after) := UploadFile(basePath + f, remoteDir + Basename(f), net, dirs);
    if u.failure.Some? then (Outcome([UploadStarted(f)] + u.events, u.failure), after)
    else (Done([UploadStarted(f)] + u.events + [UploadDone(f)]), after)
  }

  /** A turn writes nothing to the shell and uploads at most its file; a
      turn that does not throw uploads exactly its file. */
  lemma UploadTurnQuiet(f: string, basePath: string, remoteDir: string, net: Net, dirs: set<string>)
    ensures var r := UploadTurn(f, basePath, remoteDir, net, dirs);
            Writes(r.0.events) == []
            && (Uploads(r.0.events) == [] || Uploads(r.0.events) == [Upload(basePath + f, remoteDir + Basename(f))])
            && (r.0.failure.None? ==> Uploads(r.0.events) == [Upload(basePath + f, remoteDir + Basename(f))])
  {
    var u := UploadFile(basePath + f, remoteDir + Basename(f), net, dirs).0;
    UploadFileQuiet(basePath + f, remoteDir + Basename(f), net, dirs);
    QuietAround(UploadStarted(f), u.events, UploadDone(f));
  }

  /** Log lines around a step add neither writes nor uploads. */
  lemma QuietAround(a: Event, es: seq<Event>, b: Event)
    requires a.Log? && b.Log?
    ensures Writes([a] + es) == Writes(es) && Uploads([a] + es) == Uploads(es)
    ensures Writes([a] + es + [b]) == Writes(es) && Uploads([a] + es + [b]) == Uploads(es)
  {
    WritesAppend([a], es);
    UploadsAppend([a], es);
    WritesAppend([a] + es, [b]);
    UploadsAppend([a] + es, [b]);
    assert Writes([a]) == [] && Uploads([a]) == [];
  }

  /** The upload loop of lines 126-132 over the files, stopping at the first
      exception; the remote directories made by one upload are known to the
      next. */
  function ScriptUploads(files: seq<string>, basePath: string, remoteDir: string, net: Net,
                         dirs: set<string>): (r: (Outcome, set<string>))
    ensures Writes(r.0.events) == []
    ensures r.0.failure.None? ==> Uploads(r.0.events) == UploadPlan(files, basePath, remoteDir)
    ensures dirs <= r.1
  {
    if files == [] then (Done([]), dirs)
    else
      var (o, d) := ScriptUploads(files[..|files| - 1], basePath, remoteDir, net, dirs);
      if o.failure.Some? then (o, d)
      else
        var (t, d2) := UploadTurn(files[|files| - 1], basePath, remoteDir, net, d);
        UploadTurnQuiet(files[|files| - 1], basePath, remoteDir, net, d);
        WritesAppend(o.events, t.events);
        UploadsAppend(o.events, t.events);
        (Outcome(o.events + t.events, t.failure), d2)
  }

  /** One more turn after the files of `done` went through. */
  lemma ScriptUploadsSnoc(done: seq<string>, f: string, basePath: string, remoteDir: string, net: Net,
                          dirs: set<string>)
    requires ScriptUploads(done, basePath, remoteDir, net, dirs).0.failure.None?
    ensures var r := ScriptUploads(done, basePath, remoteDir, net, dirs);
            var t := UploadTurn(f, basePath, remoteDir, net, r.1);
            ScriptUploads(done + [f], basePath, remoteDir, net, dirs) == (Outcome(r.0.events + t.0.events, t.0.failure), t.1)
  {
    assert (done + [f])[..|done|] == done;
  }

  /** The upload loop stops at its first exception: once the first `k` files
      fail, the later ones are never tried. */
  lemma {:induction false} ScriptUploadsStop(files: seq<string>, done: seq<string>, basePath: string,
                                             remoteDir: string, net: Net, dirs: set<string>)
    requires |done| <= |files| && files[..|done|] == done
    requires ScriptUploads(done, basePath, remoteDir, net, dirs).0.failure.Some?
    ensures ScriptUploads(files, basePath, remoteDir, net, dirs) == ScriptUploads(done, basePath, remoteDir, net, dirs)
    decreases |files|
  {
    if |files| > |done| {
      var init := files[..|files| - 1];
      assert init[..|done|] == done;
      ScriptUploadsStop(init, done, basePath, remoteDir, net, dirs);
    } else {
      assert files == done;
    }
  }

  // ---------------------------------------------------------------- the script path

  /** `deploymentBySH` (lines 64-146): validate, then go on as `ScriptSteps`
      with the command body of the script's lines. */
  function ScriptRun(h: Handles, fileName: string, text: string, basePath: string, net: Net): (r: Run)
    ensures CheckScript(fileName, text).Abort? ==>
              r == Run(Done([Println(CheckScript(fileName, text).message)]), h)
    ensures r.handles.closed == h.closed
  {
    match CheckScript(fileName, text)
    case Abort(m) => Run(Done([Println(m)]), h)
    case Ready(cfg, lines) => ScriptSteps(h, cfg, Body(lines), basePath, net)
  }

  /** Lines 110-144, once the script is valid: warn when no local file is
      declared, connect, upload every local file, then `ScriptCommands`. */
  function ScriptSteps(h: Handles, cfg: ScriptConfig, body: string, basePath: string, net: Net): (r: Run)
    ensures r.handles.closed == h.closed
  {
    var warn := if cfg.localFiles == [] then [Println(NoLocalFile)] else [];
    var c := ConnectStep(h, Some(cfg.host), cfg.port, Some(cfg.username), Some(cfg.password), net);
    if c.out.failure.Some? then Run(Outcome(warn + c.out.events, c.out.failure), c.handles)
    else
      var up := ScriptUploads(cfg.localFiles, basePath, cfg.remoteDir, net, net.dirs).0;
      if up.failure.Some? then Run(Outcome(warn + c.out.events + up.events, up.failure), c.handles)
      else Run(Done(warn + c.out.events + up.events + ScriptCommands(c.handles, body)), c.handles)
  }

  /** Lines 134-144: history off, the announcement, the command body. */
  function ScriptCommands(h: Handles, command: string): seq<Event> {
    WritelnStep(h, Some(HistoryOff)).events + [Println(ScriptStarts)] + WritelnStep(h, Some(command)).events
  }

  /** The command part always logs the start announcement, whether or not
      the shell is open, and otherwise only writes to the shell. */
  lemma ScriptCommandsAnnounces(h: Handles, command: string)
    ensures WritesBesides(ScriptCommands(h, command), Println(ScriptStarts))
  {
    var es := ScriptCommands(h, command);
    var history := WritelnStep(h, Some(HistoryOff)).events;
    assert es[|history|] == Println(ScriptStarts);
    forall i | 0 <= i < |es|
      ensures es[i].Write? || es[i] == Println(ScriptStarts)
    {
      if i > |history| {
        assert es[i] == WritelnStep(h, Some(command)).events[i - |history| - 1];
      }
    }
  }

  /** The command part uploads nothing and, on an open shell, writes history
      off and then the command body. */
  lemma ScriptCommandsWrites(h: Handles, command: string)
    ensures Uploads(ScriptCommands(h, command)) == []
    ensures h.output && !h.closed ==> Writes(ScriptCommands(h, command)) == [HistoryOff + "\n", command + "\n"]
  {
    var history := WritelnStep(h, Some(HistoryOff)).events;
    var body := WritelnStep(h, Some(command)).events;
    Silent([Println(ScriptStarts)]);
    WritesAppend(history, [Println(ScriptStarts)]);
    UploadsAppend(history, [Println(ScriptStarts)]);
    WritesAppend(history + [Println(ScriptStarts)], body);
    UploadsAppend(history + [Println(ScriptStarts)], body);
    if h.output && !h.closed {
      Pair(HistoryOff + "\n", command + "\n");
    }
  }

  /** A script run that gets through writes exactly two things to the shell,
      "set +o history" and the command body, after every upload, and uploads
      exactly the declared local files in order. */
  lemma ScriptStepsSucceed(h: Handles, cfg: ScriptConfig, body: string, basePath: string, net: Net)
    requires !h.closed && ScriptSteps(h, cfg, body, basePath, net).out.failure.None?
    ensures var es := ScriptSteps(h, cfg, body, basePath, net).out.events;
            Writes(es) == [HistoryOff + "\n", body + "\n"]
            && Uploads(es) == UploadPlan(cfg.localFiles, basePath, cfg.remoteDir)
            && NoUploadAfterWrite(es)
  {
    ScriptStepsWrites(h, cfg, body, basePath, net);
    ScriptStepsUploads(h, cfg, body, basePath, net);
    ScriptStepsOrder(h, cfg, body, basePath, net);
  }

  /** The parts of a script run that gets through: the warning and the
      connection, the uploads, the commands. */
  lemma ScriptStepsParts(h: Handles, cfg: ScriptConfig, body: string, basePath: string, net: Net)
    requires ScriptSteps(h, cfg, body, basePath, net).out.failure.None?
    ensures var c := ConnectStep(h, Some(cfg.host), cfg.port, Some(cfg.username), Some(cfg.password), net);
            var up := ScriptUploads(cfg.localFiles, basePath, cfg.remoteDir, net, net.dirs).0;
            var warn := if cfg.localFiles == [] then [Println(NoLocalFile)] else [];
            c.out.failure.None? && up.failure.None? && c.handles == Opened(h)
            && ScriptSteps(h, cfg, body, basePath, net).out.events
               == (warn + c.out.events) + up.events + ScriptCommands(Opened(h), body)
  {
  }

  lemma ScriptStepsWrites(h: Handles, cfg: ScriptConfig, body: string, basePath: string, net: Net)
    requires !h.closed && ScriptSteps(h, cfg, body, basePath, net).out.failure.None?
    ensures Writes(ScriptSteps(h, cfg, body, basePath, net).out.events) == [HistoryOff + "\n", body + "\n"]
  {
    ScriptStepsParts(h, cfg, body, basePath, net);
    var warn := if cfg.localFiles == [] then [Println(NoLocalFile)] else [];
    var c := ConnectStep(h, Some(cfg.host), cfg.port, Some(cfg.username), Some(cfg.password), net).out.events;
    var up := ScriptUploads(cfg.localFiles, basePath, cfg.remoteDir, net, net.dirs).0.events;
    var post := ScriptCommands(Opened(h), body);
    ScriptCommandsWrites(Opened(h), body);
    Silent(warn);
    WritesOfLast(ScriptSteps(h, cfg, body, basePath, net).out.events, warn, c, up, post, [HistoryOff + "\n", body + "\n"]);
  }

  lemma ScriptStepsUploads(h: Handles, cfg: ScriptConfig, body: string, basePath: string, net: Net)
    requires ScriptSteps(h, cfg, body, basePath, net).out.failure.None?
    ensures Uploads(ScriptSteps(h, cfg, body, basePath, net).out.events) == UploadPlan(cfg.localFiles, basePath, cfg.remoteDir)
  {
    ScriptStepsParts(h, cfg, body, basePath, net);
    var warn := if cfg.localFiles == [] then [Println(NoLocalFile)] else [];
    var c := ConnectStep(h, Some(cfg.host), cfg.port, Some(cfg.username), Some(cfg.password), net).out.events;
    var up := ScriptUploads(cfg.localFiles, basePath, cfg.remoteDir, net, net.dirs).0.events;
    var post := ScriptCommands(Opened(h), body);
    ScriptCommandsWrites(Opened(h), body);
    Silent(warn);
    UploadsOfThird(ScriptSteps(h, cfg, body, basePath, net).out.events, warn, c, up, post,
                   UploadPlan(cfg.localFiles, basePath, cfg.remoteDir));
  }

  lemma ScriptStepsOrder(h: Handles, cfg: ScriptConfig, body: string, basePath: string, net: Net)
    requires ScriptSteps(h, cfg, body, basePath, net).out.failure.None?
    ensures NoUploadAfterWrite(ScriptSteps(h, cfg, body, basePath, net).out.events)
  {
    ScriptStepsParts(h, cfg, body, basePath, net);
    var warn := if cfg.localFiles == [] then [Println(NoLocalFile)] else [];
    var c := ConnectStep(h, Some(cfg.host), cfg.port, Some(cfg.username), Some(cfg.password), net).out.events;
    var up := ScriptUploads(cfg.localFiles, basePath, cfg.remoteDir, net, net.dirs).0.events;
    var post := ScriptCommands(Opened(h), body);
    ScriptCommandsWrites(Opened(h), body);
    Silent(warn);
    OrderOfParts(ScriptSteps(h, cfg, body, basePath, net).out.events, warn, c, up, post);
  }

  /** The warning about missing local files opens the trace of a script run
      exactly when there are none. */
  lemma {:induction false} ScriptStepsWarn(h: Handles, cfg: ScriptConfig, body: string, basePath: string, net: Net)
    ensures var es := ScriptSteps(h, cfg, body, basePath, net).out.events;
            |es| >= 1 && (es[0] == Println(NoLocalFile) <==> cfg.localFiles == [])
  {
    var warn := if cfg.localFiles == [] then [Println(NoLocalFile)] else [];
    var c := ConnectStep(h, Some(cfg.host), cfg.port, Some(cfg.username), Some(cfg.password), net);
    var head := warn + c.out.events;
    assert head[0] == if cfg.localFiles == [] then Println(NoLocalFile)
                      else Connect(Some(cfg.host), cfg.port, Some(cfg.username), Some(cfg.password));
    var es := ScriptSteps(h, cfg, body, basePath, net).out.events;
    if c.out.failure.None? {
      var up := ScriptUploads(cfg.localFiles, basePath, cfg.remoteDir, net, net.dirs).0;
      if up.failure.Some? {
        assert es == head + up.events;
      } else {
        assert es == head + up.events + ScriptCommands(c.handles, body);
      }
    }
    assert es[0] == head[0];
  }

  // ---------------------------------------------------------------- the JSON path

  /** What fastjson's `parseArray` gives for the descriptor text: a list of
      beans, null (for the text "null"), or an exception. */
  datatype JsonList = ConfigList(configs: seq<ConfigData>) | NullList | Malformed(detail: string)

  /** What a backup that does not throw writes to the shell, in order (lines
      223-236): stop, make the backup directory, the two backup moves, the move
      of the staged file and the start line. */
  function BackupLines(c: ConfigData, remote: string, staging: string, datetime: string, second: Move): seq<string> {
    [JavaStr(c.stopCMD) + "\n", MakeBackupDir + "\n",
     MoveCommand(Move(remote, FirstBackupTarget(datetime, remote))) + "\n",
     MoveCommand(second) + "\n",
     MoveCommand(Move(staging, remote)) + "\n",
     StartLine(c.startCMD, c.logCMD) + "\n"]
  }

  /** Lines 220-236: the stop command, the backup directory, the two backup
      moves, the move of the staged file onto the remote file and the start
      line. The suffix is taken after the first two writes and the second
      move's target after the third, so their exceptions come after those
      writes. */
  function BackupMoves(h: Handles, c: ConfigData, remote: string, staging: string, datetime: string): (o: Outcome)
    ensures OnlyWrites(o.events)
    ensures !h.output || h.closed ==> o.events == []
  {
    var stop := WritelnStep(h, c.stopCMD);
    if stop.failure.Some? then stop
    else
      var mkdir := WritelnStep(h, Some(MakeBackupDir)).events;
      OnlyWritesAppend(stop.events, mkdir);
      var pre := stop.events + mkdir;
      match Suffix(remote)
      case Fail(e) => Throw(pre, e)
      case Ok(suffix) =>
        var first := WritelnStep(h, Some(MoveCommand(Move(remote, FirstBackupTarget(datetime, remote))))).events;
        OnlyWritesAppend(pre, first);
        var pre2 := pre + first;
        match SecondBackup(datetime, remote, suffix)
        case Fail(e) => Throw(pre2, e)
        case Ok(second) =>
          OnlyWritesAppend(pre2, BackupTail(h, c, remote, staging, second));
          Done(pre2 + BackupTail(h, c, remote, staging, second))
  }

  /** A backup only writes to the shell: it uploads nothing. */
  lemma BackupMovesQuiet(h: Handles, c: ConfigData, remote: string, staging: string, datetime: string)
    ensures Uploads(BackupMoves(h, c, remote, staging, datetime).events) == []
  {
    var stop := WritelnStep(h, c.stopCMD).events;
    var mkdir := WritelnStep(h, Some(MakeBackupDir)).events;
    UploadsAppend(stop, mkdir);
    if Suffix(remote).Ok? {
      var first := WritelnStep(h, Some(MoveCommand(Move(remote, FirstBackupTarget(datetime, remote))))).events;
      UploadsAppend(stop + mkdir, first);
      var second := SecondBackup(datetime, remote, Suffix(remote).value);
      if second.Ok? {
        UploadsAppend(stop + mkdir + first, BackupTail(h, c, remote, staging, second.value));
      }
    }
  }

  /** A backup on an open shell that does not throw had a stop command, a
      remote file with a dot and a second target, and wrote exactly
      `BackupLines`. */
  lemma BackupMovesSucceed(h: Handles, c: ConfigData, remote: string, staging: string, datetime: string)
    requires h.output && !h.closed
    requires BackupMoves(h, c, remote, staging, datetime).failure.None?
    ensures c.stopCMD.Some? && Suffix(remote).Ok? && SecondBackup(datetime, remote, Suffix(remote).value).Ok?
    ensures Writes(BackupMoves(h, c, remote, staging, datetime).events)
            == BackupLines(c, remote, staging, datetime, SecondBackup(datetime, remote, Suffix(remote).value).value)
  {
    var second := SecondBackup(datetime, remote, Suffix(remote).value).value;
    var a := c.stopCMD.value + "\n";
    var b := MakeBackupDir + "\n";
    var d := MoveCommand(Move(remote, FirstBackupTarget(datetime, remote))) + "\n";
    var tail := BackupTail(h, c, remote, staging, second);
    assert BackupMoves(h, c, remote, staging, datetime).events == [Write(a)] + [Write(b)] + [Write(d)] + tail;
    Assoc([Write(a)] + [Write(b)], [Write(d)], tail);
    Assoc([Write(a)], [Write(b)], [Write(d)] + tail);
    WriteBeforeRest(a, [Write(b)] + ([Write(d)] + tail));
    WriteBeforeRest(b, [Write(d)] + tail);
    WriteBeforeRest(d, tail);
    Six(a, b, d, MoveCommand(second) + "\n", MoveCommand(Move(staging, remote)) + "\n",
        StartLine(c.startCMD, c.logCMD) + "\n");
  }

  /** The last three writes of a backup (lines 227-236). */
  function BackupTail(h: Handles, c: ConfigData, remote: string, staging: string, second: Move): (es: seq<Event>)
    ensures OnlyWrites(es)
    ensures Uploads(es) == []
    ensures h.output && !h.closed ==>
              Writes(es) == [MoveCommand(second) + "\n"] + [MoveCommand(Move(staging, remote)) + "\n"]
                            + [StartLine(c.startCMD, c.logCMD) + "\n"]
  {
    var a := WritelnStep(h, Some(MoveCommand(second))).events;
    var b := WritelnStep(h, Some(MoveCommand(Move(staging, remote)))).events;
    var d := WritelnStep(h, Some(StartLine(c.startCMD, c.logCMD))).events;
    WritesAppend(a, b);
    UploadsAppend(a, b);
    WritesAppend(a + b, d);
    UploadsAppend(a + b, d);
    OnlyWritesAppend(a, b);
    OnlyWritesAppend(a + b, d);
    a + b + d
  }

  /** A sequence-literal step, kept apart so that the proofs using it stay
      small. */
  lemma Six<T>(a: T, b: T, c: T, d: T, e: T, f: T)
    ensures [a] + ([b] + ([c] + ([d] + [e] + [f]))) == [a, b, c, d, e, f]
  {
  }

  /** A sequence-literal step, kept apart so that the proofs using it stay
      small. */
  lemma Pair<T>(a: T, b: T)
    ensures [a] + [b] == [a, b]
  {
  }

  /** Without a dot in the remote file, `substring` throws right after the
      stop command and the backup directory were sent. */
  lemma BackupMovesNoDot(h: Handles, c: ConfigData, remote: string, staging: string, datetime: string)
    requires h.output && !h.closed && c.stopCMD.Some? && '.' !in remote
    ensures var o := BackupMoves(h, c, remote, staging, datetime);
            o.failure == Some(StringIndexOutOfBounds(-1, |remote|, |remote|))
            && Writes(o.events) == [c.stopCMD.value + "\n", MakeBackupDir + "\n"]
  {
    var stop := WritelnStep(h, c.stopCMD).events;
    var mkdir := WritelnStep(h, Some(MakeBackupDir)).events;
    assert stop == [Write(c.stopCMD.value + "\n")];
    assert mkdir == [Write(MakeBackupDir + "\n")];
    assert BackupMoves(h, c, remote, staging, datetime)
        == Throw(stop + mkdir, StringIndexOutOfBounds(-1, |remote|, |remote|));
    WritesAppend(stop, mkdir);
    WriteBeforeRest(c.stopCMD.value + "\n", []);
    WriteBeforeRest(MakeBackupDir + "\n", []);
    assert [Write(c.stopCMD.value + "\n")] + [] == stop;
    assert [Write(MakeBackupDir + "\n")] + [] == mkdir;
    Pair(c.stopCMD.value + "\n", MakeBackupDir + "\n");
  }

  /** Line 219 and `BackupMoves`: the upload is confirmed in the log first. */
  function BackupAndStart(h: Handles, c: ConfigData, remote: string, staging: string, datetime: string): (o: Outcome)
    ensures |o.events| >= 1 && o.events[0] == Println(ArtifactUploaded)
    ensures OnlyWrites(o.events[1..])
  {
    var o := BackupMoves(h, c, remote, staging, datetime);
    assert ([Println(ArtifactUploaded)] + o.events)[1..] == o.events;
    Outcome([Println(ArtifactUploaded)] + o.events, o.failure)
  }

  /** `BackupAndStart` uploads nothing; on an open shell it writes exactly
      `BackupLines` when it completes, and only the stop command and the
      backup directory when the remote file has no dot. */
  lemma BackupAndStartWrites(h: Handles, c: ConfigData, remote: string, staging: string, datetime: string)
    ensures var o := BackupAndStart(h, c, remote, staging, datetime);
            Uploads(o.events) == []
            && (o.failure.None? && h.output && !h.closed ==>
                  c.stopCMD.Some? && Suffix(remote).Ok? && SecondBackup(datetime, remote, Suffix(remote).value).Ok?
                  && Writes(o.events) == BackupLines(c, remote, staging, datetime, SecondBackup(datetime, remote, Suffix(remote).value).value))
            && (h.output && !h.closed && c.stopCMD.Some? && '.' !in remote ==>
                  o.failure == Some(StringIndexOutOfBounds(-1, |remote|, |remote|))
                  && Writes(o.events) == [c.stopCMD.value + "\n", MakeBackupDir + "\n"])
  {
    var done := [Println(ArtifactUploaded)];
    var o := BackupMoves(h, c, remote, staging, datetime);
    BackupMovesQuiet(h, c, remote, staging, datetime);
    Silent(done);
    WritesAppend(done, o.events);
    UploadsAppend(done, o.events);
    if h.output && !h.closed {
      if o.failure.None? {
        BackupMovesSucceed(h, c, remote, staging, datetime);
      }
      if c.stopCMD.Some? && '.' !in remote {
        BackupMovesNoDot(h, c, remote, staging, datetime);
      }
    }
  }

  /** Lines 215-236, once the local and remote file are known: the upload
      to the staging path, then, unless it threw, `BackupAndStart`. */
  function StageAndDeploy(h: Handles, c: ConfigData, local: string, remote: string, datetime: string,
                          basePath: string, net: Net): (o: Outcome)
    ensures var up := UploadFile(basePath + local, StagingPath(datetime, local), net, net.dirs).0;
            |up.events| <= |o.events| && o.events[..|up.events|] == up.events
            && (up.failure.Some? ==> o == up)
  {
    var staging := StagingPath(datetime, local);
    var up := UploadFile(basePath + local, staging, net, net.dirs).0;
    if up.failure.Some? then up
    else
      var rest := BackupAndStart(h, c, remote, staging, datetime);
      PrefixOfAppend(up.events, rest.events);
      Outcome(up.events + rest.events, rest.failure)
  }

  /** The staging upload comes before every shell write of the backup: at
      most the artifact is uploaded, and nothing is uploaded after a write. */
  lemma StageAndDeployOrder(h: Handles, c: ConfigData, local: string, remote: string, datetime: string,
                            basePath: string, net: Net)
    ensures var o := StageAndDeploy(h, c, local, remote, datetime, basePath, net);
            (Uploads(o.events) == [] || Uploads(o.events) == [Upload(basePath + local, StagingPath(datetime, local))])
            && NoUploadAfterWrite(o.events)
  {
    var staging := StagingPath(datetime, local);
    var o := StageAndDeploy(h, c, local, remote, datetime, basePath, net);
    var up := UploadFile(basePath + local, staging, net, net.dirs).0;
    UploadFileQuiet(basePath + local, staging, net, net.dirs);
    var rest := if up.failure.Some? then [] else BackupAndStart(h, c, remote, staging, datetime).events;
    assert o.events == up.events + rest;
    if up.failure.None? {
      BackupAndStartWrites(h, c, remote, staging, datetime);
    }
    UploadThenWrites(o.events, up.events, rest, Upload(basePath + local, staging));
  }

  /** A staging and backup on an open shell that completes uploaded exactly
      the artifact and wrote exactly `BackupLines`. */
  lemma StageAndDeploySucceeds(h: Handles, c: ConfigData, local: string, remote: string, datetime: string,
                               basePath: string, net: Net)
    requires h.output && !h.closed
    requires StageAndDeploy(h, c, local, remote, datetime, basePath, net).failure.None?
    ensures var o := StageAndDeploy(h, c, local, remote, datetime, basePath, net);
            c.stopCMD.Some? && Uploads(o.events) == [Upload(basePath + local, StagingPath(datetime, local))]
            && Suffix(remote).Ok? && SecondBackup(datetime, remote, Suffix(remote).value).Ok?
            && Writes(o.events) == BackupLines(c, remote, StagingPath(datetime, local), datetime,
                                               SecondBackup(datetime, remote, Suffix(remote).value).value)
  {
    var staging := StagingPath(datetime, local);
    var up := UploadFile(basePath + local, staging, net, net.dirs).0;
    UploadFileQuiet(basePath + local, staging, net, net.dirs);
    var rest := BackupAndStart(h, c, remote, staging, datetime);
    assert StageAndDeploy(h, c, local, remote, datetime, basePath, net).events == up.events + rest.events;
    BackupAndStartWrites(h, c, remote, staging, datetime);
    WritesAppend(up.events, rest.events);
    UploadsAppend(up.events, rest.events);
  }

  /** Lines 208-236 of `deploymentByJSON`, once the shell is open: history
      off, then the null checks of `getLocalFile()` and `getRemoteFile()`
      when their basenames are taken, and `StageAndDeploy`. */
  function JsonCommands(h: Handles, c: ConfigData, datetime: string, basePath: string, net: Net): (o: Outcome)
    ensures h.output && !h.closed ==> |o.events| >= 1 && o.events[0] == Write(HistoryOff + "\n")
    ensures c.localFile.None? || c.remoteFile.None? ==> o.failure == Some(NullPointer) && Uploads(o.events) == []
  {
    var history := WritelnStep(h, Some(HistoryOff)).events;
    if c.localFile.None? || c.remoteFile.None? then Outcome(history, Some(NullPointer))
    else
      var rest := StageAndDeploy(h, c, c.localFile.value, c.remoteFile.value, datetime, basePath, net);
      Outcome(history + rest.events, rest.failure)
  }

  /** `deploymentByJSON` (lines 191-237): only "the list is not empty" is
      checked; the first bean is used, and its `Integer` port is unboxed
      before the connection is attempted. */
  function JsonRun(h: Handles, parsed: JsonList, datetime: string, basePath: string, net: Net): (r: Run)
    ensures parsed == ConfigList([]) ==> r == Run(Done([Println(NoRemoteHost)]), h)
    ensures parsed.ConfigList? && parsed.configs != [] && parsed.configs[0].port.None? ==>
              r == Run(Throw([], NullPointer), h)
    ensures r.handles.closed == h.closed
  {
    match parsed
    case Malformed(d) => Run(Throw([], Remote(d)), h)
    case NullList => Run(Throw([], NullPointer), h)
    case ConfigList(cs) =>
      if cs == [] then Run(Done([Println(NoRemoteHost)]), h)
      else
        var c := cs[0];
        if c.port.None? then Run(Throw([], NullPointer), h)
        else
          var conn := ConnectStep(h, c.host, c.port.value, c.user, c.password, net);
          if conn.out.failure.Some? then conn
          else Run(Then(conn.out, JsonCommands(conn.handles, c, datetime, basePath, net)), conn.handles)
  }

  /** Once the shell is open, JSON commands that complete turn history off
      before anything is uploaded, stage exactly the artifact, and write
      exactly the stop command, the backup directory, the two backup moves,
      the move of the staged file onto the remote file and the start line. */
  lemma JsonCommandsSucceed(h: Handles, c: ConfigData, datetime: string, basePath: string, net: Net)
    requires h.output && !h.closed
    requires JsonCommands(h, c, datetime, basePath, net).failure.None?
    ensures var es := JsonCommands(h, c, datetime, basePath, net).events;
            c.localFile.Some? && c.remoteFile.Some? && c.stopCMD.Some?
            && Uploads(es) == [Upload(basePath + c.localFile.value, StagingPath(datetime, c.localFile.value))]
            && Suffix(c.remoteFile.value).Ok?
            && SecondBackup(datetime, c.remoteFile.value, Suffix(c.remoteFile.value).value).Ok?
            && Writes(es) == [HistoryOff + "\n"]
                             + BackupLines(c, c.remoteFile.value, StagingPath(datetime, c.localFile.value), datetime,
                                           SecondBackup(datetime, c.remoteFile.value, Suffix(c.remoteFile.value).value).value)
            && WrittenBeforeUpload(es, HistoryOff + "\n")
            && OnlyBeforeUploads(es, HistoryOff + "\n")
  {
    var es := JsonCommands(h, c, datetime, basePath, net).events;
    var rest := StageAndDeploy(h, c, c.localFile.value, c.remoteFile.value, datetime, basePath, net);
    assert JsonCommands(h, c, datetime, basePath, net) == Outcome([Write(HistoryOff + "\n")] + rest.events, rest.failure);
    StageAndDeploySucceeds(h, c, c.localFile.value, c.remoteFile.value, datetime, basePath, net);
    StageAndDeployOrder(h, c, c.localFile.value, c.remoteFile.value, datetime, basePath, net);
    WriteBeforeRest(HistoryOff + "\n", rest.events);
    WriteInFront(es, HistoryOff + "\n", rest.events);
  }

  /** A JSON deployment that completes connects and opens the shell first,
      then turns history off before anything is uploaded, stages exactly the
      artifact, and writes exactly the lines of `JsonCommandsSucceed`. */
  lemma JsonRunSucceeds(h: Handles, parsed: JsonList, datetime: string, basePath: string, net: Net)
    requires parsed.ConfigList? && parsed.configs != [] && !h.closed
    requires JsonRun(h, parsed, datetime, basePath, net).out.failure.None?
    ensures var c := parsed.configs[0];
            var es := JsonRun(h, parsed, datetime, basePath, net).out.events;
            c.port.Some? && c.localFile.Some? && c.remoteFile.Some? && c.stopCMD.Some?
            && es[..2] == [Connect(c.host, c.port.value, c.user, c.password), OpenShell]
            && Uploads(es) == [Upload(basePath + c.localFile.value, StagingPath(datetime, c.localFile.value))]
            && Suffix(c.remoteFile.value).Ok?
            && SecondBackup(datetime, c.remoteFile.value, Suffix(c.remoteFile.value).value).Ok?
            && Writes(es) == [HistoryOff + "\n"]
                             + BackupLines(c, c.remoteFile.value, StagingPath(datetime, c.localFile.value), datetime,
                                           SecondBackup(datetime, c.remoteFile.value, Suffix(c.remoteFile.value).value).value)
            && WrittenBeforeUpload(es, HistoryOff + "\n")
            && OnlyBeforeUploads(es, HistoryOff + "\n")
  {
    var c := parsed.configs[0];
    var conn := ConnectStep(h, c.host, c.port.value, c.user, c.password, net);
    var cmds := JsonCommands(Opened(h), c, datetime, basePath, net);
    assert JsonRun(h, parsed, datetime, basePath, net).out == Outcome(conn.out.events + cmds.events, cmds.failure);
    JsonCommandsSucceed(Opened(h), c, datetime, basePath, net);
    WritesAppend(conn.out.events, cmds.events);
    UploadsAppend(conn.out.events, cmds.events);
    UploadFreePrefix(conn.out.events, cmds.events, HistoryOff + "\n");
    WriteFreePrefix(conn.out.events + cmds.events, conn.out.events, cmds.events, HistoryOff + "\n");
  }

  /** The staging part of `JsonCommandsNoDot`. */
  lemma StageNoDot(h: Handles, c: ConfigData, local: string, remote: string, datetime: string,
                   basePath: string, net: Net)
    requires h.output && !h.closed && c.stopCMD.Some? && '.' !in remote
    requires UploadFile(basePath + local, StagingPath(datetime, local), net, net.dirs).0.failure.None?
    ensures var o := StageAndDeploy(h, c, local, remote, datetime, basePath, net);
            o.failure == Some(StringIndexOutOfBounds(-1, |remote|, |remote|))
            && Writes(o.events) == [c.stopCMD.value + "\n", MakeBackupDir + "\n"]
            && Uploads(o.events) == [Upload(basePath + local, StagingPath(datetime, local))]
  {
    var staging := StagingPath(datetime, local);
    var up := UploadFile(basePath + local, staging, net, net.dirs).0;
    UploadFileQuiet(basePath + local, staging, net, net.dirs);
    var back := BackupAndStart(h, c, remote, staging, datetime);
    BackupAndStartWrites(h, c, remote, staging, datetime);
    assert StageAndDeploy(h, c, local, remote, datetime, basePath, net) == Outcome(up.events + back.events, back.failure);
    WritesAppend(up.events, back.events);
    UploadsAppend(up.events, back.events);
  }

  /** Once the shell is open, a remote file without a dot makes `substring`
      throw after the artifact is staged, the service stopped and the backup
      directory made: the staged file is never moved and the service is not
      started again. */
  lemma JsonCommandsNoDot(h: Handles, c: ConfigData, datetime: string, basePath: string, net: Net)
    requires h.output && !h.closed
    requires c.localFile.Some? && c.remoteFile.Some? && c.stopCMD.Some? && '.' !in c.remoteFile.value
    requires UploadFile(basePath + c.localFile.value, StagingPath(datetime, c.localFile.value), net, net.dirs).0.failure.None?
    ensures var o := JsonCommands(h, c, datetime, basePath, net);
            o.failure == Some(StringIndexOutOfBounds(-1, |c.remoteFile.value|, |c.remoteFile.value|))
            && Writes(o.events) == [HistoryOff + "\n", c.stopCMD.value + "\n", MakeBackupDir + "\n"]
            && Uploads(o.events) == [Upload(basePath + c.localFile.value, StagingPath(datetime, c.localFile.value))]
            && OnlyBeforeUploads(o.events, HistoryOff + "\n")
  {
    var rest := StageAndDeploy(h, c, c.localFile.value, c.remoteFile.value, datetime, basePath, net);
    StageNoDot(h, c, c.localFile.value, c.remoteFile.value, datetime, basePath, net);
    StageAndDeployOrder(h, c, c.localFile.value, c.remoteFile.value, datetime, basePath, net);
    var o := JsonCommands(h, c, datetime, basePath, net);
    assert o == Outcome([Write(HistoryOff + "\n")] + rest.events, rest.failure);
    WriteBeforeRest(HistoryOff + "\n", rest.events);
    WriteInFront(o.events, HistoryOff + "\n", rest.events);
    Cons3(HistoryOff + "\n", c.stopCMD.value + "\n", MakeBackupDir + "\n");
  }

  /** A sequence-literal step, kept apart so that the proofs using it stay
      small. */
  lemma Cons3<T>(x: T, y: T, z: T)
    ensures [x] + [y, z] == [x, y, z]
  {
  }

  /** `JsonCommandsNoDot` for a whole JSON deployment whose connection
      succeeds. */
  lemma JsonNoDotFails(h: Handles, parsed: JsonList, datetime: string, basePath: string, net: Net)
    requires parsed.ConfigList? && parsed.configs != [] && !h.closed
    requires var c := parsed.configs[0];
             c.port.Some? && c.localFile.Some? && c.remoteFile.Some? && c.stopCMD.Some?
             && '.' !in c.remoteFile.value
    requires net.connectError.None? && net.openError.None? && net.channelError.None?
    requires var local := parsed.configs[0].localFile.value;
             UploadFile(basePath + local, StagingPath(datetime, local), net, net.dirs).0.failure.None?
    ensures var c := parsed.configs[0];
            var o := JsonRun(h, parsed, datetime, basePath, net).out;
            o.failure == Some(StringIndexOutOfBounds(-1, |c.remoteFile.value|, |c.remoteFile.value|))
            && Writes(o.events) == [HistoryOff + "\n", c.stopCMD.value + "\n", MakeBackupDir + "\n"]
            && Uploads(o.events) == [Upload(basePath + c.localFile.value, StagingPath(datetime, c.localFile.value))]
            && OnlyBeforeUploads(o.events, HistoryOff + "\n")
  {
    var c := parsed.configs[0];
    var conn := ConnectStep(h, c.host, c.port.value, c.user, c.password, net);
    var cmds := JsonCommands(Opened(h), c, datetime, basePath, net);
    JsonCommandsNoDot(Opened(h), c, datetime, basePath, net);
    assert JsonRun(h, parsed, datetime, basePath, net).out == Outcome(conn.out.events + cmds.events, cmds.failure);
    WritesAppend(conn.out.events, cmds.events);
    UploadsAppend(conn.out.events, cmds.events);
    WriteFreePrefix(conn.out.events + cmds.events, conn.out.events, cmds.events, HistoryOff + "\n");
  }

  // ---------------------------------------------------------------- dispatch

  /** A descriptor file that exists and is a regular file: its name, the
      extension hutool's `extName` gives, and its text. */
  datatype Descriptor = Descriptor(name: string, ext: string, text: string)

  /** The path `deployment()` takes for a present descriptor (lines 45-52). */
  function Dispatch(d: Descriptor, parsed: JsonList, h: Handles, datetime: string, basePath: string,
                    net: Net): (r: Run)
    ensures r.handles.closed == h.closed
    ensures d.ext != "json" && d.ext != "sh" ==> r == Run(Done([Println(Unsupported(d.ext))]), h)
  {
    if d.ext == "json" then JsonRun(h, parsed, datetime, basePath, net)
    else if d.ext == "sh" then ScriptRun(h, d.name, d.text, basePath, net)
    else Run(Done([Println(Unsupported(d.ext))]), h)
  }

  /** `deployment()` (lines 37-59): a missing descriptor is reported and
      nothing else happens; otherwise the run is announced and dispatched, and
      an exception from it is reported and followed by `close()`. Nothing
      escapes. */
  function DeploymentRun(file: Option<Descriptor>, parsed: JsonList, h: Handles, datetime: string,
                         basePath: string, net: Net): (r: Run)
    ensures r.out.failure.None?
    ensures file.None? ==> r == Run(Done([Println(NoDescriptor)]), h)
    ensures file.Some? ==> |r.out.events| >= 1 && r.out.events[0] == Println(Starting)
    ensures file.Some? && file.value.ext != "json" && file.value.ext != "sh" ==>
              r == Run(Done([Println(Starting), Println(Unsupported(file.value.ext))]), h)
    ensures file.Some? && file.value.ext == "json" ==> r == Caught(JsonRun(h, parsed, datetime, basePath, net))
    ensures file.Some? && file.value.ext == "sh" ==>
              r == Caught(ScriptRun(h, file.value.name, file.value.text, basePath, net))
  {
    match file
    case None => Run(Done([Println(NoDescriptor)]), h)
    case Some(d) => Caught(Dispatch(d, parsed, h, datetime, basePath, net))
  }

  /** The announcement and the `catch` of lines 43-57 around the run `inner`
      of one path: an exception is reported, then `close()` releases what is
      open. */
  function Caught(inner: Run): (r: Run)
    ensures r.out.failure.None?
    ensures |r.out.events| >= 1 && r.out.events[0] == Println(Starting)
    ensures |r.out.events| >= |inner.out.events| + 1 && r.out.events[1..|inner.out.events| + 1] == inner.out.events
    ensures inner.out.failure.None? ==> |r.out.events| == |inner.out.events| + 1 && r.handles == inner.handles
    ensures inner.out.failure.Some? ==>
              r.handles == AfterClose && |r.out.events| >= |inner.out.events| + 2
              && r.out.events[|inner.out.events| + 1] == Println(DeploymentFailed + Message(inner.out.failure.value))
              && r.out.events[|inner.out.events| + 2..] == CloseEvents(inner.handles)
  {
    var events := [Println(Starting)] + inner.out.events;
    assert events[1..] == inner.out.events;
    match inner.out.failure
    case None => Run(Done(events), inner.handles)
    case Some(e) =>
      var report := Println(DeploymentFailed + Message(e));
      var all := events + [report] + CloseEvents(inner.handles);
      assert all[1..|events|] == inner.out.events;
      assert all[|events|] == report && all[|events| + 1..] == CloseEvents(inner.handles);
      Run(Done(all), AfterClose)
  }
}
