# AutoDeployment, modelled in Dafny

AutoDeployment is an IntelliJ plugin. It deploys a project to a Linux host over SSH, driven by a descriptor file in one of two forms.

- **Script form (`*.sh`).** Connection settings sit in `# key = value` comment lines. The named local files are uploaded into a remote directory. Then shell history is turned off and every non-comment line is sent to an interactive shell as one block.
- **JSON form (`*.json`).** The descriptor holds a list of `Config` beans, and only the first is used. Its artifact is staged under `/tmp/AutoDeployment/`, then these commands are written to the shell:
  - the stop command;
  - `mkdir` of `/www/backup/AutoDeployment/`;
  - two backup moves;
  - the move of the staged file into place;
  - the start command chained with the log command.

`LinuxConnetionHelper` holds the SSH helpers around these runs:

- a static cache of long-lived sessions, with a monitor that sweeps dead sessions out of it;
- a progress monitor that JSch calls while a file is transferred;
- the path arithmetic of the SFTP helpers.

The project models this core.

| file | module | what it holds |
|---|---|---|
| `java_lang.dfy` | `JavaLang` | The Java and hutool string and integer semantics the code relies on: `trim`, `split("\n")`, `lastIndexOf`, throwing `substring`, 32-bit `Integer.parseInt`, `StrUtil.isBlank`, null printed as `"null"`. |
| `trace.dfy` | `Trace` | A run as an ordered trace of abstract events: log lines, connect, open shell, mkdir, upload, shell write, release. Also the projections `Writes` and `Uploads`, and ordering predicates. |
| `config.dfy` | `ConfigBean` | The `Config` bean as a class: ten nullable properties, two constructors, getters, setters. |
| `remote_paths.dfy` | `RemotePaths` | The dirname/basename splits of `downloadFile`, `uploadFile` and `removeDir`, and the at-most-two-levels directory creation of `uploadFile` over a set of existing remote directories. |
| `script_descriptor.dfy` | `ScriptDescriptor` | `findConfigsBySH`/`findConfigBySH`, the validation of `deploymentBySH` and the command-body loop. |
| `json_descriptor.dfy` | `JsonDescriptor` | The staging path, the suffix, the two backup moves and the start line of `deploymentByJSON`. |
| `deployment.dfy` | `Deployment` | Functions that say what each step of a deployment appends to the trace, against an oracle `Net` for the SSH library and the server. Lemmas about whole runs. |
| `auto_deployment.dfy` | `Orchestrator` | The class `AutoDeployment`. Its fields `session`, `channel`, `inputStream`, `outputStream` and `isClose` are updated step by step by its methods. Each method is proved to append exactly what the matching `Deployment` function says. |
| `session_cache.dfy` | `SessionCache` | The static session cache as the class `LongSessions`. Includes `longConnect`, both evictions, `createSessionMonitor`, the sweep as written, and the sweep as evidently intended. |
| `progress_monitor.dfy` | `ProgressMonitor` | `FileSftpProgressMonitor` as a class. The timer's firing is an explicit `Tick` call. |

Inputs in place of the outside world:

- **The descriptor file:** present or not, its name, extension and text.
- **The parsed JSON list:** a list of beans, null, or a parse error.
- **The timestamp string.**
- **The project base path.**
- **`Net`:** whether connecting, opening the shell channel and connecting it throw; which remote directories exist; which uploads fail, and where.
- **The session cache:** which sessions answer the liveness probe, and the order in which the map's iterator yields keys.

The model follows the code in these points, some of which a reader of the plugin's description might not expect:

- the cache key is `host + userName + password + port` with no separator;
- the JSON path validates nothing but "the list is not empty";
- in the JSON path, `set +o history` is written before the artifact is uploaded;
- the second backup target has a `.` between the timestamp and the name, while the first has none;
- `end()` of the progress monitor clears `isEnd` and leaves the timer alone;
- with the size unknown, the monitor logs `Sending progress message: t`;
- the sweep stops at its first eviction (see Findings).

## Model

Source paths are under `src/main/java/cn/xuyanwu/autodeployment/`.

| member | source | states |
|---|---|---|
| JavaLang.LastIndexOf | src/main/java/cn/xuyanwu/autodeployment/LinuxConnetionHelper.java:204 | The result is the last position holding the character, with none after it. It is -1 exactly when the character does not occur. |
| JavaLang.Substring | src/main/java/cn/xuyanwu/autodeployment/LinuxConnetionHelper.java:204 | `substring(begin, end)` succeeds exactly when 0 <= begin <= end <= length, and then holds the characters from begin up to end, in order. Otherwise it throws StringIndexOutOfBounds naming begin, end and the length. |
| JavaLang.SubstringFrom | src/main/java/cn/xuyanwu/autodeployment/AutoDeployment.java:225 | `substring(begin)` succeeds exactly when 0 <= begin <= length, and then is the suffix of length length - begin. Otherwise it throws StringIndexOutOfBounds naming begin, the length and the length. |
| JavaLang.Trim | src/main/java/cn/xuyanwu/autodeployment/AutoDeployment.java:166 | The trimmed string is no longer than the input, and neither of its ends is a character up to U+0020. |
| JavaLang.TrimIsInfix | src/main/java/cn/xuyanwu/autodeployment/AutoDeployment.java:166 | The trimmed string is a contiguous middle part of the input. Only characters up to U+0020 are removed, on either side. |
| JavaLang.TrimIdempotent | src/main/java/cn/xuyanwu/autodeployment/AutoDeployment.java:168 | Trimming twice is trimming once. |
| JavaLang.Split | src/main/java/cn/xuyanwu/autodeployment/AutoDeployment.java:73 | No piece holds a line feed. When the text has a line feed, trailing empty pieces are gone. |
| JavaLang.SplitRejoin | src/main/java/cn/xuyanwu/autodeployment/AutoDeployment.java:73 | Gluing the pieces of `split("\n")` back with line feeds gives the text minus trailing line feeds, and nothing else is lost. |
| JavaLang.ParseInt | src/main/java/cn/xuyanwu/autodeployment/AutoDeployment.java:83 | It succeeds exactly on an optional `+` or `-` followed by one or more ASCII digits whose signed value fits in 32 bits. The value is that of the digits, negated after a `-`. Every other input, the empty string included, throws NumberFormatException naming the input. |
| JavaLang.ParseIntRoundTrip | src/main/java/cn/xuyanwu/autodeployment/AutoDeployment.java:83 | Every 32-bit integer, printed in decimal, parses back to itself. |
| RemotePaths.Basename | src/main/java/cn/xuyanwu/autodeployment/LinuxConnetionHelper.java:244 | What follows the last `/` has no slash and ends the path. It is the whole path when there is no slash, and is preceded by a slash otherwise. |
| RemotePaths.Dirname | src/main/java/cn/xuyanwu/autodeployment/LinuxConnetionHelper.java:282 | It succeeds exactly when the path has a slash, and then dirname + "/" + basename == path. Otherwise it throws `substring(0, -1)`'s exception. |
| RemotePaths.LastSegment | src/main/java/cn/xuyanwu/autodeployment/LinuxConnetionHelper.java:282 | Appending "/" and a slash-free name to a directory splits back into that directory and that name. |
| RemotePaths.DownloadSplit | src/main/java/cn/xuyanwu/autodeployment/LinuxConnetionHelper.java:204-208 | It succeeds exactly when the remote file has a slash and the local path is not empty, and each failure's exception is stated. Remote dir + "/" + remote name == remote file. The local dir ends in "/" and gets one only when it lacked one. |
| RemotePaths.EnsureRemoteDir | src/main/java/cn/xuyanwu/autodeployment/LinuxConnetionHelper.java:285-297 | It creates at most two missing directories, the last being the target, and nothing when the target exists. The first of two is the target's parent. It throws `substring`'s exception exactly when the target is missing and has no slash; otherwise the only failure is the server's "No such file". |
| RemotePaths.EnsureRemoteDirReaches | src/main/java/cn/xuyanwu/autodeployment/LinuxConnetionHelper.java:285-297 | After the creations the target directory exists, so the final `cd` succeeds. |
| RemotePaths.EnsureRemoteDirMkdirs | src/main/java/cn/xuyanwu/autodeployment/LinuxConnetionHelper.java:285-297 | Each `mkdir` issued finds its parent: the first among the existing directories, the second in the first. Below a missing parent the call throws exactly when that parent cannot be made: its own parent is missing, or it is the empty path left by a target right under the root. |
| RemotePaths.EnsureRemoteDirTwoLevels | src/main/java/cn/xuyanwu/autodeployment/LinuxConnetionHelper.java:285-297 | Two missing levels below the root or an existing directory are created, the upper one first. |
| RemotePaths.EnsureRemoteDirUnderRoot | src/main/java/cn/xuyanwu/autodeployment/LinuxConnetionHelper.java:285-297 | A missing directory right under the root is made exactly when `cd` into the empty path succeeds. Otherwise the `mkdir` of the empty path throws. |
| RemotePaths.EnsureRemoteDirThreeLevels | src/main/java/cn/xuyanwu/autodeployment/LinuxConnetionHelper.java:285-297 | Three missing levels make the parent's `mkdir` at line 293 throw "No such file". |
| RemotePaths.StripTrailingSlash | src/main/java/cn/xuyanwu/autodeployment/LinuxConnetionHelper.java:388-390 | Exactly one trailing slash is removed when there is one. The empty path throws, because -1 equals length - 1. |
| RemotePaths.RemoveDirSplit | src/main/java/cn/xuyanwu/autodeployment/LinuxConnetionHelper.java:388-392 | parentDir + rmDir is the stripped path. rmDir has no slash, and parentDir is empty or ends in a slash. It fails exactly on the empty path. |
| ConfigBean.Config.constructor | src/main/java/cn/xuyanwu/autodeployment/Config.java:26-27 | `new Config()` leaves every property null. |
| ConfigBean.Config.WithLogin | src/main/java/cn/xuyanwu/autodeployment/Config.java:29-34 | `new Config(host, port, user, password)` sets those four and leaves the other six null. |
| ConfigBean.Config.SetName | src/main/java/cn/xuyanwu/autodeployment/Config.java:40-42 | `getName()` returns the value set, and no other property changes. |
| ConfigBean.Config.SetHost | src/main/java/cn/xuyanwu/autodeployment/Config.java:48-50 | `getHost()` returns the value set, and no other property changes. |
| ConfigBean.Config.SetPort | src/main/java/cn/xuyanwu/autodeployment/Config.java:56-58 | `getPort()` returns the nullable port set, and no other property changes. |
| ConfigBean.Config.SetUser | src/main/java/cn/xuyanwu/autodeployment/Config.java:64-66 | `getUser()` returns the value set, and no other property changes. |
| ConfigBean.Config.SetPassword | src/main/java/cn/xuyanwu/autodeployment/Config.java:72-74 | `getPassword()` returns the value set, and no other property changes. |
| ConfigBean.Config.SetLocalFile | src/main/java/cn/xuyanwu/autodeployment/Config.java:80-82 | `getLocalFile()` returns the value set, and no other property changes. |
| ConfigBean.Config.SetRemoteFile | src/main/java/cn/xuyanwu/autodeployment/Config.java:88-90 | `getRemoteFile()` returns the value set, and no other property changes. |
| ConfigBean.Config.SetStartCMD | src/main/java/cn/xuyanwu/autodeployment/Config.java:96-98 | `getStartCMD()` returns the value set, and no other property changes. |
| ConfigBean.Config.SetStopCMD | src/main/java/cn/xuyanwu/autodeployment/Config.java:104-106 | `getStopCMD()` returns the value set, and no other property changes. |
| ConfigBean.Config.SetLogCMD | src/main/java/cn/xuyanwu/autodeployment/Config.java:112-114 | `getLogCMD()` returns the value set, and no other property changes. |
| ConfigBean.Config.GetName | src/main/java/cn/xuyanwu/autodeployment/Config.java:36-38 | `getName()` returns the bean's name. |
| ConfigBean.Config.GetHost | src/main/java/cn/xuyanwu/autodeployment/Config.java:44-46 | `getHost()` returns the bean's host. |
| ConfigBean.Config.GetPort | src/main/java/cn/xuyanwu/autodeployment/Config.java:52-54 | `getPort()` returns the bean's nullable port. |
| ConfigBean.Config.GetUser | src/main/java/cn/xuyanwu/autodeployment/Config.java:60-62 | `getUser()` returns the bean's user. |
| ConfigBean.Config.GetPassword | src/main/java/cn/xuyanwu/autodeployment/Config.java:68-70 | `getPassword()` returns the bean's password. |
| ConfigBean.Config.GetLocalFile | src/main/java/cn/xuyanwu/autodeployment/Config.java:76-78 | `getLocalFile()` returns the bean's local file. |
| ConfigBean.Config.GetRemoteFile | src/main/java/cn/xuyanwu/autodeployment/Config.java:84-86 | `getRemoteFile()` returns the bean's remote file. |
| ConfigBean.Config.GetStartCMD | src/main/java/cn/xuyanwu/autodeployment/Config.java:92-94 | `getStartCMD()` returns the bean's start command. |
| ConfigBean.Config.GetStopCMD | src/main/java/cn/xuyanwu/autodeployment/Config.java:100-102 | `getStopCMD()` returns the bean's stop command. |
| ConfigBean.Config.GetLogCMD | src/main/java/cn/xuyanwu/autodeployment/Config.java:108-110 | `getLogCMD()` returns the bean's log command. |
| ScriptDescriptor.ConfigValue | src/main/java/cn/xuyanwu/autodeployment/AutoDeployment.java:166-168 | A line yields a value exactly when its trimmed form starts with the prefix. The value is the rest of that trimmed line after the prefix, with only characters up to U+0020 removed around it. |
| ScriptDescriptor.ConfigValueTrimmed | src/main/java/cn/xuyanwu/autodeployment/AutoDeployment.java:168 | A value has no blanks left to trim. |
| ScriptDescriptor.Configs | src/main/java/cn/xuyanwu/autodeployment/AutoDeployment.java:163-172 | There are at most as many values as lines. |
| ScriptDescriptor.FindConfigsBySH | src/main/java/cn/xuyanwu/autodeployment/AutoDeployment.java:163-172 | The list loop returns the values of the lines carrying the prefix, in line order. |
| ScriptDescriptor.ConfigsAppend | src/main/java/cn/xuyanwu/autodeployment/AutoDeployment.java:165-170 | The values of two runs of lines are those of the first followed by those of the second. |
| ScriptDescriptor.ConfigsMembers | src/main/java/cn/xuyanwu/autodeployment/AutoDeployment.java:163-172 | A value is found if and only if some line carries it. |
| ScriptDescriptor.ConfigsFound | src/main/java/cn/xuyanwu/autodeployment/AutoDeployment.java:165-169 | Every line carrying the prefix contributes its value. |
| ScriptDescriptor.ConfigsFrom | src/main/java/cn/xuyanwu/autodeployment/AutoDeployment.java:165-169 | Every value found comes from a line carrying it. |
| ScriptDescriptor.FirstConfigIsFirstMatch | src/main/java/cn/xuyanwu/autodeployment/AutoDeployment.java:152-158 | The first value found is the value of the first line carrying the prefix, or null when none does. |
| ScriptDescriptor.FindConfigBySH | src/main/java/cn/xuyanwu/autodeployment/AutoDeployment.java:152-158 | It returns null if and only if no line carries the prefix, and otherwise the value of the first line that does. |
| ScriptDescriptor.NonBlank | src/main/java/cn/xuyanwu/autodeployment/AutoDeployment.java:92 | `filter(StrUtil::isNotBlank)` keeps no more values than it is given. |
| ScriptDescriptor.NonBlankMembers | src/main/java/cn/xuyanwu/autodeployment/AutoDeployment.java:92 | A value is kept by the filter if and only if it is among the inputs and not blank. |
| ScriptDescriptor.NonBlankAppend | src/main/java/cn/xuyanwu/autodeployment/AutoDeployment.java:92 | The filter keeps order: filtering two runs of values gives the survivors of the first, then those of the second. |
| ScriptDescriptor.NonBlankKeepsAll | src/main/java/cn/xuyanwu/autodeployment/AutoDeployment.java:92 | Values none of which is blank pass the filter unchanged. |
| ScriptDescriptor.CheckScript | src/main/java/cn/xuyanwu/autodeployment/AutoDeployment.java:67-112 | The checks abort in the source's order, each exactly when the earlier ones passed and its own fails: a blank text, a missing port, a port that is not a 32-bit integer, then a blank host, username, password and remote directory. The script is valid if and only if every check passes. A valid script's port is the parsed first port value; its host, username, password and remote directory are the first values of their lines; its local files are the non-blank `localFile` values in order. |
| ScriptDescriptor.ReadScript | src/main/java/cn/xuyanwu/autodeployment/AutoDeployment.java:64-112 | The checks performed step by step with `findConfigBySH` give exactly `CheckScript`. |
| ScriptDescriptor.CommandBody | src/main/java/cn/xuyanwu/autodeployment/AutoDeployment.java:137-143 | The `StringBuilder` loop builds every non-comment line followed by "\n", in order. |
| ScriptDescriptor.BodyEndsWithLineFeed | src/main/java/cn/xuyanwu/autodeployment/AutoDeployment.java:137-143 | The body is empty or ends with a line feed. |
| ScriptDescriptor.BodyAppend | src/main/java/cn/xuyanwu/autodeployment/AutoDeployment.java:139-143 | The body keeps line order: the body of two runs of lines is their bodies concatenated. |
| ScriptDescriptor.CommentLineDropped | src/main/java/cn/xuyanwu/autodeployment/AutoDeployment.java:141 | A comment line contributes nothing, wherever it stands. |
| ScriptDescriptor.BodyOfUncommented | src/main/java/cn/xuyanwu/autodeployment/AutoDeployment.java:137-143 | Without comments, the body is the lines joined by line feeds, plus one, so blank lines are kept. |
| ScriptDescriptor.UncommentedScriptSentVerbatim | src/main/java/cn/xuyanwu/autodeployment/AutoDeployment.java:137-144 | A script without comment lines is sent as written. Only its trailing line feeds are collapsed into one. |
| JsonDescriptor.StagingPathLocation | src/main/java/cn/xuyanwu/autodeployment/AutoDeployment.java:212-216 | The artifact is staged directly in /tmp/AutoDeployment, as timestamp + "." + local basename. |
| JsonDescriptor.Suffix | src/main/java/cn/xuyanwu/autodeployment/AutoDeployment.java:225 | The suffix exists exactly when the remote file has a dot. It starts with that last dot and ends the remote file. Without a dot, `substring(-1)` throws. |
| JsonDescriptor.FirstBackupLocation | src/main/java/cn/xuyanwu/autodeployment/AutoDeployment.java:226 | The first backup lands in /www/backup/AutoDeployment as timestamp + remote basename, with no dot between them. |
| JsonDescriptor.SecondBackup | src/main/java/cn/xuyanwu/autodeployment/AutoDeployment.java:227-229 | The source is the remote file without the suffix. The target is the dotted backup name cut by the suffix's length, and it throws exactly when the suffix is longer than that name. |
| JsonDescriptor.SecondBackupStripsExtension | src/main/java/cn/xuyanwu/autodeployment/AutoDeployment.java:225-229 | When the last dot lies in the basename, both operands of the second move are the full names with that one extension removed. |
| Deployment.WritelnStep | src/main/java/cn/xuyanwu/autodeployment/AutoDeployment.java:239-244 | cmd + "\n" is written exactly when an output stream is present and the object is not closed. Otherwise it is a silent no-op. A null command throws only when it would have been written. |
| Deployment.CloseReleasesPresent | src/main/java/cn/xuyanwu/autodeployment/AutoDeployment.java:249-259 | `close()` releases exactly the resources present, each once, in the order input stream, output stream, channel, session. |
| Deployment.CloseIsFinal | src/main/java/cn/xuyanwu/autodeployment/AutoDeployment.java:249-259 | After `close()`, a second close releases nothing and every `writeln` is dropped. |
| Deployment.ConnectStep | src/main/java/cn/xuyanwu/autodeployment/AutoDeployment.java:116-120 | Connecting yields Connect, or Connect then OpenShell, with no write or upload. It succeeds exactly when none of the three calls throws, and then all four fields are set. |
| Deployment.UploadFile | src/main/java/cn/xuyanwu/autodeployment/LinuxConnetionHelper.java:280-313 | A successful upload's remote directory exists afterwards. A remote path without a slash throws before any event. No known directory is forgotten. |
| Deployment.UploadFileEvents | src/main/java/cn/xuyanwu/autodeployment/LinuxConnetionHelper.java:280-313 | An upload either throws before any event or reaches the transfer: the directories made, both path log lines, the put. One that does not throw reached it. |
| Deployment.UploadFileQuiet | src/main/java/cn/xuyanwu/autodeployment/LinuxConnetionHelper.java:280-313 | An upload writes nothing to the shell and puts at most its own file. One that does not throw puts exactly its own file. |
| Deployment.UploadPlanAt | src/main/java/cn/xuyanwu/autodeployment/AutoDeployment.java:128-130 | The i-th upload of the script form goes from basePath + f to remoteDir + (f after its last "/"), with no separator added. |
| Deployment.UploadPlan | src/main/java/cn/xuyanwu/autodeployment/AutoDeployment.java:126-132 | The script form plans one upload per declared local file. |
| Deployment.UploadTurn | src/main/java/cn/xuyanwu/autodeployment/AutoDeployment.java:127-131 | A turn of the upload loop forgets no known remote directory. |
| Deployment.UploadTurnQuiet | src/main/java/cn/xuyanwu/autodeployment/AutoDeployment.java:127-131 | One turn of the upload loop writes nothing, and uploads exactly its file unless it throws. |
| Deployment.ScriptUploads | src/main/java/cn/xuyanwu/autodeployment/AutoDeployment.java:126-132 | The upload loop writes nothing to the shell. When it does not throw, its uploads are exactly the planned ones in declared order. |
| Deployment.ScriptUploadsSnoc | src/main/java/cn/xuyanwu/autodeployment/AutoDeployment.java:126-132 | One more file adds exactly one turn after the earlier ones, which see the directories they made. |
| Deployment.ScriptUploadsStop | src/main/java/cn/xuyanwu/autodeployment/AutoDeployment.java:126-132 | The loop stops at the first exception, and later files are never tried. |
| Deployment.ScriptRun | src/main/java/cn/xuyanwu/autodeployment/AutoDeployment.java:64-112 | An invalid script logs its one abort message and nothing else: no connect, upload or write, and no field changes. |
| Deployment.ScriptSteps | src/main/java/cn/xuyanwu/autodeployment/AutoDeployment.java:110-144 | The script path never closes the object. |
| Deployment.ScriptCommandsAnnounces | src/main/java/cn/xuyanwu/autodeployment/AutoDeployment.java:134-144 | The command part always logs the start announcement, open shell or not, and otherwise only writes to the shell. |
| Deployment.ScriptCommandsWrites | src/main/java/cn/xuyanwu/autodeployment/AutoDeployment.java:134-144 | The command part uploads nothing. On an open shell it writes "set +o history", then the body. |
| Deployment.ScriptStepsSucceed | src/main/java/cn/xuyanwu/autodeployment/AutoDeployment.java:110-144 | A valid script run that completes writes exactly "set +o history" and the body. It uploads exactly the planned files in order, and no upload follows a write. |
| Deployment.ScriptStepsWrites | src/main/java/cn/xuyanwu/autodeployment/AutoDeployment.java:134-144 | A completed script run writes exactly history-off and the body. |
| Deployment.ScriptStepsUploads | src/main/java/cn/xuyanwu/autodeployment/AutoDeployment.java:126-132 | A completed script run uploads exactly the planned files. |
| Deployment.ScriptStepsOrder | src/main/java/cn/xuyanwu/autodeployment/AutoDeployment.java:126-144 | In a completed script run every upload precedes every shell write. |
| Deployment.ScriptStepsWarn | src/main/java/cn/xuyanwu/autodeployment/AutoDeployment.java:110-112 | The missing-localFile warning opens the run if and only if no local file is declared. The run goes on either way. |
| Deployment.BackupMovesQuiet | src/main/java/cn/xuyanwu/autodeployment/AutoDeployment.java:220-236 | The backup-and-start sequence uploads nothing. |
| Deployment.BackupMoves | src/main/java/cn/xuyanwu/autodeployment/AutoDeployment.java:220-236 | The backup sequence only writes to the shell, and writes nothing without an open output stream. |
| Deployment.BackupMovesSucceed | src/main/java/cn/xuyanwu/autodeployment/AutoDeployment.java:220-236 | A completed backup had a stop command, a dotted remote file and a second target. It wrote, in order: stop, mkdir, first move, second move, staged move, start line. |
| Deployment.BackupTail | src/main/java/cn/xuyanwu/autodeployment/AutoDeployment.java:233-236 | The last three writes are the second backup move, the move of the staged file onto the remote file, and the start line. |
| Deployment.BackupMovesNoDot | src/main/java/cn/xuyanwu/autodeployment/AutoDeployment.java:225 | Without a dot in the remote file, `substring` throws after exactly the stop and mkdir writes. |
| Deployment.BackupAndStartWrites | src/main/java/cn/xuyanwu/autodeployment/AutoDeployment.java:219-236 | After the "upload done" log line: no upload. Exactly the six backup-and-start writes on success; only stop and mkdir when the remote file has no dot. |
| Deployment.BackupAndStart | src/main/java/cn/xuyanwu/autodeployment/AutoDeployment.java:219-236 | The "upload done" line comes first, and only shell writes follow it. |
| Deployment.StageAndDeploy | src/main/java/cn/xuyanwu/autodeployment/AutoDeployment.java:216-236 | The staging upload's events open the run. When that upload throws, the whole step throws with exactly its events and exception. |
| Deployment.StageAndDeployOrder | src/main/java/cn/xuyanwu/autodeployment/AutoDeployment.java:216-236 | At most the artifact is uploaded, to its staging path, and no upload follows a shell write. |
| Deployment.StageAndDeploySucceeds | src/main/java/cn/xuyanwu/autodeployment/AutoDeployment.java:216-236 | A completed staging on an open shell had a stop command, a dotted remote file and a second target. It uploaded exactly the artifact and wrote exactly the six backup-and-start lines. |
| Deployment.JsonCommands | src/main/java/cn/xuyanwu/autodeployment/AutoDeployment.java:208-236 | On an open shell the first event is the "set +o history" write. A null local or remote file throws NullPointerException before anything is uploaded. |
| Deployment.JsonRun | src/main/java/cn/xuyanwu/autodeployment/AutoDeployment.java:191-237 | An empty list logs "no remote host" and does nothing else. A first bean without a port throws before connecting. |
| Deployment.JsonCommandsSucceed | src/main/java/cn/xuyanwu/autodeployment/AutoDeployment.java:208-236 | Completed JSON commands stage exactly the artifact at /tmp/AutoDeployment/ts.name and write exactly history-off plus the six backup-and-start lines. Only history-off is written before the upload; the six lines follow it. |
| Deployment.JsonRunSucceeds | src/main/java/cn/xuyanwu/autodeployment/AutoDeployment.java:191-237 | A completed JSON deployment uses the first bean: connect and open the shell first, then the exact writes and upload of `JsonCommandsSucceed`. Only history-off is written before the upload. |
| Deployment.JsonCommandsNoDot | src/main/java/cn/xuyanwu/autodeployment/AutoDeployment.java:212-225 | With no dot in the remote file, the run throws after history-off, the staging upload, stop and mkdir. Only history-off precedes the upload. The staged file is never moved and nothing is started. |
| Deployment.JsonNoDotFails | src/main/java/cn/xuyanwu/autodeployment/AutoDeployment.java:191-237 | The same failure for a whole JSON deployment whose connection succeeds, with only history-off written before the upload. |
| Deployment.DeploymentRun | src/main/java/cn/xuyanwu/autodeployment/AutoDeployment.java:37-59 | Nothing escapes. A missing descriptor logs only "no descriptor". Otherwise it announces, then "json" takes the JSON path and "sh" the script path. Any other extension logs "unsupported" only. |
| Deployment.Caught | src/main/java/cn/xuyanwu/autodeployment/AutoDeployment.java:43-57 | The path's events follow the announcement unchanged. An exception is then logged as "自动部署失败！" + its message and followed by `close()`'s releases, leaving every field cleared. |
| Deployment.Dispatch | src/main/java/cn/xuyanwu/autodeployment/AutoDeployment.java:45-52 | No path closes the object. An extension other than "json" and "sh" logs "unsupported" and changes nothing. |
| Orchestrator.AutoDeployment.constructor | src/main/java/cn/xuyanwu/autodeployment/AutoDeployment.java:31-35 | A new object has no session, channel or streams, is not closed, and has sent nothing. |
| Orchestrator.AutoDeployment.Deployment | src/main/java/cn/xuyanwu/autodeployment/AutoDeployment.java:37-59 | It appends exactly `DeploymentRun`'s events and leaves the fields as `DeploymentRun` says. |
| Orchestrator.AutoDeployment.RunDescriptor | src/main/java/cn/xuyanwu/autodeployment/AutoDeployment.java:45-52 | The `try` block takes the path the extension names, as `Dispatch` says. |
| Orchestrator.AutoDeployment.Writeln | src/main/java/cn/xuyanwu/autodeployment/AutoDeployment.java:239-244 | It appends exactly `WritelnStep`'s events and changes no field. |
| Orchestrator.AutoDeployment.Close | src/main/java/cn/xuyanwu/autodeployment/AutoDeployment.java:249-259 | It appends the releases of `CloseEvents`, then every resource field is null and `isClose` is set. |
| Orchestrator.AutoDeployment.ConnectShell | src/main/java/cn/xuyanwu/autodeployment/AutoDeployment.java:116-120 | It connects step by step, each field set as soon as its call returns, as `ConnectStep` says. |
| Orchestrator.AutoDeployment.Backup | src/main/java/cn/xuyanwu/autodeployment/AutoDeployment.java:220-236 | It writes the stop, backup and start commands one by one, as `BackupMoves` says. |
| Orchestrator.AutoDeployment.BackupTailWrites | src/main/java/cn/xuyanwu/autodeployment/AutoDeployment.java:227-236 | It writes the last three commands, as `BackupTail` says. |
| Orchestrator.AutoDeployment.DeploymentByJSON | src/main/java/cn/xuyanwu/autodeployment/AutoDeployment.java:191-237 | It performs the JSON path step by step, exactly as `JsonRun` says. |
| Orchestrator.AutoDeployment.UploadOne | src/main/java/cn/xuyanwu/autodeployment/AutoDeployment.java:127-131 | It performs one turn of the upload loop, as `UploadTurn` says. |
| Orchestrator.AutoDeployment.UploadFiles | src/main/java/cn/xuyanwu/autodeployment/AutoDeployment.java:126-132 | The loop over the local files appends exactly `ScriptUploads`'s events and stops at the first exception. |
| Orchestrator.AutoDeployment.DeploymentBySH | src/main/java/cn/xuyanwu/autodeployment/AutoDeployment.java:64-112 | It performs the script path step by step, exactly as `ScriptRun` says. |
| Orchestrator.AutoDeployment.RunScript | src/main/java/cn/xuyanwu/autodeployment/AutoDeployment.java:110-144 | A valid script: warn, connect, upload, history off, send the body, exactly as `ScriptSteps` says. |
| SessionCache.CacheKeyShift | src/main/java/cn/xuyanwu/autodeployment/LinuxConnetionHelper.java:61 | The key has no separator, so moving characters from the host to the user name gives the same key. |
| SessionCache.CacheKey | src/main/java/cn/xuyanwu/autodeployment/LinuxConnetionHelper.java:61 | The key starts with the host, ends with the decimal port, and is exactly the four parts long. |
| SessionCache.StartMonitorOnce | src/main/java/cn/xuyanwu/autodeployment/LinuxConnetionHelper.java:516-526 | However often `createSessionMonitor` runs, the monitor is constructed and started exactly once, and the cache is untouched. |
| SessionCache.StartMonitor | src/main/java/cn/xuyanwu/autodeployment/LinuxConnetionHelper.java:516-526 | Afterwards the monitor is started. It is constructed anew if and only if it was not started. The cache is untouched. |
| SessionCache.EvictKeyIdempotent | src/main/java/cn/xuyanwu/autodeployment/LinuxConnetionHelper.java:142-148 | Eviction by key disconnects and removes only that key. A second eviction of it does nothing. |
| SessionCache.EvictKeyValid | src/main/java/cn/xuyanwu/autodeployment/LinuxConnetionHelper.java:142-148 | Eviction by key keeps the cache consistent. |
| SessionCache.EvictKey | src/main/java/cn/xuyanwu/autodeployment/LinuxConnetionHelper.java:142-148 | The key is gone, every other key keeps its session, and its session is disconnected exactly when it was cached. The monitor and the session numbering are untouched. |
| SessionCache.Open | src/main/java/cn/xuyanwu/autodeployment/LinuxConnetionHelper.java:63-83 | Opening succeeds exactly when connecting does not throw. A new session, the next by number, is cached under the key, with every other entry kept. A failure throws the connect error and changes nothing. |
| SessionCache.LongConnected | src/main/java/cn/xuyanwu/autodeployment/LinuxConnetionHelper.java:60-97 | Other keys are never touched. A live cached session is returned with the cache unchanged. An absent or dead one is disconnected if present and replaced by a fresh session, unless connecting throws. Success leaves the monitor started. |
| SessionCache.LongConnectValid | src/main/java/cn/xuyanwu/autodeployment/LinuxConnetionHelper.java:60-97 | `longConnect` keeps the cache consistent: sessions are opened ones, none is cached twice, and the monitor is started at most once. |
| SessionCache.EvictSessionRemovesOne | src/main/java/cn/xuyanwu/autodeployment/LinuxConnetionHelper.java:155-166 | Eviction by session removes at most one entry, one holding exactly that session, and otherwise changes nothing. |
| SessionCache.EvictSession | src/main/java/cn/xuyanwu/autodeployment/LinuxConnetionHelper.java:155-166 | Afterwards the session is not cached. Exactly the entries holding it are removed, and it is disconnected exactly when it was cached. |
| SessionCache.SweepAsWrittenEvictsAtMostOne | src/main/java/cn/xuyanwu/autodeployment/LinuxConnetionHelper.java:680-691 | The sweep as written evicts no live session and at most one dead one. It throws ConcurrentModificationException exactly when the evicted key was not the last visited. |
| SessionCache.SweepLeavesDeadSession | src/main/java/cn/xuyanwu/autodeployment/LinuxConnetionHelper.java:682-688 | With two dead sessions, the sweep as written evicts one, throws, and leaves the other cached. |
| SessionCache.SweepAsWritten | src/main/java/cn/xuyanwu/autodeployment/LinuxConnetionHelper.java:680-691 | The sweep as written only removes entries, keeps every live one, and removes at most one. |
| SessionCache.SweepAllEvictsDead | src/main/java/cn/xuyanwu/autodeployment/LinuxConnetionHelper.java:680-691 | A full sweep evicts exactly the dead sessions and keeps every live one. |
| SessionCache.SweepAllSurvivors | src/main/java/cn/xuyanwu/autodeployment/LinuxConnetionHelper.java:680-691 | After a full sweep over some keys, exactly the entries not visited, or visited and alive, remain. |
| SessionCache.SweepAllValid | src/main/java/cn/xuyanwu/autodeployment/LinuxConnetionHelper.java:680-691 | A full sweep keeps the cache consistent. |
| SessionCache.SweptAll | src/main/java/cn/xuyanwu/autodeployment/LinuxConnetionHelper.java:680-691 | The intended sweep only removes entries, keeps every live one, and leaves no visited dead one. |
| SessionCache.LongSessions.constructor | src/main/java/cn/xuyanwu/autodeployment/LinuxConnetionHelper.java:19 | The cache starts empty, with no monitor. |
| SessionCache.LongSessions.TestSessionIsDown | src/main/java/cn/xuyanwu/autodeployment/LinuxConnetionHelper.java:116-135 | A key counts as alive if and only if it is cached and its session answers the probe. |
| SessionCache.LongSessions.CreateSessionMonitor | src/main/java/cn/xuyanwu/autodeployment/LinuxConnetionHelper.java:516-526 | It starts the monitor only when there is none, as `StartMonitor` says. |
| SessionCache.LongSessions.CloseLongSessionByKey | src/main/java/cn/xuyanwu/autodeployment/LinuxConnetionHelper.java:142-148 | It disconnects and removes the key's session if present, as `EvictKey` says. |
| SessionCache.LongSessions.LongConnect | src/main/java/cn/xuyanwu/autodeployment/LinuxConnetionHelper.java:60-97 | The method, including its one recursive call, returns and updates the cache exactly as `LongConnected` says. |
| SessionCache.LongSessions.CloseLongSessionBySession | src/main/java/cn/xuyanwu/autodeployment/LinuxConnetionHelper.java:155-166 | The iterator loop, in any key order, does exactly what `EvictSession` says. |
| SessionCache.LongSessions.SessionMonitorRun | src/main/java/cn/xuyanwu/autodeployment/LinuxConnetionHelper.java:680-691 | The sweep loop as written, in the iterator's order, does exactly what `SweepAsWritten` says. |
| SessionCache.LongSessions.SweepAll | src/main/java/cn/xuyanwu/autodeployment/LinuxConnetionHelper.java:680-691 | The intended sweep loop does exactly what `SweptAll` says. |
| ProgressMonitor.StepsKeepValid | src/main/java/cn/xuyanwu/autodeployment/LinuxConnetionHelper.java:577-599 | Every operation keeps the invariant that a scheduled monitor has a timer and a used task. |
| ProgressMonitor.CountAfterEnd | src/main/java/cn/xuyanwu/autodeployment/LinuxConnetionHelper.java:620-624 | Once `isEnd` is set, `count` returns false and changes nothing. |
| ProgressMonitor.CountWhileRunning | src/main/java/cn/xuyanwu/autodeployment/LinuxConnetionHelper.java:620-641 | A running monitor accepts the bytes, adds them, is scheduled afterwards and logs nothing. |
| ProgressMonitor.CountAfterStopThrows | src/main/java/cn/xuyanwu/autodeployment/LinuxConnetionHelper.java:591-599 | Restarting a stopped monitor reschedules its TimerTask, so `count` throws IllegalStateException and adds nothing. |
| ProgressMonitor.TickReports | src/main/java/cn/xuyanwu/autodeployment/LinuxConnetionHelper.java:557-563 | A tick with bytes missing logs the byte count and one line: a percentage when the size is known, otherwise "Sending progress message". Nothing else changes. |
| ProgressMonitor.TickFinishesThenStops | src/main/java/cn/xuyanwu/autodeployment/LinuxConnetionHelper.java:557-586 | A tick that sees every byte counted sets `isEnd` and logs nothing. The next tick stops the timer. |
| ProgressMonitor.StopIsSafe | src/main/java/cn/xuyanwu/autodeployment/LinuxConnetionHelper.java:577-586 | `stop()` without a timer does nothing. Stopping twice is stopping once. |
| ProgressMonitor.EndReopensCount | src/main/java/cn/xuyanwu/autodeployment/LinuxConnetionHelper.java:632-636 | As written, `end()` reopens a finished monitor, which then counts past the file size. |
| ProgressMonitor.EndIntendedStopsCount | src/main/java/cn/xuyanwu/autodeployment/LinuxConnetionHelper.java:632-636 | With `end()` setting `isEnd`, no byte is accepted after it. |
| ProgressMonitor.Stopped | src/main/java/cn/xuyanwu/autodeployment/LinuxConnetionHelper.java:577-586 | Afterwards there is no timer, and a monitor that had one is unscheduled. Without a timer nothing changes. The count, `isEnd` and the log are kept. |
| ProgressMonitor.Started | src/main/java/cn/xuyanwu/autodeployment/LinuxConnetionHelper.java:591-599 | Afterwards there is a timer and a used task. It throws IllegalStateException exactly when the task was used before, and otherwise the task is scheduled. The count, `isEnd` and the log are kept. |
| ProgressMonitor.Counted | src/main/java/cn/xuyanwu/autodeployment/LinuxConnetionHelper.java:620-630 | It returns false exactly when `isEnd` is set. Returning true adds the bytes and leaves the monitor scheduled; a reused task throws and adds nothing. |
| ProgressMonitor.Ticked | src/main/java/cn/xuyanwu/autodeployment/LinuxConnetionHelper.java:557-572 | `isEnd` is set afterwards exactly when it was or every byte is counted. The tick throws exactly when it must log without a logger. Otherwise the log is unchanged or grows by the byte count and one more line. |
| ProgressMonitor.Ended | src/main/java/cn/xuyanwu/autodeployment/LinuxConnetionHelper.java:632-636 | `isEnd` is cleared, as written, and the count, the scheduling and the log are kept. |
| ProgressMonitor.FileSftpProgressMonitor.constructor | src/main/java/cn/xuyanwu/autodeployment/LinuxConnetionHelper.java:548-555 | A new monitor has counted nothing, is not ended and has no timer. |
| ProgressMonitor.FileSftpProgressMonitor.Stop | src/main/java/cn/xuyanwu/autodeployment/LinuxConnetionHelper.java:577-586 | It cancels and drops the timer if there is one, as `Stopped` says. |
| ProgressMonitor.FileSftpProgressMonitor.Start | src/main/java/cn/xuyanwu/autodeployment/LinuxConnetionHelper.java:591-599 | It creates a timer if needed and schedules the task, which throws if the task was scheduled before, as `Started` says. |
| ProgressMonitor.FileSftpProgressMonitor.Count | src/main/java/cn/xuyanwu/autodeployment/LinuxConnetionHelper.java:620-630 | It does what `Counted` says. |
| ProgressMonitor.FileSftpProgressMonitor.Tick | src/main/java/cn/xuyanwu/autodeployment/LinuxConnetionHelper.java:557-572 | One firing of the timer does what `Ticked` says. |
| ProgressMonitor.FileSftpProgressMonitor.End | src/main/java/cn/xuyanwu/autodeployment/LinuxConnetionHelper.java:632-636 | It clears `isEnd`, as written. |

## Left out

- JSch itself is replaced by the `Net` oracle and by Connect, OpenShell, MakeDir, Upload, Write and Release events. This covers connecting, channels, SFTP `cd`/`mkdir`/`put` and the exec probe. `openChannelSftp`, `listFiles`, `removeFile`, `execCmd`, `execShellCmd`, the other two `uploadFile` overloads and the JSch calls of `downloadFile` are not modelled as operations. Their path arithmetic is (`DownloadSplit`, `RemoveDirSplit`, `Basename`).
- The worker thread of `deployment()` is run synchronously. The output-pump thread `autoPrintHostLog` is left out, so remote output never appears in the log.
- The `java.util.Timer` threads of both monitors are left out. A tick of the progress monitor is an explicit `Tick` call, and a sweep is an explicit call with the iteration order as a parameter. The double-checked locking of `createSessionMonitor` is left out.
- Reading the descriptor file, its existence checks, hutool's `extName` and fastjson's `parseArray` are inputs. So is `SimpleDateFormat` on the current date.
- `printStackTrace`, the slf4j logger and the `init` callback of the progress monitor have no visible effect on the trace.
- The progress monitor's own log lines are a separate `seq<Progress>` and are not part of the deployment trace. `uploadFile` does not model the monitor it creates.
- The percentage value and its `NumberFormat` rendering are floating point and locale dependent. They are the abstract `Percent(transfered, fileSize)`.
- An IOException from writing to the shell stream, and an exception from closing a resource, are not modelled.
- The IntelliJ UI files (`Toolbar`, `AutoDeploymentWindow`, `AutoDeploymentWindowFactory`) are not part of this model.
- ProgressMonitor.Counted: `transfered` and `fileSize` are unbounded integers, so the 64-bit `long` overflow of `add` is not modelled.
- SessionCache.CacheKey: host, user name and password are taken to be non-null. A null would print as "null" in the key.
- JavaLang.ParseInt: only ASCII digits are accepted. `Integer.parseInt` also accepts other Unicode decimal digits.
- JavaLang.Message: the messages follow JDK 17, except that the NullPointerException message is taken to be null, printed as "null", as before JDK 15. Helpful NullPointerException messages are not modelled. Both `substring` forms report "begin b, end e, length l", as in JDK 17. On JDK 9 to 11 the one-argument form, which fails at AutoDeployment.java:225, reports "String index out of range: b" instead. JDK 8 words the two-argument form in the same "String index out of range" style, naming one number.
- JavaLang.Substring: lengths and indices count Dafny characters, which are Unicode scalar values. Java counts UTF-16 code units, so the two differ on text outside the Basic Multilingual Plane.
- RemotePaths.EnsureRemoteDir: only the missing-parent failure of `mkdir` is modelled, with the reply abstracted to "No such file". Other `mkdir` failures, such as a lack of permission, are not. Remote paths are taken as absolute: a successful `cd` moves the SFTP working directory, which the model does not track, so a relative remote directory resolves as if from the start directory. Whether `cd` into the empty path succeeds is an input, the empty path's membership in the set of directories.
- Deployment.ConnectStep: the outcome of connecting comes from the `Net` oracle whatever the host is. JSch's `getSession` rejects a null host, which the oracle must then report as a connect error.

## Findings

| source | as written | input that shows it | evidently intended | confidence | as-written member | corrected member |
|---|---|---|---|---|---|---|
| src/main/java/cn/xuyanwu/autodeployment/LinuxConnetionHelper.java:682-688 | The sweep removes a dead key with `closeLongSessionByKey` while iterating the map's key set. The iterator's next `next()` then throws ConcurrentModificationException. It is not caught, so it ends the monitor's `Timer` thread. `sessionMonitor` stays non-null (line 517), so no later sweep ever runs. | The cache `{"a" -> 0, "b" -> 1}`, both sessions dead, visited in order a, b. "a" is evicted, the sweep throws, and the dead "b" stays cached. | Every dead session is evicted, through the iterator's own `remove()`. | high (not executed) | SessionCache.SweepLeavesDeadSession | SessionCache.SweepAllEvictsDead |
| src/main/java/cn/xuyanwu/autodeployment/LinuxConnetionHelper.java:632-636 | `end()` sets `isEnd` to false. | A monitor for 10 bytes: `count(10)`, then a tick marks the end. After `end()`, `count(5)` is accepted and the count reaches 15. | `end()` marks the transfer as ended, and no bytes are counted after it. | medium (not executed) | ProgressMonitor.EndReopensCount | ProgressMonitor.EndIntendedStopsCount |
