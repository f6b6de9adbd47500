/** The script form of the deployment descriptor (`deploymentBySH`,
    `findConfigBySH`, `findConfigsBySH`): configuration sits in `# key = value`
    comment lines, every other line is the command body sent after upload. */
module ScriptDescriptor {
  import opened JavaLang

  const HostKey: string := "# host ="
  const PortKey: string := "# port ="
  const UsernameKey: string := "# username ="
  const PasswordKey: string := "# password ="
  const RemoteDirKey: string := "# remoteDir ="
  const LocalFileKey: string := "# localFile ="

  const PortMissing: string := "没有找到 port 的值！"
  const PortNotNumber: string := "port 的值不是数字！"
  const HostMissing: string := "没有找到 host 的值！"
  const UsernameMissing: string := "没有找到 username 的值！"
  const PasswordMissing: string := "没有找到 password 的值！"
  const RemoteDirMissing: string := "没有找到 remoteDir 的值！"

  function EmptyFileMessage(fileName: string): string {
    fileName + " 文件是空的！"
  }

  // ---------------------------------------------------------------- # key = value

  /** The value `line` gives for `prefix`: when the trimmed line starts with
      the prefix, the rest of it, trimmed. */
  function ConfigValue(line: string, prefix: string): (v: Option<string>)
    ensures v.Some? <==> StartsWith(Trim(line), prefix)
    ensures StartsWith(Trim(line), prefix) ==> exists i :: PaddedAt(Trim(line)[|prefix|..], i, v.value)
  {
    var t := Trim(line);
    if StartsWith(t, prefix) then
      var rest := t[|prefix|..];
      TrimIsInfix(rest);
      assert PaddedAt(rest, |rest| - |TrimStart(rest)|, Trim(rest));
      Some(Trim(rest))
    else None
  }

  /** A configuration value has no surrounding blanks to trim. */
  lemma ConfigValueTrimmed(line: string, prefix: string)
    requires ConfigValue(line, prefix).Some?
    ensures Trim(ConfigValue(line, prefix).value) == ConfigValue(line, prefix).value
  {
    TrimIdempotent(Trim(line)[|prefix|..]);
  }

  /** The values of every line carrying `prefix`, in line order. */
  function Configs(lines: seq<string>, prefix: string): (vs: seq<string>)
    ensures |vs| <= |lines|
  {
    if |lines| == 0 then []
    else
      var v := ConfigValue(lines[|lines| - 1], prefix);
      Configs(lines[..|lines| - 1], prefix) + (if v.Some? then [v.value] else [])
  }

  /** `findConfigsBySH`. */
  method FindConfigsBySH(lines: seq<string>, prefix: string) returns (list: seq<string>)
    ensures list == Configs(lines, prefix)
  {
    list := [];
    var i := 0;
    while i < |lines|
      invariant 0 <= i <= |lines|
      invariant list == Configs(lines[..i], prefix)
    {
      var line := Trim(lines[i]);
      if StartsWith(line, prefix) {
        list := list + [Trim(line[|prefix|..])];
      }
      assert lines[..i + 1][..i] == lines[..i];
      i := i + 1;
    }
    assert lines[..i] == lines;
  }

  /** One more line adds its value, if it carries one. */
  lemma ConfigsSnoc(lines: seq<string>, line: string, prefix: string)
    ensures Configs(lines + [line], prefix)
            == Configs(lines, prefix) + (if ConfigValue(line, prefix).Some? then [ConfigValue(line, prefix).value] else [])
  {
    assert (lines + [line])[..|lines|] == lines;
  }

  /** The configurations of a concatenation are those of each part, in order. */
  lemma {:induction false} ConfigsAppend(a: seq<string>, b: seq<string>, prefix: string)
    ensures Configs(a + b, prefix) == Configs(a, prefix) + Configs(b, prefix)
  {
    if |b| == 0 {
      assert a + b == a;
    } else {
      var init, last := b[..|b| - 1], b[|b| - 1];
      ConfigsAppend(a, init, prefix);
      assert b == init + [last];
      assert a + b == (a + init) + [last];
      ConfigsSnoc(a + init, last, prefix);
      ConfigsSnoc(init, last, prefix);
      var t := if ConfigValue(last, prefix).Some? then [ConfigValue(last, prefix).value] else [];
      Assoc(Configs(a, prefix), Configs(init, prefix), t);
    }
  }

  /** A value is found exactly when some line carries it. */
  lemma {:induction false} ConfigsMembers(lines: seq<string>, prefix: string, v: string)
    ensures v in Configs(lines, prefix)
            <==> exists i :: 0 <= i < |lines| && ConfigValue(lines[i], prefix) == Some(v)
  {
    if v in Configs(lines, prefix) {
      ConfigsFrom(lines, prefix, v);
    } else {
      forall i | 0 <= i < |lines|
        ensures ConfigValue(lines[i], prefix) != Some(v)
      {
        if ConfigValue(lines[i], prefix).Some? {
          ConfigsFound(lines, prefix, i);
        }
      }
    }
  }

  /** The value of every line that carries one is found. */
  lemma {:induction false} ConfigsFound(lines: seq<string>, prefix: string, i: nat)
    requires i < |lines| && ConfigValue(lines[i], prefix).Some?
    ensures ConfigValue(lines[i], prefix).value in Configs(lines, prefix)
    decreases |lines|
  {
    var init, last := lines[..|lines| - 1], lines[|lines| - 1];
    assert lines == init + [last];
    ConfigsSnoc(init, last, prefix);
    if i < |init| {
      assert init[i] == lines[i];
      ConfigsFound(init, prefix, i);
    }
  }

  /** Every value found comes from a line that carries it. */
  lemma {:induction false} ConfigsFrom(lines: seq<string>, prefix: string, v: string)
    requires v in Configs(lines, prefix)
    ensures exists i :: 0 <= i < |lines| && ConfigValue(lines[i], prefix) == Some(v)
    decreases |lines|
  {
    var init, last := lines[..|lines| - 1], lines[|lines| - 1];
    assert lines == init + [last];
    ConfigsSnoc(init, last, prefix);
    if v in Configs(init, prefix) {
      ConfigsFrom(init, prefix, v);
      var i :| 0 <= i < |init| && ConfigValue(init[i], prefix) == Some(v);
      assert lines[i] == init[i];
    } else {
      assert ConfigValue(lines[|lines| - 1], prefix) == Some(v);
    }
  }

  /** The first line that carries `prefix`, or `|lines|` when none does. */
  function FirstIndex(lines: seq<string>, prefix: string): (i: nat)
    ensures i <= |lines|
    ensures forall j :: 0 <= j < i ==> ConfigValue(lines[j], prefix).None?
    ensures i < |lines| ==> ConfigValue(lines[i], prefix).Some?
  {
    if lines == [] then 0
    else
      var init := lines[..|lines| - 1];
      var i := FirstIndex(init, prefix);
      assert forall j :: 0 <= j < |init| ==> init[j] == lines[j];
      if i < |init| then i
      else if ConfigValue(lines[|lines| - 1], prefix).Some? then |init|
      else |lines|
  }

  function First(vs: seq<string>): Option<string> {
    if vs == [] then None else Some(vs[0])
  }

  /** The first configuration is the value of the first line carrying the prefix. */
  lemma {:induction false} FirstConfigIsFirstMatch(lines: seq<string>, prefix: string)
    ensures var i := FirstIndex(lines, prefix);
            First(Configs(lines, prefix)) == if i < |lines| then ConfigValue(lines[i], prefix) else None
  {
    if lines != [] {
      var init := lines[..|lines| - 1];
      FirstConfigIsFirstMatch(init, prefix);
      assert forall j :: 0 <= j < |init| ==> init[j] == lines[j];
    }
  }

  /** `findConfigBySH`: the value of the first line carrying `prefix`, or null
      when no line does. */
  method FindConfigBySH(lines: seq<string>, prefix: string) returns (r: Option<string>)
    ensures r == First(Configs(lines, prefix))
    ensures r.None? <==> forall j :: 0 <= j < |lines| ==> ConfigValue(lines[j], prefix).None?
    ensures r.Some? ==> var i := FirstIndex(lines, prefix);
                        i < |lines| && r == ConfigValue(lines[i], prefix)
  {
    var configs := FindConfigsBySH(lines, prefix);
    FirstConfigIsFirstMatch(lines, prefix);
    if |configs| == 0 {
      return None;
    }
    return Some(configs[0]);
  }

  /** `stream().filter(StrUtil::isNotBlank)`: the values that are not blank,
      in order. */
  function NonBlank(vs: seq<string>): (r: seq<string>)
    ensures |r| <= |vs|
  {
    if vs == [] then []
    else
      var last := vs[|vs| - 1];
      NonBlank(vs[..|vs| - 1]) + (if IsBlank(Some(last)) then [] else [last])
  }

  /** The filter keeps every value that is not blank, and only those. */
  lemma {:induction false} NonBlankMembers(vs: seq<string>)
    ensures forall v :: v in NonBlank(vs) <==> v in vs && !IsBlank(Some(v))
  {
    if vs != [] {
      var init, last := vs[..|vs| - 1], vs[|vs| - 1];
      NonBlankMembers(init);
      assert vs == init + [last];
    }
  }

  /** The filter keeps the order of the values: filtering two runs of values
      gives the first run's survivors, then the second's. */
  lemma {:induction false} NonBlankAppend(a: seq<string>, b: seq<string>)
    ensures NonBlank(a + b) == NonBlank(a) + NonBlank(b)
  {
    if b == [] {
      assert a + b == a;
    } else {
      var init, last := b[..|b| - 1], b[|b| - 1];
      NonBlankAppend(a, init);
      assert (a + b)[..|a + b| - 1] == a + init;
      assert (a + b)[|a + b| - 1] == last;
      Assoc(NonBlank(a), NonBlank(init), if IsBlank(Some(last)) then [] else [last]);
    }
  }

  /** Values that are all non-blank pass the filter unchanged. */
  lemma {:induction false} NonBlankKeepsAll(vs: seq<string>)
    requires forall i :: 0 <= i < |vs| ==> !IsBlank(Some(vs[i]))
    ensures NonBlank(vs) == vs
  {
    if vs != [] {
      var init, last := vs[..|vs| - 1], vs[|vs| - 1];
      forall i | 0 <= i < |init|
        ensures !IsBlank(Some(init[i]))
      {
        assert init[i] == vs[i];
      }
      NonBlankKeepsAll(init);
      assert !IsBlank(Some(last));
      assert NonBlank(vs) == NonBlank(init) + [last];
      assert vs == init + [last];
    }
  }

  // ---------------------------------------------------------------- validation

  /** What a valid script declares. */
  datatype ScriptConfig = ScriptConfig(
    host: string, port: int, username: string, password: string,
    remoteDir: string, localFiles: seq<string>)

  datatype Checked = Abort(message: string) | Ready(config: ScriptConfig, lines: seq<string>)

  /** The first port line is there and holds a 32-bit integer. */
  predicate PortValid(lines: seq<string>) {
    First(Configs(lines, PortKey)).Some? && ParseInt(First(Configs(lines, PortKey)).value).Ok?
  }

  /** Lines 67-112 of `deploymentBySH`, up to the connection: an empty text, then
      the port (missing, then not a 32-bit integer), then a blank host,
      username, password and remote directory each abort with their own
      message. Blank `localFile` values are dropped. */
  function CheckScript(fileName: string, text: string): (r: Checked)
    ensures IsBlank(Some(text)) ==> r == Abort(EmptyFileMessage(fileName))
    ensures !IsBlank(Some(text)) ==> (r == Abort(PortMissing) <==> Configs(Split(text), PortKey) == [])
    ensures !IsBlank(Some(text)) && Configs(Split(text), PortKey) != [] ==>
              (r == Abort(PortNotNumber) <==> ParseInt(Configs(Split(text), PortKey)[0]).Fail?)
    ensures !IsBlank(Some(text)) && PortValid(Split(text)) ==>
              (r == Abort(HostMissing) <==> IsBlank(First(Configs(Split(text), HostKey))))
    ensures !IsBlank(Some(text)) && PortValid(Split(text)) && !IsBlank(First(Configs(Split(text), HostKey))) ==>
              (r == Abort(UsernameMissing) <==> IsBlank(First(Configs(Split(text), UsernameKey))))
    ensures !IsBlank(Some(text)) && PortValid(Split(text)) && !IsBlank(First(Configs(Split(text), HostKey)))
            && !IsBlank(First(Configs(Split(text), UsernameKey))) ==>
              (r == Abort(PasswordMissing) <==> IsBlank(First(Configs(Split(text), PasswordKey))))
    ensures !IsBlank(Some(text)) && PortValid(Split(text)) && !IsBlank(First(Configs(Split(text), HostKey)))
            && !IsBlank(First(Configs(Split(text), UsernameKey))) && !IsBlank(First(Configs(Split(text), PasswordKey))) ==>
              (r == Abort(RemoteDirMissing) <==> IsBlank(First(Configs(Split(text), RemoteDirKey))))
    ensures r.Ready? <==> !IsBlank(Some(text)) && PortValid(Split(text))
                          && !IsBlank(First(Configs(Split(text), HostKey)))
                          && !IsBlank(First(Configs(Split(text), UsernameKey)))
                          && !IsBlank(First(Configs(Split(text), PasswordKey)))
                          && !IsBlank(First(Configs(Split(text), RemoteDirKey)))
    ensures r.Ready? ==> r.lines == Split(text)
    ensures r.Ready? ==> MinInt <= r.config.port <= MaxInt
                         && ParseInt(First(Configs(r.lines, PortKey)).value) == Ok(r.config.port)
    ensures r.Ready? ==> Some(r.config.host) == First(Configs(r.lines, HostKey))
                         && Some(r.config.username) == First(Configs(r.lines, UsernameKey))
                         && Some(r.config.password) == First(Configs(r.lines, PasswordKey))
                         && Some(r.config.remoteDir) == First(Configs(r.lines, RemoteDirKey))
    ensures r.Ready? ==> r.config.localFiles == NonBlank(Configs(r.lines, LocalFileKey))
  {
    if IsBlank(Some(text)) then Abort(EmptyFileMessage(fileName))
    else
      var lines := Split(text);
      var host := First(Configs(lines, HostKey));
      var p := First(Configs(lines, PortKey));
      if p.None? then Abort(PortMissing)
      else match ParseInt(p.value)
        case Fail(_) => Abort(PortNotNumber)
        case Ok(port) =>
          var username := First(Configs(lines, UsernameKey));
          var password := First(Configs(lines, PasswordKey));
          var remoteDir := First(Configs(lines, RemoteDirKey));
          var localFiles := NonBlank(Configs(lines, LocalFileKey));
          if IsBlank(host) then Abort(HostMissing)
          else if IsBlank(username) then Abort(UsernameMissing)
          else if IsBlank(password) then Abort(PasswordMissing)
          else if IsBlank(remoteDir) then Abort(RemoteDirMissing)
          else Ready(ScriptConfig(host.value, port, username.value, password.value,
                                  remoteDir.value, localFiles), lines)
  }

  /** The checks of lines 64-108, step by step: the configuration lines are
      looked up with `findConfigBySH`, and the first failing check names the
      message to log. */
  method ReadScript(fileName: string, text: string) returns (r: Checked)
    ensures r == CheckScript(fileName, text)
  {
    if IsBlank(Some(text)) {
      return Abort(EmptyFileMessage(fileName));
    }
    var lines := Split(text);
    var host := FindConfigBySH(lines, HostKey);
    var p := FindConfigBySH(lines, PortKey);
    if p.None? {
      return Abort(PortMissing);
    }
    var port := ParseInt(p.value);
    if port.Fail? {
      return Abort(PortNotNumber);
    }
    var username := FindConfigBySH(lines, UsernameKey);
    var password := FindConfigBySH(lines, PasswordKey);
    var remoteDir := FindConfigBySH(lines, RemoteDirKey);
    var declared := FindConfigsBySH(lines, LocalFileKey);
    var localFiles := NonBlank(declared);
    if IsBlank(host) {
      r := Abort(HostMissing);
    } else if IsBlank(username) {
      r := Abort(UsernameMissing);
    } else if IsBlank(password) {
      r := Abort(PasswordMissing);
    } else if IsBlank(remoteDir) {
      r := Abort(RemoteDirMissing);
    } else {
      r := Ready(ScriptConfig(host.value, port.value, username.value, password.value, remoteDir.value, localFiles), lines);
    }
  }

  // ---------------------------------------------------------------- command body

  /** A line whose trimmed form starts with "#" is not sent. */
  predicate IsComment(line: string) {
    var t := Trim(line);
    |t| > 0 && t[0] == '#'
  }

  /** Every non-comment line followed by "\n", in order (lines 137-143). */
  function Body(lines: seq<string>): string {
    if lines == [] then ""
    else
      var last := lines[|lines| - 1];
      Body(lines[..|lines| - 1]) + (if IsComment(last) then "" else last + "\n")
  }

  /** The body is empty, or its last line is terminated. */
  lemma {:induction false} BodyEndsWithLineFeed(lines: seq<string>)
    ensures Body(lines) == [] || EndsWith(Body(lines), "\n")
  {
    if lines != [] {
      var init, last := lines[..|lines| - 1], lines[|lines| - 1];
      if IsComment(last) {
        BodyEndsWithLineFeed(init);
        assert Body(lines) == Body(init) + "";
        assert Body(init) + "" == Body(init);
      } else {
        var b := Body(lines);
        assert b == Body(init) + (last + "\n");
        assert b[|b| - 1..] == "\n";
      }
    }
  }

  /** The `StringBuilder` loop of lines 137-143. */
  method CommandBody(lines: seq<string>) returns (body: string)
    ensures body == Body(lines)
  {
    body := "";
    for i := 0 to |lines|
      invariant body == Body(lines[..i])
    {
      if !StartsWith(Trim(lines[i]), "#") {
        assert !IsComment(lines[i]);
        body := body + (lines[i] + "\n");
      }
      assert lines[..i + 1][..i] == lines[..i];
    }
    assert lines[..|lines|] == lines;
  }

  /** The body keeps line order: the body of two runs of lines is the body of
      the first followed by that of the second. */
  lemma {:induction false} BodyAppend(a: seq<string>, b: seq<string>)
    ensures Body(a + b) == Body(a) + Body(b)
  {
    if b == [] {
      assert a + b == a;
    } else {
      var init, last := b[..|b| - 1], b[|b| - 1];
      BodyAppend(a, init);
      assert b == init + [last];
      assert a + b == (a + init) + [last];
      BodySnoc(a + init, last);
      BodySnoc(init, last);
      Assoc(Body(a), Body(init), if IsComment(last) then "" else last + "\n");
    }
  }

  /** One more line adds itself and a line feed, unless it is a comment. */
  lemma BodySnoc(lines: seq<string>, line: string)
    ensures Body(lines + [line]) == Body(lines) + (if IsComment(line) then "" else line + "\n")
  {
    assert (lines + [line])[..|lines|] == lines;
  }

  /** Comment lines contribute nothing, wherever they stand. */
  lemma CommentLineDropped(a: seq<string>, c: string, b: seq<string>)
    requires IsComment(c)
    ensures Body(a + [c] + b) == Body(a + b)
  {
    BodyAppend(a + [c], b);
    BodyAppend(a, b);
    assert (a + [c])[..|a|] == a;
  }

  /** Without comment lines the body is the lines joined by "\n", plus one "\n". */
  lemma {:induction false} BodyOfUncommented(lines: seq<string>)
    requires lines != []
    requires forall i :: 0 <= i < |lines| ==> !IsComment(lines[i])
    ensures Body(lines) == Join(lines) + "\n"
  {
    var init, last := lines[..|lines| - 1], lines[|lines| - 1];
    assert !IsComment(last);
    assert Body(lines) == Body(init) + (last + "\n");
    if init != [] {
      forall i | 0 <= i < |init|
        ensures !IsComment(init[i])
      {
        assert init[i] == lines[i];
      }
      BodyOfUncommented(init);
      JoinSnoc(init, last);
      assert init + [last] == lines;
    } else {
      assert lines == [last];
    }
  }

  /** A script without comment lines is sent as written, its trailing line
      feeds collapsed into one: appending one "\n" to the text gives the body
      followed by nothing but line feeds. */
  lemma UncommentedScriptSentVerbatim(text: string)
    requires Split(text) != []
    requires forall i :: 0 <= i < |Split(text)| ==> !IsComment(Split(text)[i])
    ensures var b := Body(Split(text));
            |b| >= 1 && |b| - 1 <= |text| && text + "\n" == b + text[|b| - 1..]
            && NewlinesOnly(text[|b| - 1..])
  {
    BodyOfUncommented(Split(text));
    SplitRejoin(text);
  }
}
