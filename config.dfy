/** The `Config` bean: ten nullable properties, two constructors, and a getter
    and a setter per property. Strings and the boxed `Integer` port are
    `Option`s, `None` standing for Java's null. */
module ConfigBean {
  import opened JavaLang

  /** The values a `Config` holds at one moment. */
  datatype ConfigData = ConfigData(
    name: Option<string>,
    host: Option<string>,
    port: Option<int>,
    user: Option<string>,
    password: Option<string>,
    localFile: Option<string>,
    remoteFile: Option<string>,
    startCMD: Option<string>,
    stopCMD: Option<string>,
    logCMD: Option<string>)

  /** A freshly constructed bean: every property null. */
  const AllNull: ConfigData :=
    ConfigData(None, None, None, None, None, None, None, None, None, None)

  class Config {
    var name: Option<string>
    var host: Option<string>
    var port: Option<int>
    var user: Option<string>
    var password: Option<string>
    var localFile: Option<string>
    var remoteFile: Option<string>
    var startCMD: Option<string>
    var stopCMD: Option<string>
    var logCMD: Option<string>

    function Value(): ConfigData
      reads this
    {
      ConfigData(name, host, port, user, password, localFile, remoteFile, startCMD, stopCMD, logCMD)
    }

    /** `new Config()`. */
    constructor ()
      ensures Value() == AllNull
    {
      name, host, port, user, password := None, None, None, None, None;
      localFile, remoteFile, startCMD, stopCMD, logCMD := None, None, None, None, None;
    }

    /** `new Config(host, port, user, password)`: the other six stay null. */
    constructor WithLogin(host: Option<string>, port: Option<int>, user: Option<string>, password: Option<string>)
      ensures Value() == AllNull.(host := host, port := port, user := user, password := password)
    {
      this.host, this.port, this.user, this.password := host, port, user, password;
      name, localFile, remoteFile, startCMD, stopCMD, logCMD := None, None, None, None, None, None;
    }

    /** The getters: each returns its property of the bean. */
    function GetName(): (v: Option<string>)
      reads this
      ensures v == Value().name
    {
      name
    }

    function GetHost(): (v: Option<string>)
      reads this
      ensures v == Value().host
    {
      host
    }

    function GetPort(): (v: Option<int>)
      reads this
      ensures v == Value().port
    {
      port
    }

    function GetUser(): (v: Option<string>)
      reads this
      ensures v == Value().user
    {
      user
    }

    function GetPassword(): (v: Option<string>)
      reads this
      ensures v == Value().password
    {
      password
    }

    function GetLocalFile(): (v: Option<string>)
      reads this
      ensures v == Value().localFile
    {
      localFile
    }

    function GetRemoteFile(): (v: Option<string>)
      reads this
      ensures v == Value().remoteFile
    {
      remoteFile
    }

    function GetStartCMD(): (v: Option<string>)
      reads this
      ensures v == Value().startCMD
    {
      startCMD
    }

    function GetStopCMD(): (v: Option<string>)
      reads this
      ensures v == Value().stopCMD
    {
      stopCMD
    }

    function GetLogCMD(): (v: Option<string>)
      reads this
      ensures v == Value().logCMD
    {
      logCMD
    }

    method SetName(v: Option<string>)
      modifies this
      ensures GetName() == v && Value() == old(Value()).(name := v)
    {
      name := v;
    }

    method SetHost(v: Option<string>)
      modifies this
      ensures GetHost() == v && Value() == old(Value()).(host := v)
    {
      host := v;
    }

    method SetPort(v: Option<int>)
      modifies this
      ensures GetPort() == v && Value() == old(Value()).(port := v)
    {
      port := v;
    }

    method SetUser(v: Option<string>)
      modifies this
      ensures GetUser() == v && Value() == old(Value()).(user := v)
    {
      user := v;
    }

    method SetPassword(v: Option<string>)
      modifies this
      ensures GetPassword() == v && Value() == old(Value()).(password := v)
    {
      password := v;
    }

    method SetLocalFile(v: Option<string>)
      modifies this
      ensures GetLocalFile() == v && Value() == old(Value()).(localFile := v)
    {
      localFile := v;
    }

    method SetRemoteFile(v: Option<string>)
      modifies this
      ensures GetRemoteFile() == v && Value() == old(Value()).(remoteFile := v)
    {
      remoteFile := v;
    }

    method SetStartCMD(v: Option<string>)
      modifies this
      ensures GetStartCMD() == v && Value() == old(Value()).(startCMD := v)
    {
      startCMD := v;
    }

    method SetStopCMD(v: Option<string>)
      modifies this
      ensures GetStopCMD() == v && Value() == old(Value()).(stopCMD := v)
    {
      stopCMD := v;
    }

    method SetLogCMD(v: Option<string>)
      modifies this
      ensures GetLogCMD() == v && Value() == old(Value()).(logCMD := v)
    {
      logCMD := v;
    }
  }
}
