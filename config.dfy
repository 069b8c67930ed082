/** The project configuration record (`vessel.yml`) and its validity check,
    from internal/config/types.go, plus the validity gate of
    `RetrieveProjectConfig` in internal/config/yaml.go. */
module Config {
  import opened Wrappers
  import opened Text

  datatype RemoteConfig = RemoteConfig(
    hostname: string,
    user: string,
    identityFile: string,
    port: int,          // a Go `int`: any value, negative ones included
    remotePath: string,
    alias: string)

  datatype EnvironmentConfig = EnvironmentConfig(
    name: string,
    remote: RemoteConfig,
    forwarding: seq<string>)

  const NoName := "no app name defined"
  const NoForwarding := "no forwarding ports are defined"
  const NoHostname := "no remote hostname (to SSH in with) defined"
  const NoUser := "no remote user (to SSH in with) defined"
  const NoIdentity := "no remote indentity file (SSH key) defined"
  const NoPath := "no remote file path to sync with defined"
  const NoPort := "no remote port (to SSH into) defined"

  /** The configuration has every field the tool needs to connect and sync. */
  predicate Complete(c: EnvironmentConfig)
  {
    && c.name != ""
    && |c.forwarding| >= 1
    && c.remote.hostname != ""
    && c.remote.user != ""
    && c.remote.identityFile != ""
    && c.remote.remotePath != ""
    && c.remote.port != 0
  }

  /** `EnvironmentConfig.Valid`: the pair `(ok, err)` Go returns, with `None`
      for a nil error. A configuration is accepted exactly when it is complete,
      and an error is reported exactly when it is not. */
  function Valid(c: EnvironmentConfig): (r: (bool, Option<string>))
    ensures r.0 <==> Complete(c)
    ensures r.0 <==> r.1 == None
  {
    if |c.name| < 1 then (false, Some(NoName))
    else if |c.forwarding| < 1 then (false, Some(NoForwarding))
    else if c.remote.hostname == "" then (false, Some(NoHostname))
    else if c.remote.user == "" then (false, Some(NoUser))
    else if c.remote.identityFile == "" then (false, Some(NoIdentity))
    else if c.remote.remotePath == "" then (false, Some(NoPath))
    else if c.remote.port == 0 then (false, Some(NoPort))
    else (true, None)
  }

  // ---------------------------------------------------------------------------
  // An independent reading of the check order: a list of (fails, message)
  // checks, of which the first failing one decides the error.
  // ---------------------------------------------------------------------------

  datatype Check = Check(fails: bool, message: string)

  /** The seven checks, in the order the source performs them. */
  function Checks(c: EnvironmentConfig): seq<Check>
  {
    [ Check(c.name == "", NoName),
      Check(c.forwarding == [], NoForwarding),
      Check(c.remote.hostname == "", NoHostname),
      Check(c.remote.user == "", NoUser),
      Check(c.remote.identityFile == "", NoIdentity),
      Check(c.remote.remotePath == "", NoPath),
      Check(c.remote.port == 0, NoPort) ]
  }

  /** The message of the first failing check, if any; `None` when all pass. */
  function FirstFailure(checks: seq<Check>): (r: Option<string>)
    ensures r == None <==> forall i :: 0 <= i < |checks| ==> !checks[i].fails
    ensures r != None ==> exists i :: 0 <= i < |checks| && checks[i].fails && r == Some(checks[i].message)
  {
    if checks == [] then None
    else if checks[0].fails then Some(checks[0].message)
    else FirstFailure(checks[1..])
  }

  /** The error `Valid` reports is that of the first failing check, in the order
      name, forwarding, hostname, user, identity file, path, port. */
  lemma {:induction false} ValidReportsFirstFailure(c: EnvironmentConfig)
    ensures Valid(c).1 == FirstFailure(Checks(c))
  {
    var cs := Checks(c);
    var c1, c2, c3, c4, c5, c6 := cs[1..], cs[2..], cs[3..], cs[4..], cs[5..], cs[6..];
    assert c1[1..] == c2 && c2[1..] == c3 && c3[1..] == c4 && c4[1..] == c5 && c5[1..] == c6;
    assert c6[1..] == [];
    if c.name != "" {
      assert FirstFailure(cs) == FirstFailure(c1);
      if c.forwarding != [] {
        assert FirstFailure(c1) == FirstFailure(c2);
        if c.remote.hostname != "" {
          assert FirstFailure(c2) == FirstFailure(c3);
          if c.remote.user != "" {
            assert FirstFailure(c3) == FirstFailure(c4);
            if c.remote.identityFile != "" {
              assert FirstFailure(c4) == FirstFailure(c5);
              if c.remote.remotePath != "" {
                assert FirstFailure(c5) == FirstFailure(c6);
              }
            }
          }
        }
      }
    }
  }

  /** A configuration with a name, forwarding and a hostname but no user is
      rejected with a message that names the user. */
  lemma MissingUserNamesUser(c: EnvironmentConfig)
    requires c.name != "" && |c.forwarding| >= 1 && c.remote.hostname != ""
    requires c.remote.user == ""
    ensures Valid(c) == (false, Some(NoUser))
    ensures Contains(NoUser, "user")
  {
    assert NoUser[10] == 'u' && NoUser[11] == 's' && NoUser[12] == 'e' && NoUser[13] == 'r';
    assert NoUser[10..14] == "user";
    assert OccursAt(NoUser, "user", 10);
  }

  /** Without forwarding entries a configuration is rejected whatever else it holds. */
  lemma NoForwardingIsInvalid(c: EnvironmentConfig)
    requires c.forwarding == []
    ensures !Valid(c).0
    ensures c.name != "" ==> Valid(c).1 == Some(NoForwarding)
  {
  }

  /** The port check rejects 0 and nothing else: negative ports pass it. */
  lemma OnlyPortZeroRejected(c: EnvironmentConfig, port: int)
    requires Complete(c) && port != 0
    ensures Valid(c.(remote := c.remote.(port := port))).0
    ensures !Valid(c.(remote := c.remote.(port := 0))).0
  {
  }

  /** Neither the alias nor the format of the forwarding entries is looked at:
      changing them (keeping at least one entry) never changes the verdict. */
  lemma AliasAndEntryFormatUnchecked(c: EnvironmentConfig, alias: string, forwarding: seq<string>)
    requires |forwarding| >= 1 && |c.forwarding| >= 1
    ensures Valid(c.(remote := c.remote.(alias := alias), forwarding := forwarding)) == Valid(c)
  {
  }

  /** `RetrieveProjectConfig`: the file is read (`file`, None when reading
      fails), decoded by the YAML library (`decode`, opaque here), and the
      result is handed out only when `Valid` accepts it. */
  function RetrieveProjectConfig(path: string, file: Option<string>,
                                 decode: string -> Option<EnvironmentConfig>): (r: Result<EnvironmentConfig>)
    ensures r.Ok? <==> file.Some? && decode(file.value).Some? && Complete(decode(file.value).value)
    ensures r.Ok? ==> r.value == decode(file.value).value
  {
    match file
    case None => Err("could not read yaml file '" + path + "'")
    case Some(text) =>
      match decode(text)
      case None => Err("error parsing yaml file " + path)
      case Some(cfg) =>
        var (ok, err) := Valid(cfg);
        if !ok then Err("invalid yaml configuration: " + (if err.Some? then err.value else ""))
        else Ok(cfg)
  }
}
