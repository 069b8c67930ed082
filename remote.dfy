/** SSH access to the remote environment (internal/remote/connection.go): the
    client configuration, the dial target, the command wrapping, and the
    `Cmd` and `SSH` session steps. The SSH library, the terminal and the remote
    machine are oracles; what the model records is what the client sends
    (`SshEvent`) and which resources it holds open. */
module Remote {
  import opened Wrappers
  import opened Text
  import opened Config

  const KeyHomePrefix := "~/"
  const DefaultTerm := "xterm-256color"
  const DialTimeoutSeconds: nat := 5
  /** The exit status of a shell ended by Ctrl-C. */
  const InterruptedStatus: int := 130

  // ---------------------------------------------------------------------------
  // clientConfig
  // ---------------------------------------------------------------------------

  /** The private-key path: a `~/` prefix is replaced by the home directory,
      which is looked up only in that case; any other value is used as is. */
  function IdentityPath(identityFile: string, home: Result<string>): (r: Result<string>)
    ensures KeyHomePrefix <= identityFile && home.Ok? ==>
      r == Ok(home.value + "/" + identityFile[|KeyHomePrefix|..])
    ensures KeyHomePrefix <= identityFile && home.Err? ==>
      r.Err? && |home.error| <= |r.error| && r.error[|r.error| - |home.error|..] == home.error
    ensures !(KeyHomePrefix <= identityFile) ==> r == Ok(identityFile)
  {
    if KeyHomePrefix <= identityFile then
      match home
      case Err(e) => Err("cannot find home directory in ssh key search: " + e)
      case Ok(h) => Ok(h + "/" + identityFile[2..])
    else Ok(identityFile)
  }

  /** A key path without the `~/` prefix does not depend on the home
      directory at all, so a failing home lookup cannot make it fail; a
      `~/` path keeps everything after the prefix. */
  lemma HomeOnlyForTilde(identityFile: string, home1: Result<string>, home2: Result<string>)
    ensures !(KeyHomePrefix <= identityFile) ==>
      IdentityPath(identityFile, home1) == IdentityPath(identityFile, home2)
    ensures var r := IdentityPath(identityFile, home1);
      KeyHomePrefix <= identityFile && r.Ok? ==>
        var rest := identityFile[|KeyHomePrefix|..];
        |rest| <= |r.value| && r.value[|r.value| - |rest|..] == rest
  {
  }

  /** The parts of `ssh.ClientConfig` that come from the configuration. */
  datatype ClientConfig = ClientConfig(user: string, signer: string, timeoutSeconds: nat, checksHostKey: bool)

  /** `clientConfig`: resolve the key path, read the key (`readFile`), parse it
      (`parseKey`), and build a configuration for the configured user with a
      5-second timeout and no host-key check. */
  function ClientConfigFor(remote: RemoteConfig, home: Result<string>, readFile: string -> Result<string>,
                           parseKey: string -> Result<string>): (r: Result<ClientConfig>)
    ensures r.Ok? <==>
      && IdentityPath(remote.identityFile, home).Ok?
      && readFile(IdentityPath(remote.identityFile, home).value).Ok?
      && parseKey(readFile(IdentityPath(remote.identityFile, home).value).value).Ok?
    ensures r.Ok? ==>
      && r.value.user == remote.user
      && r.value.timeoutSeconds == DialTimeoutSeconds
      && !r.value.checksHostKey
      && r.value.signer == parseKey(readFile(IdentityPath(remote.identityFile, home).value).value).value
  {
    match IdentityPath(remote.identityFile, home)
    case Err(e) => Err(e)
    case Ok(path) =>
      match readFile(path)
      case Err(e) => Err("unable to read private key: " + e)
      case Ok(key) =>
        match parseKey(key)
        case Err(e) => Err("unable to parse private key: " + e)
        case Ok(signer) => Ok(ClientConfig(remote.user, signer, 5, false))
  }

  // ---------------------------------------------------------------------------
  // The dial target, and Go's net.SplitHostPort / net.JoinHostPort
  // ---------------------------------------------------------------------------

  /** The dial target as the source builds it: `fmt.Sprintf("%s:%d", host, port)`. */
  function HostSocket(hostname: string, port: int): string
  {
    hostname + ":" + IntToString(port)
  }

  const MissingPort := "missing port in address"
  const TooManyColons := "too many colons in address"

  /** `net.SplitHostPort`, which every TCP dial applies to its address: the port
      follows the last colon; a host containing a colon must be written in
      brackets. */
  function SplitHostPort(hostport: string): (r: Result<(string, string)>)
    ensures r.Ok? ==> ':' !in r.value.1
  {
    match LastIndexOf(hostport, ':')
    case None => Err(MissingPort)
    case Some(i) => if hostport[0] == '[' then SplitBracketed(hostport, i) else SplitPlain(hostport, i)
  }

  /** The `[host]:port` form: the first `]` must come right before the last colon. */
  function SplitBracketed(hostport: string, i: nat): (r: Result<(string, string)>)
    requires i < |hostport| && hostport[i] == ':' && ':' !in hostport[i + 1..] && hostport[0] == '['
    ensures r.Ok? ==> ':' !in r.value.1
  {
    match IndexOf(hostport, ']')
    case None => Err("missing ']' in address")
    case Some(end) =>
      if end + 1 == |hostport| then Err(MissingPort)
      else if end + 1 != i then Err(if hostport[end + 1] == ':' then TooManyColons else MissingPort)
      else CheckBrackets(hostport, hostport[1..end], 1, end + 1, i)
  }

  /** The `host:port` form: no colon may come before the last one. */
  function SplitPlain(hostport: string, i: nat): (r: Result<(string, string)>)
    requires i < |hostport| && hostport[i] == ':' && ':' !in hostport[i + 1..]
    ensures r.Ok? ==> ':' !in r.value.1
  {
    if ':' in hostport[..i] then Err(TooManyColons) else CheckBrackets(hostport, hostport[..i], 0, 0, i)
  }

  /** No stray bracket from position `j` (for `[`) and `k` (for `]`) on; the
      port is what follows the last colon. */
  function CheckBrackets(hostport: string, host: string, j: nat, k: nat, i: nat): (r: Result<(string, string)>)
    requires j <= |hostport| && k <= |hostport| && i < |hostport| && ':' !in hostport[i + 1..]
    ensures r.Ok? ==> ':' !in r.value.1
  {
    if '[' in hostport[j..] then Err("unexpected '[' in address")
    else if ']' in hostport[k..] then Err("unexpected ']' in address")
    else Ok((host, hostport[i + 1..]))
  }

  /** `net.JoinHostPort`: a host containing a colon (an IPv6 literal) is
      bracketed. */
  function JoinHostPort(host: string, port: string): string
  {
    if ':' in host then "[" + host + "]" + [':'] + port else host + [':'] + port
  }

  /** The dial target built with `net.JoinHostPort`. */
  function DialTarget(hostname: string, port: int): (r: string)
    ensures ':' !in hostname ==> r == HostSocket(hostname, port)
  {
    JoinHostPort(hostname, IntToString(port))
  }

  /** The last `c` of `a + [c] + b`, when `b` has none, is the one between them. */
  lemma {:induction false} LastIndexAfter(a: string, c: char, b: string)
    requires c !in b
    ensures LastIndexOf(a + [c] + b, c) == Some(|a|)
    decreases |b|
  {
    var s := a + [c] + b;
    if b != [] {
      var b' := b[..|b| - 1];
      assert s[..|s| - 1] == a + [c] + b';
      LastIndexAfter(a, c, b');
    }
  }

  /** The first `c` of `a + [c] + b`, when `a` has none, is the one between them. */
  lemma {:induction false} IndexBetween(a: string, c: char, b: string)
    requires c !in a
    ensures IndexOf(a + [c] + b, c) == Some(|a|)
  {
    var s := a + [c] + b;
    if a != [] {
      assert s[1..] == a[1..] + [c] + b;
      IndexBetween(a[1..], c, b);
    }
  }

  /** As written, the target of an IPv6 host (a hostname containing a colon)
      cannot be dialled: the address splitter reports too many colons. */
  lemma HostSocketRejectsIpv6(hostname: string, port: int)
    requires ':' in hostname && hostname[0] != '['
    ensures SplitHostPort(HostSocket(hostname, port)) == Err(TooManyColons)
  {
    var s := HostSocket(hostname, port);
    assert s == hostname + [':'] + IntToString(port);
    LastIndexAfter(hostname, ':', IntToString(port));
    assert s[..|hostname|] == hostname;
    assert SplitHostPort(s) == SplitPlain(s, |hostname|);
  }

  /** The address the source builds for the IPv6 address `fdaa::3` on port 22. */
  lemma HostSocketIpv6Example()
    ensures HostSocket("fdaa::3", 22) == "fdaa::3:22"
    ensures SplitHostPort(HostSocket("fdaa::3", 22)).Err?
  {
    HostSocketRejectsIpv6("fdaa::3", 22);
  }

  /** The corrected target splits back into exactly the configured host and
      port, for IPv6 literals and names alike. */
  lemma DialTargetRoundTrip(hostname: string, port: int)
    requires '[' !in hostname && ']' !in hostname
    ensures SplitHostPort(DialTarget(hostname, port)) == Ok((hostname, IntToString(port)))
  {
    if ':' in hostname {
      BracketedRoundTrip(hostname, IntToString(port));
    } else {
      PlainRoundTrip(hostname, IntToString(port));
    }
  }

  lemma BracketedRoundTrip(hostname: string, digits: string)
    requires '[' !in hostname && ']' !in hostname && ':' in hostname
    requires ':' !in digits && '[' !in digits && ']' !in digits
    ensures SplitHostPort(JoinHostPort(hostname, digits)) == Ok((hostname, digits))
  {
    var s, n := JoinHostPort(hostname, digits), |hostname|;
    BracketedLastColon(hostname, digits);
    BracketedFirstBracket(hostname, digits);
    BracketedSlices(hostname, digits);
    SplitBracketedOk(s, n + 2, n + 1);
  }

  /** The last colon of `[host]:port` is the one after the `]`. */
  lemma BracketedLastColon(hostname: string, digits: string)
    requires ':' in hostname && ':' !in digits
    ensures LastIndexOf(JoinHostPort(hostname, digits), ':') == Some(|hostname| + 2)
  {
    var open := "[" + hostname + "]";
    assert JoinHostPort(hostname, digits) == open + [':'] + digits;
    assert |open| == |hostname| + 2;
    LastIndexAfter(open, ':', digits);
  }

  /** The first `]` of `[host]:port` closes the host. */
  lemma BracketedFirstBracket(hostname: string, digits: string)
    requires ']' !in hostname && ':' in hostname
    ensures IndexOf(JoinHostPort(hostname, digits), ']') == Some(|hostname| + 1)
  {
    var open := "[" + hostname;
    assert JoinHostPort(hostname, digits) == open + [']'] + ([':'] + digits);
    assert forall i :: 1 <= i < |open| ==> open[i] == hostname[i - 1];
    IndexBetween(open, ']', [':'] + digits);
  }

  /** The pieces of `[host]:port`. */
  lemma BracketedSlices(hostname: string, digits: string)
    requires '[' !in hostname && ']' !in hostname && ':' in hostname
    requires ':' !in digits && '[' !in digits && ']' !in digits
    ensures var s, n := JoinHostPort(hostname, digits), |hostname|;
      && n + 2 < |s| && s[n + 2] == ':' && ':' !in s[n + 2 + 1..] && s[0] == '['
      && '[' !in s[1..] && ']' !in s[n + 2..]
      && s[1..n + 1] == hostname && s[n + 2 + 1..] == digits
  {
    var s, n := JoinHostPort(hostname, digits), |hostname|;
    var tail := [':'] + digits;
    assert s[1..] == hostname + [']'] + tail;
    assert s[n + 2..] == tail;
    assert s[n + 2 + 1..] == digits;
    assert s[1..n + 1] == hostname;
  }

  /** The bracketed form splits when its first `]` sits right before the last
      colon and no other bracket appears. */
  lemma SplitBracketedOk(s: string, i: nat, end: nat)
    requires i < |s| && s[i] == ':' && ':' !in s[i + 1..] && s[0] == '['
    requires LastIndexOf(s, ':') == Some(i) && IndexOf(s, ']') == Some(end) && end + 1 == i
    requires '[' !in s[1..] && ']' !in s[i..]
    ensures SplitHostPort(s) == Ok((s[1..end], s[i + 1..]))
  {
  }

  lemma PlainRoundTrip(hostname: string, digits: string)
    requires '[' !in hostname && ']' !in hostname && ':' !in hostname
    requires ':' !in digits && '[' !in digits && ']' !in digits
    ensures SplitHostPort(JoinHostPort(hostname, digits)) == Ok((hostname, digits))
  {
    var s := JoinHostPort(hostname, digits);
    assert s == hostname + [':'] + digits;
    LastIndexAfter(hostname, ':', digits);
    assert s[..|hostname|] == hostname;
    assert s[|hostname| + 1..] == digits;
    if hostname != [] {
      assert s[0] == hostname[0];
    }
    assert SplitHostPort(s) == SplitPlain(s, |hostname|);
  }

  /** The command the remote shell runs: change to the project path first. */
  function RemoteCommand(remotePath: string, cmd: string): (r: string)
    ensures "cd " + remotePath + " && " <= r
    ensures |cmd| <= |r| && r[|r| - |cmd|..] == cmd
  {
    "cd " + remotePath + " && " + cmd
  }

  /** The terminal type asked for: `$TERM`, or `xterm-256color` when unset. */
  function TermOrDefault(term: string): (r: string)
    ensures r != ""
    ensures term != "" ==> r == term
  {
    if term == "" then DefaultTerm else term
  }

  /** How the interactive shell ended. */
  datatype WaitResult = Clean | ExitStatus(status: int, message: string) | WaitFailed(message: string)

  /** Ending with exit status 130 (Ctrl-C) counts as success, like a clean end;
      every other failure is an `ssh error`. */
  function WaitOutcome(w: WaitResult): (r: Outcome)
    ensures r.Pass? <==> w.Clean? || (w.ExitStatus? && w.status == InterruptedStatus)
    ensures r.Fail? ==> "ssh error: " <= r.error
  {
    match w
    case Clean => Pass
    case ExitStatus(status, message) =>
      if status == InterruptedStatus then Pass else Fail("ssh error: " + message)
    case WaitFailed(message) => Fail("ssh error: " + message)
  }

  // ---------------------------------------------------------------------------
  // Cmd and SSH
  // ---------------------------------------------------------------------------

  /** The local side: home directory, key files, key parser, `$TERM`. */
  datatype LocalHost = LocalHost(home: Result<string>, readFile: string -> Result<string>,
                                 parseKey: string -> Result<string>, term: string)

  /** The answers of the SSH library and the terminal. */
  datatype Server = Server(dial: string -> Outcome, newSession: Outcome, run: string -> Outcome,
                           makeRaw: Outcome, getSize: Outcome, requestPty: Outcome, shell: Outcome,
                           wait: WaitResult)

  /** What the client sends to the server. */
  datatype SshEvent = Dialed(target: string, user: string) | SessionOpened | Ran(command: string)
                    | PtyRequested(term: string) | ShellStarted

  /** How the dial target is written: as the source formats it
      (`"%s:%d"`), or with `net.JoinHostPort`. */
  datatype Addressing = Formatted | Joined

  /** The address `Cmd` and `SSH` dial for the configured remote. */
  function Target(addressing: Addressing, remote: RemoteConfig): string
  {
    match addressing
    case Formatted => HostSocket(remote.hostname, remote.port)
    case Joined => DialTarget(remote.hostname, remote.port)
  }

  /** `ssh.Dial`: the TCP dial splits the address before anything is sent, so
      an address that does not split fails without reaching the server; any
      other address gets the server's answer. */
  function Dial(server: Server, target: string): (r: Outcome)
    ensures SplitHostPort(target).Err? ==>
      r.Fail? && var e := SplitHostPort(target).error;
      |e| <= |r.error| && r.error[|r.error| - |e|..] == e
    ensures SplitHostPort(target).Ok? ==> r == server.dial(target)
  {
    match SplitHostPort(target)
    case Err(e) => Fail("dial tcp: address " + target + ": " + e)
    case Ok(_) => server.dial(target)
  }

  /** The opening `Cmd` and `SSH` share: build the client configuration,
      dial the target and open a session. `SSH` quotes the target in its dial
      error, `Cmd` does not. */
  function ConnectSpec(remote: RemoteConfig, host: LocalHost, server: Server, addressing: Addressing, quoted: bool)
    : (r: (Outcome, seq<SshEvent>))
    ensures r.0.Pass? ==>
      && SplitHostPort(Target(addressing, remote)).Ok?
      && server.dial(Target(addressing, remote)).Pass? && server.newSession.Pass?
      && r.1 == [Dialed(Target(addressing, remote), remote.user), SessionOpened]
    ensures r.0.Fail? ==> r.1 == [] || r.1 == [Dialed(Target(addressing, remote), remote.user)]
    ensures SplitHostPort(Target(addressing, remote)).Err? ==> r.0.Fail? && r.1 == []
  {
    match ClientConfigFor(remote, host.home, host.readFile, host.parseKey)
    case Err(e) => (Fail("could not create ssh client config: " + e), [])
    case Ok(config) =>
      var target := Target(addressing, remote);
      var dial := Dial(server, target);
      if dial.Fail? then
        var context := if quoted then "cannot connect to '" + target + "': " else "cannot connect " + target + ": ";
        (Fail(context + dial.error), [])
      else if server.newSession.Fail? then
        (Fail("cannot open new session: " + server.newSession.error), [Dialed(target, config.user)])
      else (Pass, [Dialed(target, config.user), SessionOpened])
  }

  /** `Cmd`: connect, then run `cd <path> && <cmd>`; the events are what
      reached the server. */
  function CmdSpec(remote: RemoteConfig, host: LocalHost, server: Server, cmd: string, addressing: Addressing)
    : (r: (Outcome, seq<SshEvent>))
    ensures r.0.Pass? ==>
      && SplitHostPort(Target(addressing, remote)).Ok?
      && r.1 == [Dialed(Target(addressing, remote), remote.user), SessionOpened, Ran(RemoteCommand(remote.remotePath, cmd))]
    ensures SplitHostPort(Target(addressing, remote)).Err? ==> r.0.Fail? && r.1 == []
  {
    var connected := ConnectSpec(remote, host, server, addressing, false);
    if connected.0.Fail? then connected
    else
      var command := RemoteCommand(remote.remotePath, cmd);
      var events := connected.1 + [Ran(command)];
      assert events == [Dialed(Target(addressing, remote), remote.user), SessionOpened, Ran(command)];
      if server.run(command).Fail? then (Fail("error running command: " + server.run(command).error), events)
      else (Pass, events)
  }

  /** `SSH`: connect like `Cmd`, put the terminal in raw mode, ask for a
      pseudo-terminal of type `$TERM` (or the default), start the shell and
      wait for it. */
  function SshSpec(remote: RemoteConfig, host: LocalHost, server: Server, addressing: Addressing)
    : (r: (Outcome, seq<SshEvent>))
    ensures r.0.Pass? ==>
      && SplitHostPort(Target(addressing, remote)).Ok?
      && server.shell.Pass?
      && (server.wait.Clean? || (server.wait.ExitStatus? && server.wait.status == InterruptedStatus))
      && r.1 == [Dialed(Target(addressing, remote), remote.user), SessionOpened,
                 PtyRequested(TermOrDefault(host.term)), ShellStarted]
    ensures SplitHostPort(Target(addressing, remote)).Err? ==> r.0.Fail? && r.1 == []
  {
    var connected := ConnectSpec(remote, host, server, addressing, true);
    if connected.0.Fail? then connected
    else
      var shell := RawShellSpec(host, server);
      (shell.0, connected.1 + shell.1)
  }

  /** The part of `SSH` after the session is open: raw mode, then the shell. */
  function RawShellSpec(host: LocalHost, server: Server): (Outcome, seq<SshEvent>)
  {
    if server.makeRaw.Fail? then (Fail("terminal make raw error: " + server.makeRaw.error), [])
    else ShellSpec(host, server)
  }

  /** The part of `SSH` that runs with the terminal in raw mode: size, pty of
      type `$TERM` (or the default), shell, wait. */
  function ShellSpec(host: LocalHost, server: Server): (r: (Outcome, seq<SshEvent>))
    ensures r.0.Pass? ==> r.1 == [PtyRequested(TermOrDefault(host.term)), ShellStarted]
    ensures r.0.Pass? ==> server.getSize.Pass? && server.requestPty.Pass? && server.shell.Pass?
  {
    if server.getSize.Fail? then (Fail("terminal get size error: " + server.getSize.error), [])
    else
      var withPty := [PtyRequested(TermOrDefault(host.term))];
      if server.requestPty.Fail? then (Fail("session xterm error: " + server.requestPty.error), withPty)
      else if server.shell.Fail? then (Fail("session shell error: " + server.shell.error), withPty)
      else (WaitOutcome(server.wait), withPty + [ShellStarted])
  }

  /** A session ended by Ctrl-C in the remote shell is a successful `SSH`
      whenever every earlier step succeeded. */
  lemma InterruptedShellSucceeds(remote: RemoteConfig, host: LocalHost, server: Server, addressing: Addressing,
                                 message: string)
    requires ClientConfigFor(remote, host.home, host.readFile, host.parseKey).Ok?
    requires SplitHostPort(Target(addressing, remote)).Ok? && server.dial(Target(addressing, remote)).Pass?
    requires server.newSession.Pass? && server.makeRaw.Pass? && server.getSize.Pass?
    requires server.requestPty.Pass? && server.shell.Pass?
    requires server.wait == ExitStatus(InterruptedStatus, message)
    ensures SshSpec(remote, host, server, addressing).0 == Pass
  {
  }

  /** Whatever the outcome, the only command `Cmd` runs on the server is the
      requested one, prefixed with the change to the remote path. */
  lemma CmdRunsOnlyItsCommand(remote: RemoteConfig, host: LocalHost, server: Server, cmd: string,
                              addressing: Addressing)
    ensures forall e :: e in CmdSpec(remote, host, server, cmd, addressing).1 && e.Ran? ==>
              e.command == RemoteCommand(remote.remotePath, cmd)
  {
    var connected := ConnectSpec(remote, host, server, addressing, false);
    var target := Target(addressing, remote);
    if connected.0.Pass? {
      assert CmdSpec(remote, host, server, cmd, addressing).1
             == [Dialed(target, remote.user), SessionOpened, Ran(RemoteCommand(remote.remotePath, cmd))];
    } else {
      assert CmdSpec(remote, host, server, cmd, addressing).1 == connected.1;
      assert connected.1 == [] || connected.1 == [Dialed(target, remote.user)];
    }
  }

  /** As written, neither `Cmd` nor `SSH` ever reaches a remote whose host is
      an IPv6 literal, whatever that server would answer: the formatted
      target does not split. */
  lemma FormattedIpv6NeverConnects(remote: RemoteConfig, host: LocalHost, server: Server, cmd: string)
    requires ':' in remote.hostname && remote.hostname[0] != '['
    ensures CmdSpec(remote, host, server, cmd, Formatted).0.Fail? && CmdSpec(remote, host, server, cmd, Formatted).1 == []
    ensures SshSpec(remote, host, server, Formatted).0.Fail? && SshSpec(remote, host, server, Formatted).1 == []
  {
    HostSocketRejectsIpv6(remote.hostname, remote.port);
  }

  /** With the joined target, `Cmd` succeeds on every host name, IPv6
      literals included, whenever the server accepts the dial, the session
      and the command. */
  lemma JoinedCmdConnects(remote: RemoteConfig, host: LocalHost, server: Server, cmd: string)
    requires '[' !in remote.hostname && ']' !in remote.hostname
    requires ClientConfigFor(remote, host.home, host.readFile, host.parseKey).Ok?
    requires server.dial(DialTarget(remote.hostname, remote.port)).Pass? && server.newSession.Pass?
    requires server.run(RemoteCommand(remote.remotePath, cmd)).Pass?
    ensures CmdSpec(remote, host, server, cmd, Joined).0 == Pass
  {
    DialTargetRoundTrip(remote.hostname, remote.port);
  }

  /** A connection to the configured remote. The fields after `config` are
      the world it talks to; `events` is what it sent, and the counters are the
      connections, sessions and raw terminals it holds. */
  class Connection {
    const config: RemoteConfig
    const host: LocalHost
    const server: Server
    var events: seq<SshEvent>
    var openConnections: nat
    var openSessions: nat
    var rawTerminal: bool

    constructor (config: RemoteConfig, host: LocalHost, server: Server)
      ensures this.config == config && this.host == host && this.server == server
      ensures events == [] && openConnections == 0 && openSessions == 0 && !rawTerminal
    {
      this.config, this.host, this.server := config, host, server;
      events, openConnections, openSessions, rawTerminal := [], 0, 0, false;
    }

    /** `clientConfig`. */
    method MakeClientConfig() returns (r: Result<ClientConfig>)
      ensures r == ClientConfigFor(config, host.home, host.readFile, host.parseKey)
    {
      var path: string;
      if KeyHomePrefix <= config.identityFile {
        if host.home.Err? {
          return Err("cannot find home directory in ssh key search: " + host.home.error);
        }
        path := host.home.value + "/" + config.identityFile[2..];
      } else {
        path := config.identityFile;
      }
      var key := host.readFile(path);
      if key.Err? {
        return Err("unable to read private key: " + key.error);
      }
      var signer := host.parseKey(key.value);
      if signer.Err? {
        return Err("unable to parse private key: " + signer.error);
      }
      return Ok(ClientConfig(config.user, signer.value, DialTimeoutSeconds, false));
    }

    /** The opening of `Cmd` and `SSH`, dialling the `"%s:%d"` target: on
      success it holds one more connection and one more session, on failure
      none. */
    method Connect(quoted: bool) returns (r: Outcome)
      modifies this
      ensures (r, events) == (ConnectSpec(config, host, server, Formatted, quoted).0,
                              old(events) + ConnectSpec(config, host, server, Formatted, quoted).1)
      ensures openConnections == old(openConnections) + (if r.Pass? then 1 else 0)
      ensures openSessions == old(openSessions) + (if r.Pass? then 1 else 0)
      ensures rawTerminal == old(rawTerminal)
    {
      var clientConfig := MakeClientConfig();
      if clientConfig.Err? {
        assert old(events) + [] == events;
        return Fail("could not create ssh client config: " + clientConfig.error);
      }
      var target := HostSocket(config.hostname, config.port);
      var dialed := Dial(server, target);
      if dialed.Fail? {
        assert old(events) + [] == events;
        var context := if quoted then "cannot connect to '" + target + "': " else "cannot connect " + target + ": ";
        return Fail(context + dialed.error);
      }
      events := events + [Dialed(target, clientConfig.value.user)];
      openConnections := openConnections + 1;
      if server.newSession.Fail? {
        openConnections := openConnections - 1;
        return Fail("cannot open new session: " + server.newSession.error);
      }
      events := events + [SessionOpened];
      assert events == old(events) + [Dialed(target, clientConfig.value.user), SessionOpened];
      openSessions := openSessions + 1;
      r := Pass;
    }

    /** `Cmd`: every connection and session it opens is closed again, on every
      path (the deferred `Close` calls). */
    method Cmd(cmd: string) returns (r: Outcome)
      modifies this
      ensures (r, events) == (CmdSpec(config, host, server, cmd, Formatted).0,
                              old(events) + CmdSpec(config, host, server, cmd, Formatted).1)
      ensures openConnections == old(openConnections) && openSessions == old(openSessions)
      ensures rawTerminal == old(rawTerminal)
    {
      ghost var connected := ConnectSpec(config, host, server, Formatted, false);
      r := Connect(false);
      if r.Fail? {
        return;
      }
      var command := RemoteCommand(config.remotePath, cmd);
      events := events + [Ran(command)];
      AppendAssoc(old(events), connected.1, [Ran(command)]);
      var ran := server.run(command);
      openSessions, openConnections := openSessions - 1, openConnections - 1;
      if ran.Fail? {
        return Fail("error running command: " + ran.error);
      }
      return Pass;
    }

    /** `SSH`: like `Cmd`, it closes what it opens, and it hands the terminal
      back in the mode it found it (the deferred `Restore`). */
    method SSH() returns (r: Outcome)
      modifies this
      ensures (r, events) == (SshSpec(config, host, server, Formatted).0,
                              old(events) + SshSpec(config, host, server, Formatted).1)
      ensures openConnections == old(openConnections) && openSessions == old(openSessions)
      ensures rawTerminal == old(rawTerminal)
    {
      ghost var connected := ConnectSpec(config, host, server, Formatted, true);
      r := Connect(true);
      if r.Fail? {
        return;
      }
      r := RawShell();
      AppendAssoc(old(events), connected.1, RawShellSpec(host, server).1);
      openSessions, openConnections := openSessions - 1, openConnections - 1;
    }

    /** Raw mode and the shell: the terminal is handed back in the mode it
      was found in. */
    method RawShell() returns (r: Outcome)
      modifies this`events, this`rawTerminal
      ensures (r, events) == (RawShellSpec(host, server).0, old(events) + RawShellSpec(host, server).1)
      ensures rawTerminal == old(rawTerminal)
    {
      if server.makeRaw.Fail? {
        assert old(events) + [] == events;
        return Fail("terminal make raw error: " + server.makeRaw.error);
      }
      var wasRaw := rawTerminal;
      rawTerminal := true;
      r := SshShell();
      rawTerminal := wasRaw;
    }

    /** The part of `SSH` that runs with the terminal in raw mode. */
    method SshShell() returns (r: Outcome)
      modifies this`events
      ensures (r, events) == (ShellSpec(host, server).0, old(events) + ShellSpec(host, server).1)
    {
      if server.getSize.Fail? {
        assert old(events) + [] == events;
        return Fail("terminal get size error: " + server.getSize.error);
      }
      events := events + [PtyRequested(TermOrDefault(host.term))];
      if server.requestPty.Fail? {
        return Fail("session xterm error: " + server.requestPty.error);
      }
      if server.shell.Fail? {
        return Fail("session shell error: " + server.shell.error);
      }
      events := events + [ShellStarted];
      assert events == old(events) + ([PtyRequested(TermOrDefault(host.term))] + [ShellStarted]);
      r := WaitOutcome(server.wait);
    }
  }
}
