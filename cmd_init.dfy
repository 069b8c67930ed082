/** `vessel init` (cmd/init.go): start the API proxy when needed, ask for the
    app name and the Docker image, create `~/.vessel/<app>` and store a fresh
    key pair in it, create the Fly environment and wait for its machine,
    write `vessel.yml`, install Mutagen, read the configuration back and
    probe the environment over SSH until it answers. The filesystem, the Fly
    account and the proxy are the objects of `Storage`, `Environments` and
    `FlyProxy`; every prompt, key generation, region lookup and SSH probe is
    an oracle input. */
module CmdInit {
  import opened Wrappers
  import opened Config
  import opened Polling
  import opened FlyMachine
  import opened Storage
  import opened Environments
  import opened FlyProxy

  // ---------------------------------------------------------------------------
  // The reachability probe
  // ---------------------------------------------------------------------------

  /** The probe counter runs from 0 while it is at most this value. */
  const LastProbe := 15

  /** The loop from probe `k` on: whether a probe succeeded, and how many
      failed (each followed by a two-second sleep). */
  function ProbeFrom(test: nat -> bool, k: nat): (r: (bool, nat))
    requires k <= LastProbe + 1
    ensures k <= r.1 <= LastProbe + 1
    decreases LastProbe + 1 - k
  {
    if k > LastProbe then (false, k)
    else if test(k) then (true, k)
    else ProbeFrom(test, k + 1)
  }

  /** The probe loop from `k` on succeeds exactly when one of the probes `k`
      to `LastProbe` does; on success it stops at the first of them, and
      otherwise all of them failed. */
  lemma {:induction false} ProbeFromCharacterised(test: nat -> bool, k: nat)
    requires k <= LastProbe + 1
    ensures var (success, failed) := ProbeFrom(test, k);
      && (success <==> exists j :: k <= j <= LastProbe && test(j))
      && (success ==> failed <= LastProbe && test(failed) && forall j :: k <= j < failed ==> !test(j))
      && (!success ==> failed == LastProbe + 1 && forall j :: k <= j <= LastProbe ==> !test(j))
    decreases LastProbe + 1 - k
  {
    if k <= LastProbe && !test(k) {
      ProbeFromCharacterised(test, k + 1);
    }
  }

  /** The probe loop of `runInitCommand`: at most 16 probes, a sleep after
      each failed one and none after a success, and success exactly when one
      of the 16 probes succeeded. */
  method Probe(test: nat -> bool) returns (success: bool, probes: nat, sleeps: nat)
    ensures var (ok, failed) := ProbeFrom(test, 0);
      success == ok && sleeps == failed && probes == (if ok then failed + 1 else failed)
    ensures probes <= LastProbe + 1
    ensures success <==> exists j :: 0 <= j <= LastProbe && test(j)
  {
    ProbeFromCharacterised(test, 0);
    var attempts := 0;
    success, probes, sleeps := false, 0, 0;
    while attempts <= LastProbe
      invariant attempts <= LastProbe + 1
      invariant ProbeFrom(test, attempts) == ProbeFrom(test, 0)
      invariant probes == attempts && sleeps == attempts
      decreases LastProbe + 1 - attempts
    {
      probes := probes + 1;
      if !test(attempts) {
        sleeps := sleeps + 1;
        attempts := attempts + 1;
      } else {
        success := true;
        break;
      }
    }
  }

  // ---------------------------------------------------------------------------
  // The image prompt
  // ---------------------------------------------------------------------------

  /** The images offered before anything is added. */
  const BundledTypes: seq<string> := ["vesselapp/php:8.1", "vesselapp/php:8.0"]

  /** One answer of the select-with-add prompt: the index (-1 when "Other"
      was chosen and a value typed), the value, and the prompt's error. */
  datatype ImageAnswer = ImageAnswer(index: int, value: string, err: Option<string>)

  /** Where the loop ends: the image, the error of the last prompt, and the
      list offered by then. */
  datatype ImageChoice = ImageChoice(image: string, err: Option<string>, items: seq<string>)

  /** The values typed as "Other" in `answers`, in order. */
  function Added(answers: seq<ImageAnswer>): seq<string>
  {
    if answers == [] then []
    else (if answers[0].index == -1 then [answers[0].value] else []) + Added(answers[1..])
  }

  /** The loop from answer `k` on, with `items` offered so far; `None` when
      the answers run out while the index is still negative. */
  function SelectFrom(items: seq<string>, answers: seq<ImageAnswer>, k: nat): Option<ImageChoice>
    requires k <= |answers|
    decreases |answers| - k
  {
    if k == |answers| then None
    else
      var answer := answers[k];
      var items' := if answer.index == -1 then items + [answer.value] else items;
      if answer.index < 0 then SelectFrom(items', answers, k + 1)
      else Some(ImageChoice(answer.value, answer.err, items'))
  }

  /** The loop stops at the first answer with a non-negative index and takes
      its value and error; every "Other" value typed before it was appended to
      the list, in order. With no such answer it has not ended. */
  lemma {:induction false} SelectFromCharacterised(items: seq<string>, answers: seq<ImageAnswer>, k: nat)
    requires k <= |answers|
    ensures var r := SelectFrom(items, answers, k);
      && (r.None? <==> forall i :: k <= i < |answers| ==> answers[i].index < 0)
      && (r.Some? ==> exists j :: k <= j < |answers| && answers[j].index >= 0
                                && (forall i :: k <= i < j ==> answers[i].index < 0)
                                && r.value == ImageChoice(answers[j].value, answers[j].err,
                                                          items + Added(answers[k..j])))
  {
    SelectFromFirstChosen(items, answers, k);
    var c := FirstChosen(answers, k);
    if c.Some? {
      var j := c.value;
      assert k <= j < |answers| && answers[j].index >= 0
             && (forall i :: k <= i < j ==> answers[i].index < 0)
             && SelectFrom(items, answers, k).value
                == ImageChoice(answers[j].value, answers[j].err, items + Added(answers[k..j]));
    }
  }

  /** Index of the first answer from `k` on with a non-negative index, if there is one. */
  function FirstChosen(answers: seq<ImageAnswer>, k: nat): (r: Option<nat>)
    requires k <= |answers|
    ensures r.None? <==> forall i :: k <= i < |answers| ==> answers[i].index < 0
    ensures r.Some? ==> k <= r.value < |answers| && answers[r.value].index >= 0
                        && forall i :: k <= i < r.value ==> answers[i].index < 0
    decreases |answers| - k
  {
    if k == |answers| then None
    else if answers[k].index >= 0 then Some(k)
    else FirstChosen(answers, k + 1)
  }

  /** The loop's result, given by the first chosen answer. */
  lemma {:induction false} SelectFromFirstChosen(items: seq<string>, answers: seq<ImageAnswer>, k: nat)
    requires k <= |answers|
    ensures var c := FirstChosen(answers, k);
      SelectFrom(items, answers, k)
      == if c.None? then None
         else Some(ImageChoice(answers[c.value].value, answers[c.value].err, items + Added(answers[k..c.value])))
    decreases |answers| - k
  {
    if k < |answers| {
      if answers[k].index < 0 {
        var items' := if answers[k].index == -1 then items + [answers[k].value] else items;
        SelectFromFirstChosen(items', answers, k + 1);
        assert SelectFrom(items, answers, k) == SelectFrom(items', answers, k + 1);
        var c := FirstChosen(answers, k + 1);
        assert FirstChosen(answers, k) == c;
        if c.Some? {
          AddedFront(answers, k, c.value);
          assert items' + Added(answers[k + 1..c.value]) == items + Added(answers[k..c.value]);
          assert SelectFrom(items, answers, k)
              == Some(ImageChoice(answers[c.value].value, answers[c.value].err, items + Added(answers[k..c.value])));
        } else {
          assert SelectFrom(items, answers, k) == None;
        }
      } else {
        assert answers[k..k] == [];
        assert items + Added(answers[k..k]) == items;
        assert FirstChosen(answers, k) == Some(k);
        assert SelectFrom(items, answers, k) == Some(ImageChoice(answers[k].value, answers[k].err, items));
      }
    }
  }

  /** `Added` over `answers[k..j]` takes answer `k`'s value first, if it was "Other". */
  lemma AddedFront(answers: seq<ImageAnswer>, k: nat, j: nat)
    requires k < j <= |answers|
    ensures Added(answers[k..j])
         == (if answers[k].index == -1 then [answers[k].value] else []) + Added(answers[k + 1..j])
  {
    assert answers[k..j][0] == answers[k];
    assert answers[k..j][1..] == answers[k + 1..j];
  }

  /** The image loop of `runInitCommand` over the answers the prompt gives. */
  method SelectImage(answers: seq<ImageAnswer>) returns (r: Option<ImageChoice>)
    ensures r == SelectFrom(BundledTypes, answers, 0)
  {
    var bundledTypes := BundledTypes;
    var typeIndex := -1;
    var image := "";
    var err: Option<string> := None;
    var k := 0;
    while typeIndex < 0
      invariant k <= |answers|
      invariant typeIndex < 0 ==> SelectFrom(bundledTypes, answers, k) == SelectFrom(BundledTypes, answers, 0)
      invariant typeIndex >= 0 ==> SelectFrom(BundledTypes, answers, 0) == Some(ImageChoice(image, err, bundledTypes))
      decreases |answers| - k, if typeIndex < 0 then 1 else 0
    {
      if k == |answers| {
        return None;
      }
      typeIndex, image, err := answers[k].index, answers[k].value, answers[k].err;
      k := k + 1;
      if typeIndex == -1 {
        bundledTypes := bundledTypes + [image];
      }
    }
    r := Some(ImageChoice(image, err, bundledTypes));
  }

  // ---------------------------------------------------------------------------
  // Key files and the project configuration
  // ---------------------------------------------------------------------------

  /** The generated key pair, as opaque text. */
  datatype KeyPair = KeyPair(privateKey: string, publicKey: string)

  const PrivateKeyMode: nat := 0x180  // 0600
  const PublicKeyMode: nat := 0x1A4   // 0644
  const ProjectFileMode: nat := 0x1ED // 0755

  /** The project configuration file, in the current directory. */
  const ProjectFile := "vessel.yml"

  function PrivateKeyPath(appDir: string): string { appDir + "/id_ed25519" }

  function PublicKeyPath(appDir: string): string { appDir + "/id_ed25519.pub" }

  /** The private key, the public key and the project file are three
      different files, whatever the app directory. */
  lemma KeyPathsDistinct(appDir: string)
    ensures PrivateKeyPath(appDir) != PublicKeyPath(appDir)
    ensures PrivateKeyPath(appDir) != ProjectFile && PublicKeyPath(appDir) != ProjectFile
  {
    var priv, pub := PrivateKeyPath(appDir), PublicKeyPath(appDir);
    assert priv[|priv| - 1] == '9';
    assert pub[|pub| - 1] == 'b';
    assert ProjectFile[|ProjectFile| - 1] == 'l';
  }

  const RemoteUser := "vessel"
  const RemotePort := 22
  const RemoteDir := "/home/vessel/app"
  const DefaultForwarding := ["8000:80"]

  /** The configuration that the written `vessel.yml` describes. */
  function InitConfig(appName: string, flyIp: string, keyPath: string): EnvironmentConfig
  {
    EnvironmentConfig(appName,
                      RemoteConfig(flyIp, RemoteUser, keyPath, RemotePort, RemoteDir, "vessel-" + appName),
                      DefaultForwarding)
  }

  /** The text of `vessel.yml`. */
  function ProjectYaml(appName: string, flyIp: string, keyPath: string): string
  {
    "name: " + appName + "\n\nremote:\n  hostname: " + flyIp + "\n  user: vessel\n  identityfile: " + keyPath
    + "\n  port: 22\n  path: /home/vessel/app\n  alias: vessel-" + appName + "\n\nforwarding:\n  - 8000:80\n"
  }

  /** The written configuration passes `Valid` exactly when the app name and
      the IP address are not empty: user, key path, port, remote path and
      forwarding are always set. */
  lemma InitConfigValid(appName: string, flyIp: string, appDir: string)
    ensures Valid(InitConfig(appName, flyIp, PrivateKeyPath(appDir))).0 <==> appName != "" && flyIp != ""
  {
  }

  /** Provided the YAML library decodes the written text to the record it
      describes, reading it back gives that record exactly when the name and
      address are not empty. */
  lemma InitConfigReadBack(appName: string, flyIp: string, appDir: string, decode: string -> Option<EnvironmentConfig>)
    requires decode(ProjectYaml(appName, flyIp, PrivateKeyPath(appDir)))
             == Some(InitConfig(appName, flyIp, PrivateKeyPath(appDir)))
    ensures var r := RetrieveProjectConfig(ProjectFile, Some(ProjectYaml(appName, flyIp, PrivateKeyPath(appDir))),
                                           decode);
      && (r.Ok? <==> appName != "" && flyIp != "")
      && (r.Ok? ==> r.value == InitConfig(appName, flyIp, PrivateKeyPath(appDir)))
  {
    InitConfigValid(appName, flyIp, appDir);
  }

  // ---------------------------------------------------------------------------
  // The command
  // ---------------------------------------------------------------------------

  /** What the outside world answers during one run. `appName` is the name
      prompt, `images` the successive answers of the image prompt,
      `nearestRegion` the region lookup and `chosenRegion` the region prompt
      asked when the lookup fails; `addHostEntry` is the consent to edit
      `~/.ssh/config`, `hostKnown` whether it already has the host, and
      `probe(k)` whether the `k`-th SSH probe got through. */
  datatype InitAnswers = InitAnswers(
    token: Result<string>, org: string,
    proxyNeeded: bool, flyctl: Result<string>, proxyStart: Outcome,
    appName: Result<string>, images: seq<ImageAnswer>, keys: Result<KeyPair>,
    nearestRegion: Result<string>, chosenRegion: Result<string>,
    fly: FlyAnswers, getMachine: nat -> Result<Machine>, isInitialized: Machine -> bool,
    addHostEntry: bool, hostKnown: bool, writeSshConfig: Outcome,
    binDir: Outcome, installMutagen: Outcome, decode: string -> Option<EnvironmentConfig>,
    probe: nat -> bool)

  /** How a stage ends: with its value, with an error (the command then
      calls `stopFlyctl` and exits 1), or still waiting in the image prompt
      when the answers run out. */
  datatype Progress<T> = Next(value: T) | Failed(error: string) | Waiting

  /** How the command ends. */
  datatype InitEnd = Exited(code: nat) | Ready | StillPrompting

  /** Everything the command changes. */
  datatype InitWorld = InitWorld(nodes: map<string, Node>, account: Account, proxyRunning: bool)

  /** What the first stage hands on. */
  datatype Prepared = Prepared(appName: string, image: string, appDir: string, keys: KeyPair)

  /** Which `stopFlyctl` the error paths call. As written, line 78 declares a
      new variable with `:=`, so they call the no-op of line 62; with `=` they
      would call the one that stops the proxy. */
  datatype Binding = Shadowing | Assignment

  /** The name and image prompts, the app directory and the key files. */
  function PrepareStep(nodes: map<string, Node>, faults: Faults, home: Result<string>, slug: string -> string,
                       a: InitAnswers): (Progress<Prepared>, map<string, Node>)
  {
    if a.appName.Err? then (Failed(a.appName.error), nodes)
    else
      var appName := slug(a.appName.value);
      var choice := SelectFrom(BundledTypes, a.images, 0);
      if choice.None? then (Waiting, nodes)
      else if choice.value.err.Some? then (Failed(choice.value.err.value), nodes)
      else
        var (dir, nodes1) := KeyFilesStep(nodes, faults, home, appName, a.keys);
        if dir.Err? then (Failed(dir.error), nodes1)
        else (Next(Prepared(appName, choice.value.image, dir.value, a.keys.value)), nodes1)
  }

  /** The app directory, then the private and the public key file in it; the
      result is the directory. */
  function KeyFilesStep(nodes: map<string, Node>, faults: Faults, home: Result<string>, appName: string,
                        keys: Result<KeyPair>): (r: (Result<string>, map<string, Node>))
    ensures r.0.Ok? ==> keys.Ok?
  {
    var (dir, nodes1) := MakeAppDirSpec(nodes, faults, home, appName);
    if dir.Err? then (Err(dir.error), nodes1)
    else if keys.Err? then (Err(keys.error), nodes1)
    else
      var (priv, nodes2) := WriteFileSpec(nodes1, faults, PrivateKeyPath(dir.value), keys.value.privateKey,
                                          PrivateKeyMode);
      if priv.Fail? then (Err(priv.error), nodes2)
      else
        var (pub, nodes3) := WriteFileSpec(nodes2, faults, PublicKeyPath(dir.value), keys.value.publicKey,
                                           PublicKeyMode);
        if pub.Fail? then (Err(pub.error), nodes3) else (Ok(dir.value), nodes3)
  }

  /** The region, `CreateEnvironment` and `WaitForMachine`. */
  function ProvisionStep(acct: Account, p: Prepared, a: InitAnswers): (Result<Environment>, Account)
  {
    var region := if a.nearestRegion.Ok? then a.nearestRegion else a.chosenRegion;
    if region.Err? then (Err(region.error), acct)
    else
      var (env, acct1) := CreateEnvironmentSpec(acct, p.appName, p.image, a.org, region.value, p.keys.publicKey,
                                                a.fly);
      if env.Err? then (env, acct1)
      else
        var status := PollFrom(a.getMachine, a.isInitialized, 0, MachinePrefix, MachineTooMany).0;
        if status.Err? then (Err(status.error), acct1) else (env, acct1)
  }

  /** The content of a file, if `path` is one. */
  function FileContent(nodes: map<string, Node>, path: string): Option<string>
  {
    if path in nodes && nodes[path].File? then Some(nodes[path].content) else None
  }

  /** The SSH config entry, `vessel.yml`, the bin directory, Mutagen, reading
      the configuration back and the probe loop. */
  function ConfigureStep(nodes: map<string, Node>, faults: Faults, p: Prepared, env: Environment, a: InitAnswers)
    : (Outcome, map<string, Node>)
  {
    if a.addHostEntry && !a.hostKnown && a.writeSshConfig.Fail? then (a.writeSshConfig, nodes)
    else
      var yaml := ProjectYaml(p.appName, env.flyIp, PrivateKeyPath(p.appDir));
      var (written, nodes1) := WriteFileSpec(nodes, faults, ProjectFile, yaml, ProjectFileMode);
      if written.Fail? then (written, nodes1)
      else if a.binDir.Fail? then (a.binDir, nodes1)
      else if a.installMutagen.Fail? then (a.installMutagen, nodes1)
      else
        var cfg := RetrieveProjectConfig(ProjectFile, FileContent(nodes1, ProjectFile), a.decode);
        if cfg.Err? then (Fail(cfg.error), nodes1)
        else if !ProbeFrom(a.probe, 0).0 then (Fail("could not connect to dev environment"), nodes1)
        else (Pass, nodes1)
  }

  /** Everything after the proxy block. */
  function BodySpec(nodes: map<string, Node>, faults: Faults, home: Result<string>, acct: Account,
                    slug: string -> string, a: InitAnswers): (Progress<Environment>, map<string, Node>, Account)
  {
    var (prepared, nodes1) := PrepareStep(nodes, faults, home, slug, a);
    AfterPrepare(prepared, nodes1, faults, acct, a)
  }

  /** The second and the third stage, once the first has ended with
      `prepared` and left `nodes`. */
  function AfterPrepare(prepared: Progress<Prepared>, nodes: map<string, Node>, faults: Faults, acct: Account,
                        a: InitAnswers): (Progress<Environment>, map<string, Node>, Account)
  {
    match prepared
    case Waiting => (Waiting, nodes, acct)
    case Failed(e) => (Failed(e), nodes, acct)
    case Next(p) =>
      var (env, acct1) := ProvisionStep(acct, p, a);
      if env.Err? then (Failed(env.error), nodes, acct1)
      else
        var (done, nodes1) := ConfigureStep(nodes, faults, p, env.value, a);
        if done.Fail? then (Failed(done.error), nodes1, acct1) else (Next(env.value), nodes1, acct1)
  }

  /** The whole command, with the error paths calling the `stopFlyctl` that
      `binding` gives them. The normal return runs the deferred call of the
      handle that started the proxy; `os.Exit` skips it. */
  function InitSpec(faults: Faults, home: Result<string>, w: InitWorld, slug: string -> string, binding: Binding,
                    a: InitAnswers): (InitEnd, InitWorld)
  {
    if a.token.Err? then (Exited(1), w)
    else
      var (handle, running) := ReachStep(w.proxyRunning, a.proxyNeeded, a.flyctl.Ok?, a.proxyStart);
      if handle.None? then (Exited(1), w.(proxyRunning := running))
      else
        var onError := if binding == Shadowing then NoOp else handle.value;
        var (body, nodes, acct) := BodySpec(w.nodes, faults, home, w.account, slug, a);
        var after := InitWorld(nodes, acct, running);
        match body
        case Next(_) => (Ready, after.(proxyRunning := AfterStop(running, handle.value)))
        case Waiting => (StillPrompting, after)
        case Failed(_) => (Exited(1), after.(proxyRunning := AfterStop(running, onError)))
  }

  /** As written, every error exit after a successful proxy start leaves the
      proxy running: the error path calls the no-op, and `os.Exit` skips the
      deferred stop. */
  lemma ShadowingLeavesProxyRunning(faults: Faults, home: Result<string>, w: InitWorld, slug: string -> string,
                                    a: InitAnswers)
    requires a.token.Ok? && a.proxyNeeded && a.flyctl.Ok? && a.proxyStart.Pass?
    requires BodySpec(w.nodes, faults, home, w.account, slug, a).0.Failed?
    ensures var (end, after) := InitSpec(faults, home, w, slug, Shadowing, a);
      end == Exited(1) && after.proxyRunning
  {
  }

  /** The smallest such run: the proxy starts, and the app-name prompt is
      cancelled. */
  lemma ShadowingExample(faults: Faults, home: Result<string>, w: InitWorld, slug: string -> string,
                         a: InitAnswers)
    requires a.token.Ok? && a.proxyNeeded && a.flyctl.Ok? && a.proxyStart.Pass? && a.appName.Err?
    requires !w.proxyRunning
    ensures InitSpec(faults, home, w, slug, Shadowing, a) == (Exited(1), w.(proxyRunning := true))
  {
  }

  /** With the handle assigned to the outer variable, a command that has
      ended never leaves behind a proxy it started. */
  lemma AssignmentStopsProxy(faults: Faults, home: Result<string>, w: InitWorld, slug: string -> string,
                             a: InitAnswers)
    requires !w.proxyRunning
    ensures var (end, after) := InitSpec(faults, home, w, slug, Assignment, a);
      end != StillPrompting ==> !after.proxyRunning
  {
  }

  /** Every path the first stage writes lies under `~/.vessel`; the
      project file does not. */
  lemma UnderStorage(home: string, appName: string)
    ensures var dir := AppPath(StoragePath(home), appName);
      && StoragePath(home) <= dir
      && StoragePath(home) <= PrivateKeyPath(dir) && StoragePath(home) <= PublicKeyPath(dir)
      && !(StoragePath(home) <= ProjectFile)
  {
    var storage := StoragePath(home);
    var dir := AppPath(storage, appName);
    assert dir == storage + ("/" + appName);
    assert PrivateKeyPath(dir) == storage + ("/" + appName + "/id_ed25519");
    assert PublicKeyPath(dir) == storage + ("/" + appName + "/id_ed25519.pub");
    assert storage[|home|] == '/';
    assert '/' !in ProjectFile;
  }

  /** The key-file step removes no path, adds only paths under
      `~/.vessel`, and changes no existing path but the two key files; stated
      for any one path `q`. */
  lemma KeyFilesFootprint(nodes: map<string, Node>, faults: Faults, home: Result<string>, appName: string,
                          keys: Result<KeyPair>, q: string)
    ensures var after := KeyFilesStep(nodes, faults, home, appName, keys).1;
      && (q in nodes ==> q in after)
      && (q in after && q !in nodes ==> home.Ok? && StoragePath(home.value) <= q)
      && (q in nodes && after[q] != nodes[q] ==>
            && home.Ok?
            && var dir := AppPath(StoragePath(home.value), appName);
               q == PrivateKeyPath(dir) || q == PublicKeyPath(dir))
  {
    MakeAppDirEffect(nodes, faults, home, appName);
    var (dir, nodes1) := MakeAppDirSpec(nodes, faults, home, appName);
    if dir.Ok? {
      UnderStorage(home.value, appName);
    }
  }

  /** The first stage removes no path, adds only paths under `~/.vessel`,
      and changes no existing path but the two key files; stated for any
      one path `q`. */
  lemma PrepareFootprint(nodes: map<string, Node>, faults: Faults, home: Result<string>, slug: string -> string,
                         a: InitAnswers, q: string)
    ensures var after := PrepareStep(nodes, faults, home, slug, a).1;
      && (q in nodes ==> q in after)
      && (q in after && q !in nodes ==> home.Ok? && StoragePath(home.value) <= q)
      && (q in nodes && after[q] != nodes[q] ==>
            && home.Ok? && a.appName.Ok?
            && var dir := AppPath(StoragePath(home.value), slug(a.appName.value));
               q == PrivateKeyPath(dir) || q == PublicKeyPath(dir))
  {
    if a.appName.Ok? {
      KeyFilesFootprint(nodes, faults, home, slug(a.appName.value), a.keys, q);
    }
  }

  /** When the first stage gets through, the app directory is
      `~/.vessel/<app>` and holds both keys, each new one with its mode and
      each rewritten one with the mode it had. */
  lemma PrepareEffect(nodes: map<string, Node>, faults: Faults, home: Result<string>, slug: string -> string,
                      a: InitAnswers)
    ensures var (r, after) := PrepareStep(nodes, faults, home, slug, a);
      (r.Next? ==>
            && home.Ok? && a.appName.Ok? && a.keys.Ok?
            && r.value.appName == slug(a.appName.value)
            && r.value.appDir == AppPath(StoragePath(home.value), r.value.appName)
            && r.value.keys == a.keys.value
            && PrivateKeyPath(r.value.appDir) in after
            && after[PrivateKeyPath(r.value.appDir)]
               == File(WrittenMode(nodes, PrivateKeyPath(r.value.appDir), PrivateKeyMode), a.keys.value.privateKey)
            && PublicKeyPath(r.value.appDir) in after
            && after[PublicKeyPath(r.value.appDir)]
               == File(WrittenMode(nodes, PublicKeyPath(r.value.appDir), PublicKeyMode), a.keys.value.publicKey))
  {
    if a.appName.Ok? {
      var appName := slug(a.appName.value);
      MakeAppDirEffect(nodes, faults, home, appName);
      var (dir, nodes1) := MakeAppDirSpec(nodes, faults, home, appName);
      if dir.Ok? {
        KeyPathsDistinct(dir.value);
        UnderStorage(home.value, appName);
        var priv, pub := PrivateKeyPath(dir.value), PublicKeyPath(dir.value);
        assert |StoragePath(home.value)| < |dir.value| < |priv| && |dir.value| < |pub|;
        assert priv in nodes1 <==> priv in nodes;
        assert pub in nodes1 <==> pub in nodes;
      }
    }
  }

  /** The second stage removes no app, and on success hands on the allocated
      address. */
  lemma ProvisionEffect(acct: Account, p: Prepared, a: InitAnswers)
    ensures var (r, after) := ProvisionStep(acct, p, a);
      && acct.apps <= after.apps
      && (r.Ok? ==> a.fly.allocateIp.Ok? && r.value.flyIp == a.fly.allocateIp.value)
  {
    var region := if a.nearestRegion.Ok? then a.nearestRegion else a.chosenRegion;
    if region.Ok? {
      CreateEnvironmentNoRollback(acct, p.appName, p.image, a.org, region.value, p.keys.publicKey, a.fly);
      CreateEnvironmentResult(acct, p.appName, p.image, a.org, region.value, p.keys.publicKey, a.fly);
    }
  }

  /** The third stage writes only `vessel.yml`; when it gets through, the
      file holds the configuration text (with mode `0755` if it is new, its
      old mode if not) and one of the probes got through. */
  lemma ConfigureEffect(nodes: map<string, Node>, faults: Faults, p: Prepared, env: Environment, a: InitAnswers)
    ensures var (r, after) := ConfigureStep(nodes, faults, p, env, a);
      && (forall q :: q in nodes ==> q in after && (q != ProjectFile ==> after[q] == nodes[q]))
      && (r.Pass? ==>
            && ProjectFile in after
            && after[ProjectFile] == File(WrittenMode(nodes, ProjectFile, ProjectFileMode),
                                          ProjectYaml(p.appName, env.flyIp, PrivateKeyPath(p.appDir)))
            && exists j :: 0 <= j <= LastProbe && a.probe(j))
  {
    var (r, after) := ConfigureStep(nodes, faults, p, env, a);
    if !(a.addHostEntry && !a.hostKnown && a.writeSshConfig.Fail?) {
      var yaml := ProjectYaml(p.appName, env.flyIp, PrivateKeyPath(p.appDir));
      var (written, nodes1) := WriteFileSpec(nodes, faults, ProjectFile, yaml, ProjectFileMode);
      assert after == nodes1;
      if r.Pass? {
        ProbeFromCharacterised(a.probe, 0);
      }
    }
  }

  /** The stages together do not remove the path `q`. */
  lemma BodyKeeps(nodes: map<string, Node>, faults: Faults, home: Result<string>, acct: Account,
                  slug: string -> string, a: InitAnswers, q: string)
    requires q in nodes
    ensures q in BodySpec(nodes, faults, home, acct, slug, a).1
  {
    var (prepared, nodes1) := PrepareStep(nodes, faults, home, slug, a);
    PrepareFootprint(nodes, faults, home, slug, a, q);
    AfterPrepareKeeps(prepared, nodes1, faults, acct, a, q);
  }

  /** The last two stages do not remove the path `q`. */
  lemma AfterPrepareKeeps(prepared: Progress<Prepared>, nodes: map<string, Node>, faults: Faults, acct: Account,
                          a: InitAnswers, q: string)
    requires q in nodes
    ensures q in AfterPrepare(prepared, nodes, faults, acct, a).1
  {
    if prepared.Next? {
      var p := prepared.value;
      var env := ProvisionStep(acct, p, a).0;
      if env.Ok? {
        ConfigureEffect(nodes, faults, p, env.value, a);
      }
    }
  }

  /** The stages together remove no app. */
  lemma BodyKeepsApps(nodes: map<string, Node>, faults: Faults, home: Result<string>, acct: Account,
                      slug: string -> string, a: InitAnswers)
    ensures acct.apps <= BodySpec(nodes, faults, home, acct, slug, a).2.apps
  {
    var prepared := PrepareStep(nodes, faults, home, slug, a).0;
    if prepared.Next? {
      ProvisionEffect(acct, prepared.value, a);
      assert BodySpec(nodes, faults, home, acct, slug, a).2 == ProvisionStep(acct, prepared.value, a).1;
    } else {
      assert BodySpec(nodes, faults, home, acct, slug, a).2 == acct;
    }
  }

  /** A body that gets through leaves the key files and `vessel.yml` in
      place (each new one with its mode, each rewritten one with the mode it
      had) and had a probe answer. */
  lemma BodyEffect(nodes: map<string, Node>, faults: Faults, home: Result<string>, acct: Account,
                   slug: string -> string, a: InitAnswers)
    ensures var (r, nodes', acct') := BodySpec(nodes, faults, home, acct, slug, a);
      r.Next? ==>
        && home.Ok? && a.appName.Ok? && a.keys.Ok? && a.fly.allocateIp.Ok?
        && var dir := AppPath(StoragePath(home.value), slug(a.appName.value));
        && PrivateKeyPath(dir) in nodes'
        && nodes'[PrivateKeyPath(dir)]
           == File(WrittenMode(nodes, PrivateKeyPath(dir), PrivateKeyMode), a.keys.value.privateKey)
        && PublicKeyPath(dir) in nodes'
        && nodes'[PublicKeyPath(dir)]
           == File(WrittenMode(nodes, PublicKeyPath(dir), PublicKeyMode), a.keys.value.publicKey)
        && ProjectFile in nodes'
        && nodes'[ProjectFile]
           == File(WrittenMode(nodes, ProjectFile, ProjectFileMode),
                   ProjectYaml(slug(a.appName.value), a.fly.allocateIp.value, PrivateKeyPath(dir)))
        && exists j :: 0 <= j <= LastProbe && a.probe(j)
  {
    var (prepared, nodes1) := PrepareStep(nodes, faults, home, slug, a);
    if prepared.Next? {
      var p := prepared.value;
      PrepareEffect(nodes, faults, home, slug, a);
      var (env, acct1) := ProvisionStep(acct, p, a);
      ProvisionEffect(acct, p, a);
      if env.Ok? {
        var (done, nodes2) := ConfigureStep(nodes1, faults, p, env.value, a);
        PrepareFootprint(nodes, faults, home, slug, a, ProjectFile);
        ConfigureEffect(nodes1, faults, p, env.value, a);
        KeyPathsDistinct(p.appDir);
        UnderStorage(home.value, p.appName);
        assert ProjectFile in nodes1 <==> ProjectFile in nodes;
        assert BodySpec(nodes, faults, home, acct, slug, a)
               == (if done.Fail? then Failed(done.error) else Next(env.value), nodes2, acct1);
      }
    }
  }

  /** A command that ends normally has written the private key and the
      public key into `~/.vessel/<app>`, and `vessel.yml` naming the allocated
      address and that private key; a file that did not exist before has mode
      0600, 0644 and 0755 respectively, one that did keeps its mode; one of the
      16 probes got through. */
  lemma ReadyLeavesEnvironment(faults: Faults, home: Result<string>, w: InitWorld, slug: string -> string,
                               binding: Binding, a: InitAnswers)
    requires InitSpec(faults, home, w, slug, binding, a).0 == Ready
    ensures home.Ok? && a.appName.Ok? && a.keys.Ok? && a.fly.allocateIp.Ok?
    ensures var after := InitSpec(faults, home, w, slug, binding, a).1;
            var appName := slug(a.appName.value);
            var dir := AppPath(StoragePath(home.value), appName);
      && FileContent(after.nodes, PrivateKeyPath(dir)) == Some(a.keys.value.privateKey)
      && after.nodes[PrivateKeyPath(dir)].mode == WrittenMode(w.nodes, PrivateKeyPath(dir), PrivateKeyMode)
      && FileContent(after.nodes, PublicKeyPath(dir)) == Some(a.keys.value.publicKey)
      && after.nodes[PublicKeyPath(dir)].mode == WrittenMode(w.nodes, PublicKeyPath(dir), PublicKeyMode)
      && FileContent(after.nodes, ProjectFile) == Some(ProjectYaml(appName, a.fly.allocateIp.value, PrivateKeyPath(dir)))
      && after.nodes[ProjectFile].mode == WrittenMode(w.nodes, ProjectFile, ProjectFileMode)
      && exists j :: 0 <= j <= LastProbe && a.probe(j)
  {
    BodyEffect(w.nodes, faults, home, w.account, slug, a);
    var (body, nodes, acct) := BodySpec(w.nodes, faults, home, w.account, slug, a);
    assert body.Next? && InitSpec(faults, home, w, slug, binding, a).1.nodes == nodes;
  }

  /** `init` never removes anything: every file and directory, and every app
      of the account, that existed before still exists afterwards, however
      the command ends. */
  lemma InitNeverRemoves(faults: Faults, home: Result<string>, w: InitWorld, slug: string -> string,
                         binding: Binding, a: InitAnswers)
    ensures var after := InitSpec(faults, home, w, slug, binding, a).1;
      && (forall p :: p in w.nodes ==> p in after.nodes)
      && w.account.apps <= after.account.apps
  {
    BodyKeepsApps(w.nodes, faults, home, w.account, slug, a);
    forall p | p in w.nodes
      ensures p in InitSpec(faults, home, w, slug, binding, a).1.nodes
    {
      BodyKeeps(w.nodes, faults, home, w.account, slug, a, p);
    }
  }

  /** The three objects as an `InitWorld`. */
  function InitWorldOf(fs: FileSystem, account: FlyAccount, proxy: Proxy): InitWorld
    reads fs, account, proxy
  {
    InitWorld(fs.nodes, account.State(), proxy.running)
  }

  /** `runInitCommand`, with the proxy handle assigned to the outer
      `stopFlyctl` so that the error paths stop the proxy. */
  method RunInit(fs: FileSystem, account: FlyAccount, proxy: Proxy, slug: string -> string, a: InitAnswers)
    returns (end: InitEnd)
    modifies fs, account, proxy
    ensures (end, InitWorldOf(fs, account, proxy))
         == InitSpec(fs.faults, fs.home, old(InitWorldOf(fs, account, proxy)), slug, Assignment, a)
  {
    if a.token.Err? {
      return Exited(1);
    }
    var handle := Reach(proxy, a.proxyNeeded, a.flyctl.Ok?, a.proxyStart);
    if handle.None? {
      return Exited(1);
    }
    var stopFlyctl := handle.value;
    var body := Body(fs, account, slug, a);
    match body
    case Next(_) =>
      proxy.Stop(stopFlyctl);
      end := Ready;
    case Waiting =>
      end := StillPrompting;
    case Failed(_) =>
      proxy.Stop(stopFlyctl);
      end := Exited(1);
  }

  /** Everything after the proxy block. */
  method Body(fs: FileSystem, account: FlyAccount, slug: string -> string, a: InitAnswers)
    returns (r: Progress<Environment>)
    modifies fs, account
    ensures (r, fs.nodes, account.State()) == BodySpec(old(fs.nodes), fs.faults, fs.home, old(account.State()), slug, a)
  {
    var prepared := Prepare(fs, slug, a);
    match prepared
    case Waiting =>
      return Waiting;
    case Failed(e) =>
      return Failed(e);
    case Next(p) =>
      var env := Provision(account, p, a);
      if env.Err? {
        return Failed(env.error);
      }
      var done := Configure(fs, p, env.value, a);
      if done.Fail? {
        return Failed(done.error);
      }
      return Next(env.value);
  }

  /** The name and image prompts, the app directory and the key files. */
  method Prepare(fs: FileSystem, slug: string -> string, a: InitAnswers) returns (r: Progress<Prepared>)
    modifies fs
    ensures (r, fs.nodes) == PrepareStep(old(fs.nodes), fs.faults, fs.home, slug, a)
  {
    if a.appName.Err? {
      return Failed(a.appName.error);
    }
    var appName := slug(a.appName.value);
    var choice := SelectImage(a.images);
    if choice.None? {
      return Waiting;
    }
    if choice.value.err.Some? {
      return Failed(choice.value.err.value);
    }
    var dir := fs.MakeAppDir(appName);
    if dir.Err? {
      return Failed(dir.error);
    }
    if a.keys.Err? {
      return Failed(a.keys.error);
    }
    var priv := fs.WriteFile(PrivateKeyPath(dir.value), a.keys.value.privateKey, PrivateKeyMode);
    if priv.Fail? {
      return Failed(priv.error);
    }
    var pub := fs.WriteFile(PublicKeyPath(dir.value), a.keys.value.publicKey, PublicKeyMode);
    if pub.Fail? {
      return Failed(pub.error);
    }
    return Next(Prepared(appName, choice.value.image, dir.value, a.keys.value));
  }

  /** The region, `CreateEnvironment` and `WaitForMachine`. */
  method Provision(account: FlyAccount, p: Prepared, a: InitAnswers) returns (r: Result<Environment>)
    modifies account
    ensures (r, account.State()) == ProvisionStep(old(account.State()), p, a)
  {
    var region := if a.nearestRegion.Ok? then a.nearestRegion else a.chosenRegion;
    if region.Err? {
      return Err(region.error);
    }
    r := account.CreateEnvironment(p.appName, p.image, a.org, region.value, p.keys.publicKey, a.fly);
    if r.Err? {
      return;
    }
    var status, queries, tickerRunning := WaitForMachine(a.getMachine, a.isInitialized);
    if status.Fail? {
      return Err(status.error);
    }
  }

  /** From the SSH config entry to the probe loop. */
  method Configure(fs: FileSystem, p: Prepared, env: Environment, a: InitAnswers) returns (r: Outcome)
    modifies fs
    ensures (r, fs.nodes) == ConfigureStep(old(fs.nodes), fs.faults, p, env, a)
  {
    if a.addHostEntry && !a.hostKnown && a.writeSshConfig.Fail? {
      return a.writeSshConfig;
    }
    var written := fs.WriteFile(ProjectFile, ProjectYaml(p.appName, env.flyIp, PrivateKeyPath(p.appDir)),
                                ProjectFileMode);
    if written.Fail? {
      return written;
    }
    if a.binDir.Fail? {
      return a.binDir;
    }
    if a.installMutagen.Fail? {
      return a.installMutagen;
    }
    var cfg := RetrieveProjectConfig(ProjectFile, FileContent(fs.nodes, ProjectFile), a.decode);
    if cfg.Err? {
      return Fail(cfg.error);
    }
    var success, probes, sleeps := Probe(a.probe);
    if !success {
      return Fail("could not connect to dev environment");
    }
    return Pass;
  }
}
