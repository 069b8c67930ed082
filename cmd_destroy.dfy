/** `vessel destroy` (cmd/destroy.go): after reading the configuration and
    asking for confirmation, stop the project's sessions (ignoring the
    result), delete the Fly app unless `--files-only` is given (through the
    API proxy when one is needed), then remove `vessel.yml` and the app's
    directory under `~/.vessel/envs`, exiting 1 at the first failure. The
    world the command changes is four objects: the sync engine, the local
    filesystem, the Fly account and the proxy process. */
module CmdDestroy {
  import opened Wrappers
  import opened Config
  import opened MutagenSpec
  import opened Mutagen
  import opened Storage
  import opened Environments
  import opened FlyProxy
  import CmdStart

  /** The command-line flags `--files-only`, `--quit` and `--config-file`. */
  datatype Flags = Flags(filesOnly: bool, quit: bool, configPath: string)

  /** What the sync engine reports while `StopSession` runs. */
  datatype StopAnswers = StopAnswers(syncListing: ProcResult, forwardListing: ProcResult, decode: Decoder,
                                     syncTerminates: nat -> bool, forwardTerminates: nat -> bool)

  /** What the outside world answers during one run: the project
      configuration, the vessel configuration's API token, the prompt, the
      engine, whether the proxy is needed, the `flyctl` lookup, the proxy
      start, the app deletion and `util.GetAppEnvDir`. */
  datatype DestroyAnswers = DestroyAnswers(
    config: Result<EnvironmentConfig>, token: Result<string>, confirmed: bool, stop: StopAnswers,
    proxyNeeded: bool, flyctl: Result<string>, proxyStart: Outcome, deleteApp: Outcome,
    appEnvDir: Result<string>)

  /** How the command ends: `os.Exit(code)`, or a normal return after
      everything was deleted. */
  datatype DestroyEnd = Exited(code: nat) | Deleted

  /** Everything the command can change. */
  datatype World = World(sessions: seq<Session>, log: seq<seq<string>>, nodes: map<string, Node>,
                         account: Account, proxyRunning: bool)

  /** The proxy is needed only without `--files-only`. */
  function ProxyStep(running: bool, filesOnly: bool, a: DestroyAnswers): (Option<StopHandle>, bool)
  {
    ReachStep(running, !filesOnly && a.proxyNeeded, a.flyctl.Ok?, a.proxyStart)
  }

  /** The deletions, in order: the Fly app (unless `filesOnly`), the
      configuration file, then the app directory that `util.GetAppEnvDir`
      names. The first failure ends the sequence. */
  function TeardownSpec(faults: Faults, nodes: map<string, Node>, acct: Account, appName: string,
                        flags: Flags, a: DestroyAnswers): (Outcome, map<string, Node>, Account)
  {
    var (deleted, acct') := if flags.filesOnly then (Pass, acct) else DeleteAppStep(acct, appName, a.deleteApp);
    if deleted.Fail? then (deleted, nodes, acct')
    else
      var (removed, nodes') := RemovePath(nodes, faults, flags.configPath);
      if removed.Fail? then (removed, nodes', acct')
      else if a.appEnvDir.Err? then (Fail(a.appEnvDir.error), nodes', acct')
      else
        var (cleared, nodes'') := RemoveTree(nodes', faults, a.appEnvDir.value);
        (cleared, nodes'', acct')
  }

  /** The whole command. Every path that got the proxy started calls the stop
      handle once: explicitly before each `os.Exit(1)`, or through the `defer`
      at the normal return. */
  function DestroySpec(onPath: bool, faults: Faults, w: World, slug: string -> string, flags: Flags,
                       v: StopVariant, a: DestroyAnswers): (DestroyEnd, World)
  {
    if a.config.Err? || a.token.Err? then (Exited(1), w)
    else if !flags.quit && !a.confirmed then (Exited(0), w)
    else
      var cfg := a.config.value;
      var stop := StopSessionVariantStep(v, onPath, w.sessions, CmdStart.SessionName(cfg.name, slug),
                                         a.stop.syncListing, a.stop.forwardListing, a.stop.decode,
                                         a.stop.syncTerminates, a.stop.forwardTerminates);
      FinishSpec(faults, w.(sessions := stop.sessions, log := w.log + stop.commands), cfg.name, flags, a)
  }

  /** The part of the command after `StopSession`: reach the proxy, then the
      deletions; the stop handle runs on every path that got one. */
  function FinishSpec(faults: Faults, w: World, appName: string, flags: Flags, a: DestroyAnswers)
    : (DestroyEnd, World)
  {
    var (handle, running) := ProxyStep(w.proxyRunning, flags.filesOnly, a);
    if handle.None? then (Exited(1), w.(proxyRunning := running))
    else
      var (done, nodes, acct) := TeardownSpec(faults, w.nodes, w.account, appName, flags, a);
      (if done.Pass? then Deleted else Exited(1),
       w.(nodes := nodes, account := acct, proxyRunning := AfterStop(running, handle.value)))
  }

  /** A run that gets past the configuration and the prompt. */
  predicate Proceeds(flags: Flags, a: DestroyAnswers)
  {
    a.config.Ok? && a.token.Ok? && (flags.quit || a.confirmed)
  }

  /** Without `--quit`, a declined prompt exits 0 before anything changes;
      exit code 0 happens in no other case. */
  lemma DeclinedPromptChangesNothing(onPath: bool, faults: Faults, w: World, slug: string -> string, flags: Flags,
                                     v: StopVariant, a: DestroyAnswers)
    ensures var (end, after) := DestroySpec(onPath, faults, w, slug, flags, v, a);
      && (end == Exited(0) <==> a.config.Ok? && a.token.Ok? && !flags.quit && !a.confirmed)
      && (end == Exited(0) ==> after == w)
      && (!Proceeds(flags, a) ==> after == w)
  {
  }

  /** Once past the prompt, `StopSession` runs in every run, however the
      deletions later fare: the engine ends up exactly as the stop leaves it. */
  lemma StopSessionAlwaysRuns(onPath: bool, faults: Faults, w: World, slug: string -> string, flags: Flags,
                              v: StopVariant, a: DestroyAnswers)
    requires Proceeds(flags, a)
    ensures var stop := StopSessionVariantStep(v, onPath, w.sessions, CmdStart.SessionName(a.config.value.name, slug),
                                               a.stop.syncListing, a.stop.forwardListing, a.stop.decode,
                                               a.stop.syncTerminates, a.stop.forwardTerminates);
            var after := DestroySpec(onPath, faults, w, slug, flags, v, a).1;
      after.sessions == stop.sessions && after.log == w.log + stop.commands
  {
  }

  /** The result of `StopSession` is ignored: whatever the engine answers, the
      command ends the same way and leaves the same files, account and proxy. */
  lemma StopResultIgnored(onPath: bool, faults: Faults, w: World, slug: string -> string, flags: Flags,
                          v: StopVariant, a: DestroyAnswers, other: StopAnswers)
    ensures var (end, after) := DestroySpec(onPath, faults, w, slug, flags, v, a);
            var (end', after') := DestroySpec(onPath, faults, w, slug, flags, v, a.(stop := other));
      end == end' && after.nodes == after'.nodes && after.account == after'.account
      && after.proxyRunning == after'.proxyRunning
  {
    if Proceeds(flags, a) {
      var a' := a.(stop := other);
      var name := CmdStart.SessionName(a.config.value.name, slug);
      var s1 := StopSessionVariantStep(v, onPath, w.sessions, name, a.stop.syncListing, a.stop.forwardListing,
                                       a.stop.decode, a.stop.syncTerminates, a.stop.forwardTerminates);
      var s2 := StopSessionVariantStep(v, onPath, w.sessions, name, other.syncListing, other.forwardListing,
                                       other.decode, other.syncTerminates, other.forwardTerminates);
      var w1 := w.(sessions := s1.sessions, log := w.log + s1.commands);
      var w2 := w.(sessions := s2.sessions, log := w.log + s2.commands);
      assert DestroySpec(onPath, faults, w, slug, flags, v, a) == FinishSpec(faults, w1, a.config.value.name, flags, a);
      assert DestroySpec(onPath, faults, w, slug, flags, v, a') == FinishSpec(faults, w2, a.config.value.name, flags, a');
      FinishIgnoresEngine(faults, w1, w2, a.config.value.name, flags, a, a');
    }
  }

  /** `FinishSpec` reads neither the sessions nor the log of the world, nor the stop answers. */
  lemma FinishIgnoresEngine(faults: Faults, w1: World, w2: World, appName: string, flags: Flags,
                            a1: DestroyAnswers, a2: DestroyAnswers)
    requires w1.nodes == w2.nodes && w1.account == w2.account && w1.proxyRunning == w2.proxyRunning
    requires a2 == a1.(stop := a2.stop)
    ensures var (end1, after1) := FinishSpec(faults, w1, appName, flags, a1);
            var (end2, after2) := FinishSpec(faults, w2, appName, flags, a2);
      end1 == end2 && after1.nodes == after2.nodes && after1.account == after2.account
      && after1.proxyRunning == after2.proxyRunning
  {
    assert ProxyStep(w1.proxyRunning, flags.filesOnly, a1) == ProxyStep(w2.proxyRunning, flags.filesOnly, a2);
    assert TeardownSpec(faults, w1.nodes, w1.account, appName, flags, a1)
        == TeardownSpec(faults, w2.nodes, w2.account, appName, flags, a2);
  }

  /** With `--files-only`, the Fly account is not called and no proxy is
      started. */
  lemma FilesOnlyLeavesFly(onPath: bool, faults: Faults, w: World, slug: string -> string, flags: Flags,
                           v: StopVariant, a: DestroyAnswers)
    requires flags.filesOnly
    ensures var after := DestroySpec(onPath, faults, w, slug, flags, v, a).1;
      after.account == w.account && after.proxyRunning == w.proxyRunning
  {
  }

  /** A failing `DeleteApp` exits 1 with the configuration file and the app
      directory still in place. */
  lemma DeleteFailureKeepsFiles(onPath: bool, faults: Faults, w: World, slug: string -> string, flags: Flags,
                                v: StopVariant, a: DestroyAnswers)
    requires Proceeds(flags, a) && !flags.filesOnly
    requires ProxyStep(w.proxyRunning, flags.filesOnly, a).0.Some?
    requires a.deleteApp.Fail?
    ensures var (end, after) := DestroySpec(onPath, faults, w, slug, flags, v, a);
      && end == Exited(1) && after.nodes == w.nodes
      && after.account.calls == w.account.calls + [DeleteAppCall(a.config.value.name)]
  {
  }

  /** The configuration file goes before the app directory: when it cannot be
      removed, the command exits 1 and no file at all has changed. */
  lemma ConfigFailureKeepsEnvDir(onPath: bool, faults: Faults, w: World, slug: string -> string, flags: Flags,
                                 v: StopVariant, a: DestroyAnswers)
    requires Proceeds(flags, a)
    requires ProxyStep(w.proxyRunning, flags.filesOnly, a).0.Some?
    requires flags.filesOnly || a.deleteApp.Pass?
    requires RemovePath(w.nodes, faults, flags.configPath).0.Fail?
    ensures var (end, after) := DestroySpec(onPath, faults, w, slug, flags, v, a);
      end == Exited(1) && after.nodes == w.nodes
  {
  }

  /** The command completes exactly when every step succeeds, and then the
      configuration file, the whole app directory and (without
      `--files-only`) the Fly app are gone. */
  lemma DeletedIff(onPath: bool, faults: Faults, w: World, slug: string -> string, flags: Flags,
                   v: StopVariant, a: DestroyAnswers)
    ensures var (end, after) := DestroySpec(onPath, faults, w, slug, flags, v, a);
      && (end == Deleted <==>
            && Proceeds(flags, a)
            && ProxyStep(w.proxyRunning, flags.filesOnly, a).0.Some?
            && (flags.filesOnly || a.deleteApp.Pass?)
            && RemovePath(w.nodes, faults, flags.configPath).0.Pass?
            && a.appEnvDir.Ok?
            && a.appEnvDir.value !in faults.remove)
      && (end == Deleted ==>
            && flags.configPath in w.nodes
            && flags.configPath !in after.nodes
            && (forall p :: p in after.nodes ==> !Below(p, a.appEnvDir.value))
            && (!flags.filesOnly ==> forall x :: x in after.account.apps ==> x.name != a.config.value.name))
  {
    var (end, after) := DestroySpec(onPath, faults, w, slug, flags, v, a);
    if end == Deleted {
      var (removed, nodes') := RemovePath(w.nodes, faults, flags.configPath);
      assert flags.configPath !in nodes';
    }
  }

  /** The proxy is never left running: if it was not running before the
      command, it is not running afterwards, whichever way the command ends. */
  lemma ProxyNeverLeftRunning(onPath: bool, faults: Faults, w: World, slug: string -> string, flags: Flags,
                              v: StopVariant, a: DestroyAnswers)
    requires !w.proxyRunning
    ensures !DestroySpec(onPath, faults, w, slug, flags, v, a).1.proxyRunning
  {
  }

  /** As written, the command removes no forward session of the engine: the
      project's forwards `name-k` outlive `destroy`, however it ends. */
  lemma DestroyKeepsForwards(faults: Faults, w: World, slug: string -> string, flags: Flags, a: DestroyAnswers)
    ensures OfKind(DestroySpec(true, faults, w, slug, flags, AsWritten, a).1.sessions, ForwardKind)
            == OfKind(w.sessions, ForwardKind)
  {
    if Proceeds(flags, a) {
      StopSessionKeepsForwards(w.sessions, CmdStart.SessionName(a.config.value.name, slug), a.stop.syncListing,
                               a.stop.forwardListing, a.stop.decode, a.stop.syncTerminates, a.stop.forwardTerminates);
    }
  }

  /** The four objects as a `World`. */
  function WorldOf(engine: Engine, fs: FileSystem, account: FlyAccount, proxy: Proxy): World
    reads engine, fs, account, proxy
  {
    World(engine.sessions, engine.log, fs.nodes, account.State(), proxy.running)
  }

  /** `runDestroyCommand`, with `StopSession` as written. */
  method RunDestroy(engine: Engine, fs: FileSystem, account: FlyAccount, proxy: Proxy, slug: string -> string,
                    flags: Flags, a: DestroyAnswers) returns (end: DestroyEnd)
    modifies engine, fs, account, proxy
    ensures (end, WorldOf(engine, fs, account, proxy))
         == DestroySpec(engine.onPath, fs.faults, old(WorldOf(engine, fs, account, proxy)), slug, flags, AsWritten, a)
  {
    if a.config.Err? || a.token.Err? {
      return Exited(1);
    }
    if !flags.quit && !a.confirmed {
      return Exited(0);
    }
    var cfg := a.config.value;
    var name := CmdStart.SessionName(cfg.name, slug);
    var _ := engine.StopSession(name, a.stop.syncListing, a.stop.forwardListing, a.stop.decode,
                                a.stop.syncTerminates, a.stop.forwardTerminates);
    var handle := Reach(proxy, !flags.filesOnly && a.proxyNeeded, a.flyctl.Ok?, a.proxyStart);
    if handle.None? {
      return Exited(1);
    }
    var done := Teardown(fs, account, cfg.name, flags, a);
    proxy.Stop(handle.value);
    end := if done.Pass? then Deleted else Exited(1);
  }

  /** The deletions of `runDestroyCommand`. */
  method Teardown(fs: FileSystem, account: FlyAccount, appName: string, flags: Flags, a: DestroyAnswers)
    returns (r: Outcome)
    modifies fs, account
    ensures (r, fs.nodes, account.State()) == TeardownSpec(fs.faults, old(fs.nodes), old(account.State()),
                                                           appName, flags, a)
  {
    if !flags.filesOnly {
      var deleted := account.DeleteApp(appName, a.deleteApp);
      if deleted.Fail? {
        return deleted;
      }
    }
    var removed := fs.Remove(flags.configPath);
    if removed.Fail? {
      return removed;
    }
    if a.appEnvDir.Err? {
      return Fail(a.appEnvDir.error);
    }
    r := fs.RemoveAll(a.appEnvDir.value);
  }
}
