/** `vessel start` (cmd/start.go): read the project configuration, start the
    sync session on the current directory, forward every configured port, and
    then either return (detached) or wait for an interrupt and stop both kinds
    of session. The engine is the `Engine` class; what it reports is collected
    in `EngineAnswers`. The interrupt itself, the goroutine and the channels
    are not modelled: the stop sequence runs as if the signal had arrived. */
module CmdStart {
  import opened Wrappers
  import opened Config
  import opened MutagenSpec
  import opened Mutagen

  /** What the engine reports during one run of the command. */
  datatype EngineAnswers = EngineAnswers(
    listing: ProcResult, decode: Decoder, syncCreate: ProcResult, syncId: string,
    creates: nat -> ProcResult, ids: nat -> string,
    syncStopListing: ProcResult, forwardStopListing: ProcResult,
    syncTerminates: nat -> bool, forwardTerminates: nat -> bool)

  /** How the command ends: `os.Exit(code)`, a return right after starting
      (detached, no stop handler), or a return once the stop sequence has
      succeeded. */
  datatype StartEnd = Exited(code: nat) | Detached | Stopped

  /** The sync always starts on the current directory. */
  const LocalDir := "."

  /** The session name; `slug.Make` is not part of this model and is a parameter. */
  function SessionName(projectName: string, slug: string -> string): string
  {
    slug("vessel-" + projectName)
  }

  /** The set-up: the sync, then one forward per entry (an error stands for an
      `os.Exit(1)`). */
  function SetUpStep(onPath: bool, state: seq<Session>, cfg: EnvironmentConfig, name: string,
                     a: EngineAnswers): Step<Outcome>
  {
    var sy := SyncStep(onPath, state, name, cfg.remote.alias, LocalDir, cfg.remote.remotePath,
                       a.listing, a.decode, a.syncCreate, a.syncId);
    if sy.result.Err? then Step(Fail(sy.result.error), sy.commands, sy.sessions)
    else
      var f := ForwardLoop(onPath, sy.sessions, name, cfg.remote.alias, cfg.forwarding, 0, a.creates, a.ids);
      Step(f.result, sy.commands + f.commands, f.sessions)
  }

  /** The stop handler: `StopSync`, then `StopForward` (in variant `v`)
      whatever the first gave; the result says whether both returned nil. */
  function StopHandlerStep(onPath: bool, state: seq<Session>, name: string, v: StopVariant, a: EngineAnswers)
    : Step<bool>
  {
    var s := StopSyncStep(onPath, state, name, a.syncStopListing, a.decode, a.syncTerminates);
    var f := StopForwardVariantStep(v, onPath, s.sessions, name, a.forwardStopListing, a.decode,
                                    a.forwardTerminates);
    Step(s.result.Pass? && f.result.Pass?, s.commands + f.commands, f.sessions)
  }

  /** The whole command, with the forward stop in variant `v` (the source
      runs `AsWritten`). */
  function StartCommand(onPath: bool, state: seq<Session>, config: Result<EnvironmentConfig>,
                        slug: string -> string, detach: bool, v: StopVariant, a: EngineAnswers): Step<StartEnd>
  {
    match config
    case Err(_) => Step(Exited(1), [], state)
    case Ok(cfg) =>
      var name := SessionName(cfg.name, slug);
      var up := SetUpStep(onPath, state, cfg, name, a);
      if up.result.Fail? then Step(Exited(1), up.commands, up.sessions)
      else if detach then Step(Detached, up.commands, up.sessions)
      else
        var stop := StopHandlerStep(onPath, up.sessions, name, v, a);
        Step(if stop.result then Stopped else Exited(1), up.commands + stop.commands, stop.sessions)
  }

  /** The set-up issues the same commands, leaves the same sessions and
      succeeds in the same cases as `StartSession` on the current directory. */
  lemma SetUpIsStartSession(onPath: bool, state: seq<Session>, cfg: EnvironmentConfig, name: string,
                            a: EngineAnswers)
    ensures var up := SetUpStep(onPath, state, cfg, name, a);
            var st := StartStep(onPath, state, name, LocalDir, cfg.remote.alias, cfg.remote.remotePath,
                                cfg.forwarding, a.listing, a.decode, a.syncCreate, a.syncId, a.creates, a.ids);
      up.commands == st.commands && up.sessions == st.sessions && (up.result.Pass? <==> st.result.Pass?)
  {
  }

  /** The stop handler has the effect of `StopSession` in the same variant,
      and reports success exactly when it does. */
  lemma StopHandlerIsStopSession(onPath: bool, state: seq<Session>, name: string, v: StopVariant, a: EngineAnswers)
    ensures var h := StopHandlerStep(onPath, state, name, v, a);
            var s := StopSessionVariantStep(v, onPath, state, name, a.syncStopListing, a.forwardStopListing,
                                            a.decode, a.syncTerminates, a.forwardTerminates);
      h.commands == s.commands && h.sessions == s.sessions && (h.result <==> s.result.Pass?)
  {
  }

  /** An unreadable configuration exits 1 before any engine command. */
  lemma BadConfigExits(onPath: bool, state: seq<Session>, error: string, slug: string -> string,
                       detach: bool, v: StopVariant, a: EngineAnswers)
    ensures StartCommand(onPath, state, Err(error), slug, detach, v, a) == Step(Exited(1), [], state)
  {
  }

  /** The command exits 1 exactly when the configuration cannot be read, the
      set-up fails, or (without `--detach`) either stop fails; a detached run
      issues no stop command. */
  lemma StartCommandExitCases(state: seq<Session>, cfg: EnvironmentConfig, slug: string -> string,
                              detach: bool, v: StopVariant, a: EngineAnswers)
    ensures var name := SessionName(cfg.name, slug);
            var up := SetUpStep(true, state, cfg, name, a);
            var run := StartCommand(true, state, Ok(cfg), slug, detach, v, a);
      && (run.result == Exited(1) <==>
            up.result.Fail?
            || (!detach && (DecodeListing(a.syncStopListing, a.decode, SyncListMessages).Err?
                            || DecodeListing(a.forwardStopListing, a.decode, ForwardListMessages).Err?)))
      && (up.result.Pass? && detach ==> run == Step(Detached, up.commands, up.sessions))
      && (up.result.Pass? && !detach ==> run.commands[|up.commands|] == SyncListArgs())
  {
    var name := SessionName(cfg.name, slug);
    var up := SetUpStep(true, state, cfg, name, a);
    var run := StartCommand(true, state, Ok(cfg), slug, detach, v, a);
    if up.result.Fail? {
      assert run == Step(Exited(1), up.commands, up.sessions);
    } else if detach {
      assert run == Step(Detached, up.commands, up.sessions);
    } else {
      var s := StopSyncStep(true, up.sessions, name, a.syncStopListing, a.decode, a.syncTerminates);
      StopFailsOnlyOnListing(true, up.sessions, SyncListArgs(), SyncListMessages, "could not list sync sessions: ",
                             SyncKind, Exact(name), a.syncStopListing, a.decode, a.syncTerminates);
      if v == AsWritten {
        StopFailsOnlyOnListing(true, s.sessions, ForwardListArgs(), ForwardListMessages, "",
                               SyncKind, Exact(name), a.forwardStopListing, a.decode, a.forwardTerminates);
      } else {
        StopFailsOnlyOnListing(true, s.sessions, ForwardListArgs(), ForwardListMessages, "",
                               ForwardKind, Family(name), a.forwardStopListing, a.decode, a.forwardTerminates);
      }
      var stop := StopHandlerStep(true, up.sessions, name, v, a);
      assert stop.result <==> DecodeListing(a.syncStopListing, a.decode, SyncListMessages).Ok?
                              && DecodeListing(a.forwardStopListing, a.decode, ForwardListMessages).Ok?;
      assert stop.commands[0] == SyncListArgs();
      assert run == Step(if stop.result then Stopped else Exited(1), up.commands + stop.commands, stop.sessions);
    }
  }

  /** Whatever step of the set-up fails, nothing that was started before it is
      removed: the process exits with the sync and the earlier forwards still
      running. */
  lemma SetUpFailureKeepsSessions(state: seq<Session>, cfg: EnvironmentConfig, slug: string -> string,
                                  detach: bool, v: StopVariant, a: EngineAnswers)
    requires SetUpStep(true, state, cfg, SessionName(cfg.name, slug), a).result.Fail?
    ensures var run := StartCommand(true, state, Ok(cfg), slug, detach, v, a);
      run.result == Exited(1) && state <= run.sessions
  {
    var name := SessionName(cfg.name, slug);
    SetUpIsStartSession(true, state, cfg, name, a);
    StartSucceedsIff(state, name, LocalDir, cfg.remote.alias, cfg.remote.remotePath, cfg.forwarding,
                     a.listing, a.decode, a.syncCreate, a.syncId, a.creates, a.ids);
  }

  /** A sync that fails exits before any forward: the only commands issued are
      the sync listing and, at most, the sync creation on `.`. */
  lemma SyncFailureExitsBeforeForwards(state: seq<Session>, cfg: EnvironmentConfig, slug: string -> string,
                                       detach: bool, v: StopVariant, a: EngineAnswers)
    requires var name := SessionName(cfg.name, slug);
      SyncStep(true, state, name, cfg.remote.alias, LocalDir, cfg.remote.remotePath,
               a.listing, a.decode, a.syncCreate, a.syncId).result.Err?
    ensures var name := SessionName(cfg.name, slug);
            var run := StartCommand(true, state, Ok(cfg), slug, detach, v, a);
      && run.result == Exited(1)
      && forall c :: c in run.commands ==>
           c == SyncListArgs() || c == SyncCreateArgs(name, LocalDir, cfg.remote.alias, cfg.remote.remotePath)
  {
  }

  /** As written, an attached run with at least one forwarding entry whose
      set-up succeeds leaves a forward `name-k` of the project running once it
      has stopped, whatever the listings report and however the terminate
      commands fare; and it still ends normally whenever both listings can be
      read. */
  lemma AttachedRunLeavesForward(state: seq<Session>, cfg: EnvironmentConfig, slug: string -> string,
                                 a: EngineAnswers)
    requires |cfg.forwarding| >= 1
    requires SetUpStep(true, state, cfg, SessionName(cfg.name, slug), a).result.Pass?
    ensures var name := SessionName(cfg.name, slug);
            var run := StartCommand(true, state, Ok(cfg), slug, false, AsWritten, a);
      && (exists x :: x in run.sessions && x.kind == ForwardKind && IsForwardName(x.name, name))
      && (DecodeListing(a.syncStopListing, a.decode, SyncListMessages).Ok?
            && DecodeListing(a.forwardStopListing, a.decode, ForwardListMessages).Ok?
          ==> run.result == Stopped)
  {
    var name := SessionName(cfg.name, slug);
    var up := SetUpStep(true, state, cfg, name, a);
    SetUpIsStartSession(true, state, cfg, name, a);
    StopHandlerIsStopSession(true, up.sessions, name, AsWritten, a);
    StartThenStopLeavesForward(state, name, LocalDir, cfg.remote.alias, cfg.remote.remotePath, cfg.forwarding,
                               a.listing, a.decode, a.syncCreate, a.syncId, a.creates, a.ids,
                               a.syncStopListing, a.forwardStopListing, a.syncTerminates, a.forwardTerminates);
    StartCommandExitCases(state, cfg, slug, false, AsWritten, a);
  }

  /** With the corrected forward stop, an attached run whose listings report
      the engine's sessions and whose terminate commands succeed ends normally
      and leaves no session of the project behind: neither the sync nor any
      forward `name-k`. */
  lemma AttachedRunCleansUp(state: seq<Session>, cfg: EnvironmentConfig, slug: string -> string,
                            a: EngineAnswers)
    requires SetUpStep(true, state, cfg, SessionName(cfg.name, slug), a).result.Pass?
    requires forall j :: a.syncTerminates(j)
    requires forall j :: a.forwardTerminates(j)
    requires var up := SetUpStep(true, state, cfg, SessionName(cfg.name, slug), a);
      && DecodeListing(a.syncStopListing, a.decode, SyncListMessages) == Ok(OfKind(up.sessions, SyncKind))
      && DecodeListing(a.forwardStopListing, a.decode, ForwardListMessages) == Ok(OfKind(up.sessions, ForwardKind))
    ensures var name := SessionName(cfg.name, slug);
            var run := StartCommand(true, state, Ok(cfg), slug, false, Corrected, a);
      && run.result == Stopped
      && forall x :: x in run.sessions ==>
           !(x.kind == SyncKind && x.name == name) && !(x.kind == ForwardKind && IsForwardName(x.name, name))
  {
    var name := SessionName(cfg.name, slug);
    var up := SetUpStep(true, state, cfg, name, a);
    StopHandlerIsStopSession(true, up.sessions, name, Corrected, a);
    StopSessionCorrectedClears(up.sessions, name, a.syncStopListing, a.forwardStopListing, a.decode,
                               a.syncTerminates, a.forwardTerminates);
  }

  /** `runStartCommand` on an engine, with `StopForward` as written. */
  method RunStart(engine: Engine, config: Result<EnvironmentConfig>, slug: string -> string, detach: bool,
                  a: EngineAnswers) returns (end: StartEnd)
    modifies engine
    ensures var s := StartCommand(engine.onPath, old(engine.sessions), config, slug, detach, AsWritten, a);
      end == s.result && engine.log == old(engine.log) + s.commands && engine.sessions == s.sessions
  {
    if config.Err? {
      return Exited(1);
    }
    var cfg := config.value;
    var name := SessionName(cfg.name, slug);
    ghost var logBefore := engine.log;
    ghost var up := SetUpStep(engine.onPath, engine.sessions, cfg, name, a);
    var started := SetUp(engine, cfg, name, a);
    if started.Fail? {
      return Exited(1);
    }
    if detach {
      return Detached;
    }
    ghost var stop := StopHandlerStep(engine.onPath, engine.sessions, name, AsWritten, a);
    var stopped := HandleStop(engine, name, a);
    AppendAssoc(logBefore, up.commands, stop.commands);
    if !stopped {
      return Exited(1);
    }
    return Stopped;
  }

  /** The set-up part of `runStartCommand`. */
  method SetUp(engine: Engine, cfg: EnvironmentConfig, name: string, a: EngineAnswers) returns (r: Outcome)
    modifies engine
    ensures var s := SetUpStep(engine.onPath, old(engine.sessions), cfg, name, a);
      r == s.result && engine.log == old(engine.log) + s.commands && engine.sessions == s.sessions
  {
    ghost var logBefore := engine.log;
    ghost var sy := SyncStep(engine.onPath, engine.sessions, name, cfg.remote.alias, LocalDir,
                             cfg.remote.remotePath, a.listing, a.decode, a.syncCreate, a.syncId);
    var synced := engine.Sync(name, cfg.remote.alias, LocalDir, cfg.remote.remotePath, a.listing, a.decode,
                              a.syncCreate, a.syncId);
    if synced.Err? {
      return Fail(synced.error);
    }
    ghost var f := ForwardLoop(engine.onPath, engine.sessions, name, cfg.remote.alias, cfg.forwarding, 0,
                               a.creates, a.ids);
    r := engine.ForwardAll(name, cfg.remote.alias, cfg.forwarding, a.creates, a.ids);
    AppendAssoc(logBefore, sy.commands, f.commands);
  }

  /** The interrupt handler of `runStartCommand`: both stops, always, with
      `StopForward` as written. */
  method HandleStop(engine: Engine, name: string, a: EngineAnswers) returns (ok: bool)
    modifies engine
    ensures var s := StopHandlerStep(engine.onPath, old(engine.sessions), name, AsWritten, a);
      ok == s.result && engine.log == old(engine.log) + s.commands && engine.sessions == s.sessions
  {
    ghost var logBefore := engine.log;
    ghost var s := StopSyncStep(engine.onPath, engine.sessions, name, a.syncStopListing, a.decode, a.syncTerminates);
    var errSync := engine.StopSync(name, a.syncStopListing, a.decode, a.syncTerminates);
    ghost var f := StopForwardStep(engine.onPath, engine.sessions, name, a.forwardStopListing, a.decode,
                                   a.forwardTerminates);
    var errForward := engine.StopForward(name, a.forwardStopListing, a.decode, a.forwardTerminates);
    AppendAssoc(logBefore, s.commands, f.commands);
    ok := !(errSync.Fail? || errForward.Fail?);
  }
}
