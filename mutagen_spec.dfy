/** What each operation of the Mutagen session manager (internal/mutagen) does
    to the synchronisation engine, stated as pure functions: the value it
    returns, the engine commands it issues (argument vectors after the
    executable path), and the engine's sessions afterwards. The `Engine` class
    in module `Mutagen` is proved to behave exactly like these functions.

    The engine is an external subprocess. Its answers are inputs here: the
    output of each `list`/`create` run (`ProcResult`), the JSON decoder that
    turns a listing into session records (`Decoder`), the identifier the engine
    gives a new session, and whether each `terminate` run succeeds. */
module MutagenSpec {
  import opened Wrappers
  import opened Text

  /** The two kinds of engine session: file synchronisation and port forwarding. */
  datatype Kind = SyncKind | ForwardKind

  /** One session record as the engine lists it (internal/mutagen/types.go). */
  datatype Session = Session(identifier: string, name: string, paused: bool, kind: Kind)

  /** The outcome of `CombinedOutput` on one engine command: it finished, or
      exited with an error (`*exec.ExitError`), or could not be started. */
  datatype ProcResult =
    | Finished(output: string)
    | ExitError(status: string, output: string)
    | StartError(reason: string)

  /** The JSON decoder for a listing (`json.Unmarshal`); `None` is a parse error. */
  type Decoder = string -> Option<seq<Session>>

  /** What one engine operation does: the value it returns, the commands it
      issues in order, and the sessions the engine holds afterwards. */
  datatype Step<T> = Step(result: T, commands: seq<seq<string>>, sessions: seq<Session>)

  const NoExecutable := "unable to determine mutagen path"

  // ---------------------------------------------------------------------------
  // Command lines
  // ---------------------------------------------------------------------------

  const ListTemplate := "\"{{ json . }}\""

  function SyncListArgs(): seq<string> { ["sync", "list", "--template", ListTemplate] }

  function ForwardListArgs(): seq<string> { ["forward", "list", "--template", ListTemplate] }

  /** `sync create`: default ignores, the session name, two-way-resolved mode,
      the local path and `alias:remote_path`, in this order. */
  function SyncCreateArgs(name: string, localPath: string, alias: string, remotePath: string): seq<string>
  {
    ["sync", "create", "--ignore-vcs", "-i", "node_modules", "-i", "vendor",
     "--name", name, "--sync-mode", "two-way-resolved", localPath, alias + ":" + remotePath]
  }

  function ForwardCreateArgs(name: string, localSocket: string, alias: string, remoteSocket: string): seq<string>
  {
    ["forward", "create", "--name", name, localSocket, alias + ":" + remoteSocket]
  }

  function KindWord(kind: Kind): string
  {
    match kind
    case SyncKind => "sync"
    case ForwardKind => "forward"
  }

  /** `<kind> terminate <name>`. */
  function TerminateArgs(kind: Kind, name: string): seq<string>
  {
    [KindWord(kind), "terminate", name]
  }

  // ---------------------------------------------------------------------------
  // Listing: run `list`, trim the output, decode it
  // ---------------------------------------------------------------------------

  /** The characters `strings.Trim(output, "\n\"")` strips from both ends. */
  const ListCutset: set<char> := {'\n', '"'}

  /** The messages a failed listing produces: the one for an exit error, the one
      for a command that did not start. */
  datatype ListMessages = ListMessages(exitError: string, startError: string)

  const SyncListMessages := ListMessages("mutagen list syncs error: ", "unable to list mutagen sync sessions: ")
  const ForwardListMessages := ListMessages("mutagen sync error: ", "unable to stop mutagen sync: ")
  const ParseError := "could not parse mutagen output"

  /** `findSyncSessions` and the listing half of `StopForward`: a failed run is
      an error, otherwise the output, stripped of leading and trailing newlines
      and double quotes, is decoded, and a decoding failure is an error too. */
  function DecodeListing(run: ProcResult, decode: Decoder, msgs: ListMessages): (r: Result<seq<Session>>)
    ensures r.Ok? <==> run.Finished? && decode(Trim(run.output, ListCutset)).Some?
    ensures r.Ok? ==> Some(r.value) == decode(Trim(run.output, ListCutset))
  {
    match run
    case ExitError(status, output) => Err(msgs.exitError + status + " \n " + output)
    case StartError(reason) => Err(msgs.startError + reason)
    case Finished(output) =>
      match decode(Trim(output, ListCutset))
      case None => Err(ParseError)
      case Some(sessions) => Ok(sessions)
  }

  /** Index of the first listed session called `name`, if there is one. */
  function FirstNamed(listed: seq<Session>, name: string): (r: Option<nat>)
    ensures r.None? <==> forall i :: 0 <= i < |listed| ==> listed[i].name != name
    ensures r.Some? ==> r.value < |listed| && listed[r.value].name == name
    ensures r.Some? ==> forall i :: 0 <= i < r.value ==> listed[i].name != name
  {
    if listed == [] then None
    else if listed[0].name == name then Some(0)
    else
      match FirstNamed(listed[1..], name)
      case None => None
      case Some(i) => Some(i + 1)
  }

  // ---------------------------------------------------------------------------
  // Sync: look up by name, create only when absent
  // ---------------------------------------------------------------------------

  function SyncCreateResult(run: ProcResult): (r: Result<string>)
    ensures r.Ok? <==> run.Finished?
    ensures r.Ok? ==> r.value == run.output
  {
    match run
    case Finished(output) => Ok(output)
    case ExitError(status, output) => Err("mutagen sync error: " + status + " \n " + output)
    case StartError(reason) => Err("unable start mutagen sync: " + reason)
  }

  /** `Sync`: list the sync sessions; if one is called `name`, return the
      identifier of the first such session; otherwise create the session and
      return the engine's raw output. */
  function SyncStep(onPath: bool, state: seq<Session>, name: string, alias: string, localPath: string,
                    remotePath: string, listing: ProcResult, decode: Decoder,
                    create: ProcResult, newId: string): Step<Result<string>>
  {
    if !onPath then Step(Err(NoExecutable), [], state)
    else
      match DecodeListing(listing, decode, SyncListMessages)
      case Err(e) => Step(Err("could not list sync sessions: " + e), [SyncListArgs()], state)
      case Ok(listed) =>
        var after := SyncAfterListing(state, listed, name, alias, localPath, remotePath, create, newId);
        Step(after.result, [SyncListArgs()] + after.commands, after.sessions)
  }

  /** The part of `Sync` after a successful listing. */
  function SyncAfterListing(state: seq<Session>, listed: seq<Session>, name: string, alias: string,
                            localPath: string, remotePath: string, create: ProcResult,
                            newId: string): Step<Result<string>>
  {
    match FirstNamed(listed, name)
    case Some(i) => Step(Ok(listed[i].identifier), [], state)
    case None =>
      var cmds := [SyncCreateArgs(name, localPath, alias, remotePath)];
      match SyncCreateResult(create)
      case Ok(out) => Step(Ok(out), cmds, state + [Session(newId, name, false, SyncKind)])
      case Err(e) => Step(Err(e), cmds, state)
  }

  /** A listed session with the name is reused: its identifier is returned, no
      create is issued and the engine is unchanged. */
  lemma SyncReusesExisting(onPath: bool, state: seq<Session>, name: string, alias: string, localPath: string,
                           remotePath: string, listing: ProcResult, decode: Decoder,
                           create: ProcResult, newId: string, listed: seq<Session>, i: nat)
    requires onPath && DecodeListing(listing, decode, SyncListMessages) == Ok(listed)
    requires FirstNamed(listed, name) == Some(i)
    ensures var s := SyncStep(onPath, state, name, alias, localPath, remotePath, listing, decode, create, newId);
      s == Step(Ok(listed[i].identifier), [SyncListArgs()], state)
  {
    var after := SyncAfterListing(state, listed, name, alias, localPath, remotePath, create, newId);
    assert after == Step(Ok(listed[i].identifier), [], state);
    SyncStepListed(state, name, alias, localPath, remotePath, listing, decode, create, newId, listed);
    AppendEmpty([SyncListArgs()]);
  }

  /** After a listing that decodes, `Sync` is the listing followed by the rest of the operation. */
  lemma SyncStepListed(state: seq<Session>, name: string, alias: string, localPath: string,
                       remotePath: string, listing: ProcResult, decode: Decoder,
                       create: ProcResult, newId: string, listed: seq<Session>)
    requires DecodeListing(listing, decode, SyncListMessages) == Ok(listed)
    ensures var after := SyncAfterListing(state, listed, name, alias, localPath, remotePath, create, newId);
      SyncStep(true, state, name, alias, localPath, remotePath, listing, decode, create, newId)
      == Step(after.result, [SyncListArgs()] + after.commands, after.sessions)
  {
  }

  lemma AppendEmpty<T>(x: seq<T>)
    ensures x + [] == x
  {
  }

  lemma AppendSingletons<T>(x: T, y: T)
    ensures [x] + [y] == [x, y]
  {
  }

  /** Two `Sync` calls with the same name against an engine whose listing holds
      that name return the same identifier, create nothing, and leave the
      engine as it was. */
  lemma {:induction false} SyncIdempotent(state: seq<Session>, name: string, alias: string, localPath: string,
                                          remotePath: string, listing: ProcResult, decode: Decoder,
                                          create1: ProcResult, create2: ProcResult, id1: string, id2: string)
    requires DecodeListing(listing, decode, SyncListMessages).Ok?
    requires exists i :: 0 <= i < |DecodeListing(listing, decode, SyncListMessages).value|
                         && DecodeListing(listing, decode, SyncListMessages).value[i].name == name
    ensures var first := SyncStep(true, state, name, alias, localPath, remotePath, listing, decode, create1, id1);
            var second := SyncStep(true, first.sessions, name, alias, localPath, remotePath, listing, decode, create2, id2);
      && first.result.Ok? && second.result == first.result
      && first.commands == second.commands == [SyncListArgs()]
      && second.sessions == first.sessions == state
  {
    var listed := DecodeListing(listing, decode, SyncListMessages).value;
    var r := FirstNamed(listed, name);
    assert r.Some?;
    SyncReusesExisting(true, state, name, alias, localPath, remotePath, listing, decode, create1, id1, listed, r.value);
    SyncReusesExisting(true, state, name, alias, localPath, remotePath, listing, decode, create2, id2, listed, r.value);
  }

  /** A failed or unparsable listing makes `Sync` fail without creating anything. */
  lemma SyncListFailureChangesNothing(state: seq<Session>, name: string, alias: string, localPath: string,
                                      remotePath: string, listing: ProcResult, decode: Decoder,
                                      create: ProcResult, newId: string)
    requires DecodeListing(listing, decode, SyncListMessages).Err?
    ensures var s := SyncStep(true, state, name, alias, localPath, remotePath, listing, decode, create, newId);
      s.result.Err? && s.commands == [SyncListArgs()] && s.sessions == state
  {
  }

  /** When no listed session has the name, exactly one create is issued, with
      the fixed options; on success the raw output is returned and the engine
      gains one unpaused sync session with that name. */
  lemma SyncCreatesWhenAbsent(state: seq<Session>, name: string, alias: string, localPath: string,
                              remotePath: string, listing: ProcResult, decode: Decoder,
                              create: ProcResult, newId: string)
    requires DecodeListing(listing, decode, SyncListMessages).Ok?
    requires forall s :: s in DecodeListing(listing, decode, SyncListMessages).value ==> s.name != name
    ensures var s := SyncStep(true, state, name, alias, localPath, remotePath, listing, decode, create, newId);
      && s.commands == [SyncListArgs(), SyncCreateArgs(name, localPath, alias, remotePath)]
      && (s.result.Ok? <==> create.Finished?)
      && (create.Finished? ==> s.result.value == create.output
                               && s.sessions == state + [Session(newId, name, false, SyncKind)])
      && (!create.Finished? ==> s.sessions == state)
  {
    var listed := DecodeListing(listing, decode, SyncListMessages).value;
    NoneNamed(listed, name);
    var after := SyncAfterListing(state, listed, name, alias, localPath, remotePath, create, newId);
    SyncAfterAbsent(state, listed, name, alias, localPath, remotePath, create, newId);
    SyncStepListed(state, name, alias, localPath, remotePath, listing, decode, create, newId, listed);
    AppendSingletons(SyncListArgs(), SyncCreateArgs(name, localPath, alias, remotePath));
  }

  /** A listing none of whose sessions carries the name has no first such session. */
  lemma NoneNamed(listed: seq<Session>, name: string)
    requires forall s :: s in listed ==> s.name != name
    ensures FirstNamed(listed, name) == None
  {
    forall i | 0 <= i < |listed| ensures listed[i].name != name {
      assert listed[i] in listed;
    }
  }

  /** After a listing without the name, `Sync` issues the create and records its outcome. */
  lemma SyncAfterAbsent(state: seq<Session>, listed: seq<Session>, name: string, alias: string,
                        localPath: string, remotePath: string, create: ProcResult, newId: string)
    requires FirstNamed(listed, name) == None
    ensures var after := SyncAfterListing(state, listed, name, alias, localPath, remotePath, create, newId);
      && after.commands == [SyncCreateArgs(name, localPath, alias, remotePath)]
      && after.result == SyncCreateResult(create)
      && (create.Finished? ==> after.sessions == state + [Session(newId, name, false, SyncKind)])
      && (!create.Finished? ==> after.sessions == state)
  {
  }

  // ---------------------------------------------------------------------------
  // Forward: create unconditionally
  // ---------------------------------------------------------------------------

  function ForwardCreateResult(run: ProcResult): (r: Result<string>)
    ensures r.Ok? <==> run.Finished?
    ensures r.Ok? ==> r.value == run.output
    ensures run.ExitError? ==> Contains(r.error, run.output)
  {
    match run
    case Finished(output) => Ok(output)
    case ExitError(status, output) =>
      var prefix := "mutagen forward error: " + status + " \n ";
      assert OccursAt(prefix + output, output, |prefix|);
      Err(prefix + output)
    case StartError(reason) => Err("unable start mutagen forward: " + reason)
  }

  /** `Forward`: no lookup, one create per call. */
  function ForwardStep(onPath: bool, state: seq<Session>, name: string, localSocket: string, alias: string,
                       remoteSocket: string, create: ProcResult, newId: string): Step<Result<string>>
  {
    if !onPath then Step(Err(NoExecutable), [], state)
    else
      var cmds := [ForwardCreateArgs(name, localSocket, alias, remoteSocket)];
      match ForwardCreateResult(create)
      case Ok(out) => Step(Ok(out), cmds, state + [Session(newId, name, false, ForwardKind)])
      case Err(e) => Step(Err(e), cmds, state)
  }

  /** Two `Forward` calls with the same name issue two creates, and on success
      the engine holds two forwards with that name. */
  lemma ForwardTwiceCreatesTwice(state: seq<Session>, name: string, localSocket: string, alias: string,
                                 remoteSocket: string, create1: ProcResult, create2: ProcResult,
                                 id1: string, id2: string)
    requires create1.Finished? && create2.Finished?
    ensures var a := ForwardStep(true, state, name, localSocket, alias, remoteSocket, create1, id1);
            var b := ForwardStep(true, a.sessions, name, localSocket, alias, remoteSocket, create2, id2);
      && a.commands + b.commands == [ForwardCreateArgs(name, localSocket, alias, remoteSocket),
                                     ForwardCreateArgs(name, localSocket, alias, remoteSocket)]
      && b.sessions == state + [Session(id1, name, false, ForwardKind), Session(id2, name, false, ForwardKind)]
  {
  }

  // ---------------------------------------------------------------------------
  // Terminating every listed session a selector picks
  // ---------------------------------------------------------------------------

  /** Which listed names a stop operation terminates: exactly `name`, or (in
      the corrected forward stop) `name` and every `name-<k>`. */
  datatype Selector = Exact(name: string) | Family(name: string)

  predicate Selects(sel: Selector, n: string)
  {
    match sel
    case Exact(name) => n == name
    case Family(name) => n == name || IsForwardName(n, name)
  }

  /** `n` is `name-<digits>`. */
  predicate IsForwardName(n: string, name: string)
  {
    && |n| > |name| + 1
    && n[..|name| + 1] == name + "-"
    && forall i :: |name| + 1 <= i < |n| ==> IsDigit(n[i])
  }

  /** The engine without the sessions of `kind` called `name`: the effect of a
      successful `<kind> terminate <name>`. */
  function Without(state: seq<Session>, kind: Kind, name: string): (r: seq<Session>)
    ensures forall s :: s in r <==> s in state && !(s.kind == kind && s.name == name)
  {
    if state == [] then []
    else (if state[0].kind == kind && state[0].name == name then [] else [state[0]]) + Without(state[1..], kind, name)
  }

  /** The sessions of one kind, in order. */
  function OfKind(state: seq<Session>, kind: Kind): seq<Session>
  {
    if state == [] then []
    else (if state[0].kind == kind then [state[0]] else []) + OfKind(state[1..], kind)
  }

  /** `OfKind` keeps exactly the sessions of that kind. */
  lemma {:induction false} OfKindMembers(state: seq<Session>, kind: Kind)
    ensures forall s :: s in OfKind(state, kind) <==> s in state && s.kind == kind
  {
    if state != [] {
      OfKindMembers(state[1..], kind);
      assert forall s :: s in state <==> s == state[0] || s in state[1..];
    }
  }

  /** The stop loop from listed entry `j` on: every listed session the selector
      picks gets a `<kind> terminate <its name>`, in list order; the engine
      loses those sessions when `succeeds` says the command worked, and a
      failure is ignored. `count` numbers the terminate commands. */
  function TerminateLoop(state: seq<Session>, kind: Kind, sel: Selector, listed: seq<Session>,
                         succeeds: nat -> bool, count: nat): Step<Outcome>
    decreases |listed|
  {
    if listed == [] then Step(Pass, [], state)
    else if Selects(sel, listed[0].name) then
      var next := if succeeds(count) then Without(state, kind, listed[0].name) else state;
      var rest := TerminateLoop(next, kind, sel, listed[1..], succeeds, count + 1);
      Step(Pass, [TerminateArgs(kind, listed[0].name)] + rest.commands, rest.sessions)
    else TerminateLoop(state, kind, sel, listed[1..], succeeds, count)
  }

  /** Number of listed sessions the selector picks. */
  function CountSelected(listed: seq<Session>, sel: Selector): nat
  {
    if listed == [] then 0 else (if Selects(sel, listed[0].name) then 1 else 0) + CountSelected(listed[1..], sel)
  }

  /** The loop always ends in `nil`, issues one terminate per selected entry and
      nothing else, only removes sessions of `kind` that some selected entry
      names, and never adds any. */
  lemma {:induction false} TerminateLoopEffect(state: seq<Session>, kind: Kind, sel: Selector, listed: seq<Session>,
                                               succeeds: nat -> bool, count: nat)
    ensures var t := TerminateLoop(state, kind, sel, listed, succeeds, count);
      && t.result == Pass
      && |t.commands| == CountSelected(listed, sel)
      && (forall c :: c in t.commands ==> exists s :: s in listed && Selects(sel, s.name) && c == TerminateArgs(kind, s.name))
      && (forall s :: s in t.sessions ==> s in state)
      && (forall s :: s in state && !(s.kind == kind && exists l :: l in listed && Selects(sel, l.name) && l.name == s.name)
            ==> s in t.sessions)
    decreases |listed|
  {
    if listed != [] {
      var next := if succeeds(count) then Without(state, kind, listed[0].name) else state;
      if Selects(sel, listed[0].name) {
        TerminateLoopEffect(next, kind, sel, listed[1..], succeeds, count + 1);
      } else {
        TerminateLoopEffect(state, kind, sel, listed[1..], succeeds, count);
      }
      assert forall l :: l in listed[1..] ==> l in listed;
    }
  }

  /** With no selected entry the loop issues nothing and changes nothing. */
  lemma {:induction false} TerminateLoopNoMatch(state: seq<Session>, kind: Kind, sel: Selector, listed: seq<Session>,
                                                succeeds: nat -> bool, count: nat)
    requires forall l :: l in listed ==> !Selects(sel, l.name)
    ensures TerminateLoop(state, kind, sel, listed, succeeds, count) == Step(Pass, [], state)
    decreases |listed|
  {
    if listed != [] {
      assert listed[0] in listed;
      assert forall l :: l in listed[1..] ==> l in listed;
      TerminateLoopNoMatch(state, kind, sel, listed[1..], succeeds, count);
    }
  }

  /** When every terminate succeeds, no session of `kind` named by a selected
      entry survives. */
  lemma {:induction false} TerminateLoopRemovesSelected(state: seq<Session>, kind: Kind, sel: Selector,
                                                        listed: seq<Session>, succeeds: nat -> bool, count: nat)
    requires forall j :: succeeds(j)
    ensures forall s, l :: (s in TerminateLoop(state, kind, sel, listed, succeeds, count).sessions
                            && l in listed && Selects(sel, l.name) && s.kind == kind) ==> s.name != l.name
    decreases |listed|
  {
    if listed != [] {
      var next := if succeeds(count) then Without(state, kind, listed[0].name) else state;
      if Selects(sel, listed[0].name) {
        TerminateLoopRemovesSelected(next, kind, sel, listed[1..], succeeds, count + 1);
        TerminateLoopEffect(next, kind, sel, listed[1..], succeeds, count + 1);
      } else {
        TerminateLoopRemovesSelected(state, kind, sel, listed[1..], succeeds, count);
      }
    }
  }

  /** Terminating sync sessions leaves every forward session in place. */
  lemma {:induction false} TerminateSyncKeepsForwards(state: seq<Session>, sel: Selector, listed: seq<Session>,
                                                      succeeds: nat -> bool, count: nat)
    ensures OfKind(TerminateLoop(state, SyncKind, sel, listed, succeeds, count).sessions, ForwardKind)
            == OfKind(state, ForwardKind)
    decreases |listed|
  {
    if listed != [] {
      if Selects(sel, listed[0].name) {
        var next := if succeeds(count) then Without(state, SyncKind, listed[0].name) else state;
        WithoutSyncKeepsForwards(state, listed[0].name);
        TerminateSyncKeepsForwards(next, sel, listed[1..], succeeds, count + 1);
      } else {
        TerminateSyncKeepsForwards(state, sel, listed[1..], succeeds, count);
      }
    }
  }

  lemma {:induction false} WithoutSyncKeepsForwards(state: seq<Session>, name: string)
    ensures OfKind(Without(state, SyncKind, name), ForwardKind) == OfKind(state, ForwardKind)
  {
    if state != [] {
      var rest := Without(state[1..], SyncKind, name);
      WithoutSyncKeepsForwards(state[1..], name);
      if state[0].kind == SyncKind && state[0].name == name {
        assert Without(state, SyncKind, name) == rest;
      } else {
        assert Without(state, SyncKind, name) == [state[0]] + rest;
        OfKindAppend([state[0]], rest, ForwardKind);
      }
    }
  }

  lemma {:induction false} OfKindAppend(a: seq<Session>, b: seq<Session>, kind: Kind)
    ensures OfKind(a + b, kind) == OfKind(a, kind) + OfKind(b, kind)
  {
    if a != [] {
      assert (a + b)[0] == a[0];
      assert (a + b)[1..] == a[1..] + b;
      OfKindAppend(a[1..], b, kind);
      var head := if a[0].kind == kind then [a[0]] else [];
      assert OfKind(a + b, kind) == head + OfKind(a[1..] + b, kind);
      assert OfKind(a, kind) == head + OfKind(a[1..], kind);
      AppendAssoc(head, OfKind(a[1..], kind), OfKind(b, kind));
    } else {
      assert a + b == b;
    }
  }

  // ---------------------------------------------------------------------------
  // StopSync and StopForward
  // ---------------------------------------------------------------------------

  /** A stop operation: list, then (if the listing worked) the terminate loop. */
  function StopStep(onPath: bool, state: seq<Session>, listArgs: seq<string>, msgs: ListMessages,
                    wrap: string, kind: Kind, sel: Selector, listing: ProcResult, decode: Decoder,
                    succeeds: nat -> bool): Step<Outcome>
  {
    if !onPath then Step(Fail(NoExecutable), [], state)
    else
      match DecodeListing(listing, decode, msgs)
      case Err(e) => Step(Fail(wrap + e), [listArgs], state)
      case Ok(listed) =>
        var t := TerminateLoop(state, kind, sel, listed, succeeds, 0);
        Step(Pass, [listArgs] + t.commands, t.sessions)
  }

  /** After a listing that decodes, a stop is the listing followed by the terminate loop. */
  lemma StopStepListed(state: seq<Session>, listArgs: seq<string>, msgs: ListMessages, wrap: string, kind: Kind,
                       sel: Selector, listing: ProcResult, decode: Decoder, succeeds: nat -> bool)
    requires DecodeListing(listing, decode, msgs).Ok?
    ensures var t := TerminateLoop(state, kind, sel, DecodeListing(listing, decode, msgs).value, succeeds, 0);
      StopStep(true, state, listArgs, msgs, wrap, kind, sel, listing, decode, succeeds)
      == Step(Pass, [listArgs] + t.commands, t.sessions)
  {
  }

  /** A listing that fails or does not decode ends a stop with that listing alone. */
  lemma StopStepUnlisted(state: seq<Session>, listArgs: seq<string>, msgs: ListMessages, wrap: string, kind: Kind,
                         sel: Selector, listing: ProcResult, decode: Decoder, succeeds: nat -> bool)
    requires DecodeListing(listing, decode, msgs).Err?
    ensures StopStep(true, state, listArgs, msgs, wrap, kind, sel, listing, decode, succeeds)
      == Step(Fail(wrap + DecodeListing(listing, decode, msgs).error), [listArgs], state)
  {
  }

  /** `StopSync`: list syncs, `sync terminate` every session named exactly `name`. */
  function StopSyncStep(onPath: bool, state: seq<Session>, name: string, listing: ProcResult,
                        decode: Decoder, succeeds: nat -> bool): Step<Outcome>
  {
    StopStep(onPath, state, SyncListArgs(), SyncListMessages, "could not list sync sessions: ",
             SyncKind, Exact(name), listing, decode, succeeds)
  }

  /** `StopForward` as written: list forwards, then send `sync terminate` (not
      `forward terminate`) for every forward named exactly `name`. */
  function StopForwardStep(onPath: bool, state: seq<Session>, name: string, listing: ProcResult,
                           decode: Decoder, succeeds: nat -> bool): Step<Outcome>
  {
    StopStep(onPath, state, ForwardListArgs(), ForwardListMessages, "",
             SyncKind, Exact(name), listing, decode, succeeds)
  }

  /** A stop fails only when the executable is missing or the listing fails or
      cannot be parsed, and then it terminates nothing; otherwise it returns nil,
      whatever the individual terminate commands did. */
  lemma StopFailsOnlyOnListing(onPath: bool, state: seq<Session>, listArgs: seq<string>, msgs: ListMessages,
                               wrap: string, kind: Kind, sel: Selector, listing: ProcResult, decode: Decoder,
                               succeeds: nat -> bool)
    ensures var s := StopStep(onPath, state, listArgs, msgs, wrap, kind, sel, listing, decode, succeeds);
      && (s.result.Pass? <==> onPath && DecodeListing(listing, decode, msgs).Ok?)
      && (s.result.Fail? ==> s.sessions == state && forall c :: c in s.commands ==> c == listArgs)
  {
    if onPath && DecodeListing(listing, decode, msgs).Ok? {
      TerminateLoopEffect(state, kind, sel, DecodeListing(listing, decode, msgs).value, succeeds, 0);
    }
  }

  /** `StopSync` issues the listing and then one `sync terminate name` per
      listed session named `name`, in list order, and touches no session with
      another name or of another kind. */
  lemma StopSyncTerminatesMatches(state: seq<Session>, name: string, listing: ProcResult,
                                  decode: Decoder, succeeds: nat -> bool)
    requires DecodeListing(listing, decode, SyncListMessages).Ok?
    ensures var listed := DecodeListing(listing, decode, SyncListMessages).value;
            var s := StopSyncStep(true, state, name, listing, decode, succeeds);
      && s.result == Pass
      && s.commands[0] == SyncListArgs()
      && |s.commands| == 1 + CountSelected(listed, Exact(name))
      && (forall c :: c in s.commands[1..] ==> c == TerminateArgs(SyncKind, name))
      && (forall x :: x in state && (x.name != name || x.kind != SyncKind) ==> x in s.sessions)
  {
    var listed := DecodeListing(listing, decode, SyncListMessages).value;
    var t := TerminateLoop(state, SyncKind, Exact(name), listed, succeeds, 0);
    TerminateLoopEffect(state, SyncKind, Exact(name), listed, succeeds, 0);
    assert StopSyncStep(true, state, name, listing, decode, succeeds).commands[1..] == t.commands;
  }

  /** With no listed session of that name, `StopSync` returns nil after the
      listing alone and changes nothing. */
  lemma StopSyncNoMatch(state: seq<Session>, name: string, listing: ProcResult, decode: Decoder,
                        succeeds: nat -> bool)
    requires DecodeListing(listing, decode, SyncListMessages).Ok?
    requires forall l :: l in DecodeListing(listing, decode, SyncListMessages).value ==> l.name != name
    ensures StopSyncStep(true, state, name, listing, decode, succeeds) == Step(Pass, [SyncListArgs()], state)
  {
    var listed := DecodeListing(listing, decode, SyncListMessages).value;
    TerminateLoopNoMatch(state, SyncKind, Exact(name), listed, succeeds, 0);
    assert StopSyncStep(true, state, name, listing, decode, succeeds)
        == StopStep(true, state, SyncListArgs(), SyncListMessages, "could not list sync sessions: ",
                    SyncKind, Exact(name), listing, decode, succeeds);
    assert [SyncListArgs()] + [] == [SyncListArgs()];
  }

  /** `StopForward` as written never removes a forward session: whatever the
      listing and the terminate outcomes, the engine's forwards are unchanged. */
  lemma StopForwardKeepsForwards(state: seq<Session>, name: string, listing: ProcResult,
                                 decode: Decoder, succeeds: nat -> bool)
    ensures OfKind(StopForwardStep(true, state, name, listing, decode, succeeds).sessions, ForwardKind)
            == OfKind(state, ForwardKind)
  {
    match DecodeListing(listing, decode, ForwardListMessages)
    case Err(_) =>
    case Ok(listed) => TerminateSyncKeepsForwards(state, Exact(name), listed, succeeds, 0);
  }

  // ---------------------------------------------------------------------------
  // StartSession
  // ---------------------------------------------------------------------------

  datatype PortPair = PortPair(local: string, remote: string)

  /** `strings.Split(entry, ":")` must give exactly two parts. */
  function PortPairOf(entry: string): (r: Option<PortPair>)
    ensures r.Some? <==> Count(entry, ':') == 1
    ensures r.Some? ==> entry == r.value.local + ":" + r.value.remote
    ensures r.Some? ==> ':' !in r.value.local && ':' !in r.value.remote
  {
    var parts := Split(entry, ':');
    if |parts| != 2 then None
    else
      TwoParts(entry, ':');
      Some(PortPair(parts[0], parts[1]))
  }

  /** `fmt.Sprintf("%s-%d", name, k)`. */
  function ForwardName(name: string, k: nat): string
  {
    name + "-" + NatToString(k)
  }

  /** The forward for entry `k` is never called `name` itself, always belongs to
      the family of `name`, and different entries get different names. */
  lemma ForwardNameShape(name: string, k: nat, m: nat)
    ensures ForwardName(name, k) != name
    ensures IsForwardName(ForwardName(name, k), name)
    ensures ForwardName(name, k) == ForwardName(name, m) ==> k == m
  {
    var n := ForwardName(name, k);
    assert n[..|name| + 1] == name + "-";
    forall i | |name| + 1 <= i < |n| ensures IsDigit(n[i]) {
      assert n[i] == NatToString(k)[i - |name| - 1];
    }
    if ForwardName(name, k) == ForwardName(name, m) {
      assert NatToString(k) == n[|name| + 1..];
      NatToStringInjective(k, m);
    }
  }

  /** The message a forwarding entry that is not `<local>:<remote>` produces, before the entry. */
  const MalformedEntryPrefix := "invalid forwarding configuration found in vessel.yml file: "

  function Loopback(port: string): string { "tcp:127.0.0.1:" + port }

  /** The forward loop of `StartSession` from entry `k` on: split the entry,
      forward it as `name-k`, stop at the first malformed entry or failed
      forward (keeping what was already created). */
  function ForwardLoop(onPath: bool, state: seq<Session>, name: string, alias: string, forwarding: seq<string>,
                       k: nat, creates: nat -> ProcResult, ids: nat -> string): Step<Outcome>
    decreases |forwarding| - k
  {
    if k >= |forwarding| then Step(Pass, [], state)
    else
      match PortPairOf(forwarding[k])
      case None => Step(Fail(MalformedEntryPrefix + forwarding[k]), [], state)
      case Some(pp) =>
        var f := ForwardStep(onPath, state, ForwardName(name, k), Loopback(pp.local), alias,
                             Loopback(pp.remote), creates(k), ids(k));
        if f.result.Err? then
          Step(Fail("error forwarding port config `" + forwarding[k] + "`: " + f.result.error), f.commands, f.sessions)
        else
          var rest := ForwardLoop(onPath, f.sessions, name, alias, forwarding, k + 1, creates, ids);
          Step(rest.result, f.commands + rest.commands, rest.sessions)
  }

  /** `StartSession`: the sync first (no forward when it fails), then the
      forward loop. */
  function StartStep(onPath: bool, state: seq<Session>, name: string, localDir: string, alias: string,
                     remotePath: string, forwarding: seq<string>, listing: ProcResult, decode: Decoder,
                     syncCreate: ProcResult, syncId: string, creates: nat -> ProcResult,
                     ids: nat -> string): Step<Outcome>
  {
    var s := SyncStep(onPath, state, name, alias, localDir, remotePath, listing, decode, syncCreate, syncId);
    if s.result.Err? then Step(Fail("error starting syncing: " + s.result.error), s.commands, s.sessions)
    else
      var f := ForwardLoop(onPath, s.sessions, name, alias, forwarding, 0, creates, ids);
      Step(f.result, s.commands + f.commands, f.sessions)
  }

  /** Every entry from `k` on is well formed and forwarded successfully. */
  predicate AllForwarded(forwarding: seq<string>, k: nat, creates: nat -> ProcResult)
  {
    forall i :: k <= i < |forwarding| ==> PortPairOf(forwarding[i]).Some? && creates(i).Finished?
  }

  /** The forward loop succeeds exactly when every remaining entry is well
      formed and its forward is created; it only ever adds forward sessions
      named `name-i`, and never removes a session. */
  lemma {:induction false} ForwardLoopEffect(state: seq<Session>, name: string, alias: string,
                                             forwarding: seq<string>, k: nat,
                                             creates: nat -> ProcResult, ids: nat -> string)
    ensures var f := ForwardLoop(true, state, name, alias, forwarding, k, creates, ids);
      && (f.result.Pass? <==> AllForwarded(forwarding, k, creates))
      && state <= f.sessions
      && (forall s :: s in f.sessions[|state|..] ==> s.kind == ForwardKind && IsForwardName(s.name, name))
      && (f.result.Pass? && k <= |forwarding| ==> |f.sessions| == |state| + |forwarding| - k)
    decreases |forwarding| - k
  {
    ForwardLoopSucceedsIff(state, name, alias, forwarding, k, creates, ids);
    ForwardLoopGrows(state, name, alias, forwarding, k, creates, ids);
    var f := ForwardLoop(true, state, name, alias, forwarding, k, creates, ids);
    forall s | s in f.sessions[|state|..] ensures s.kind == ForwardKind && IsForwardName(s.name, name) {
      var i :| 0 <= i < |f.sessions[|state|..]| && f.sessions[|state|..][i] == s;
      assert f.sessions[|state| + i] == s;
    }
  }

  lemma {:induction false} ForwardLoopSucceedsIff(state: seq<Session>, name: string, alias: string,
                                                  forwarding: seq<string>, k: nat,
                                                  creates: nat -> ProcResult, ids: nat -> string)
    ensures ForwardLoop(true, state, name, alias, forwarding, k, creates, ids).result.Pass?
            <==> AllForwarded(forwarding, k, creates)
    decreases |forwarding| - k
  {
    if k < |forwarding| {
      if PortPairOf(forwarding[k]).None? || !creates(k).Finished? {
        ForwardLoopStops(state, name, alias, forwarding, k, creates, ids);
        assert !AllForwarded(forwarding, k, creates);
      } else {
        var next := state + [Session(ids(k), ForwardName(name, k), false, ForwardKind)];
        ForwardLoopAdvance(state, name, alias, forwarding, k, creates, ids);
        ForwardLoopSucceedsIff(next, name, alias, forwarding, k + 1, creates, ids);
        AllForwardedStep(forwarding, k, creates);
      }
    }
  }

  lemma {:induction false} ForwardLoopGrows(state: seq<Session>, name: string, alias: string,
                                            forwarding: seq<string>, k: nat,
                                            creates: nat -> ProcResult, ids: nat -> string)
    ensures var f := ForwardLoop(true, state, name, alias, forwarding, k, creates, ids);
      && state <= f.sessions
      && (forall i :: |state| <= i < |f.sessions| ==>
            f.sessions[i].kind == ForwardKind && IsForwardName(f.sessions[i].name, name))
      && (f.result.Pass? && k <= |forwarding| ==> |f.sessions| == |state| + |forwarding| - k)
    decreases |forwarding| - k
  {
    if k < |forwarding| {
      if PortPairOf(forwarding[k]).None? || !creates(k).Finished? {
        ForwardLoopStops(state, name, alias, forwarding, k, creates, ids);
      } else {
        var next := state + [Session(ids(k), ForwardName(name, k), false, ForwardKind)];
        ForwardLoopAdvance(state, name, alias, forwarding, k, creates, ids);
        ForwardLoopGrows(next, name, alias, forwarding, k + 1, creates, ids);
        ForwardNameShape(name, k, k);
        var rest := ForwardLoop(true, next, name, alias, forwarding, k + 1, creates, ids);
        assert state <= next && rest.sessions[|state|] == next[|state|];
      }
    }
  }

  /** A malformed entry or a failed create ends the loop with an error and
      leaves the engine as it was. */
  lemma ForwardLoopStops(state: seq<Session>, name: string, alias: string, forwarding: seq<string>,
                         k: nat, creates: nat -> ProcResult, ids: nat -> string)
    requires k < |forwarding| && (PortPairOf(forwarding[k]).None? || !creates(k).Finished?)
    ensures var f := ForwardLoop(true, state, name, alias, forwarding, k, creates, ids);
      f.result.Fail? && f.sessions == state
  {
    if PortPairOf(forwarding[k]).Some? {
      var pp := PortPairOf(forwarding[k]).value;
      var f := ForwardStep(true, state, ForwardName(name, k), Loopback(pp.local), alias,
                           Loopback(pp.remote), creates(k), ids(k));
      assert f.result.Err? && f.sessions == state;
    }
  }

  /** Entry `k` being forwarded, all entries from `k` on are exactly when all from `k + 1` on are. */
  lemma AllForwardedStep(forwarding: seq<string>, k: nat, creates: nat -> ProcResult)
    requires k < |forwarding| && PortPairOf(forwarding[k]).Some? && creates(k).Finished?
    ensures AllForwarded(forwarding, k, creates) <==> AllForwarded(forwarding, k + 1, creates)
  {
  }

  /** A malformed entry `k` after well-formed, successfully forwarded entries
      ends the loop with an error that quotes the entry, after exactly `k`
      creates; the later entries are never looked at. */
  lemma {:induction false} MalformedEntryStops(state: seq<Session>, name: string, alias: string,
                                               forwarding: seq<string>, j: nat, k: nat,
                                               creates: nat -> ProcResult, ids: nat -> string)
    requires j <= k < |forwarding| && PortPairOf(forwarding[k]).None?
    requires forall i :: j <= i < k ==> PortPairOf(forwarding[i]).Some? && creates(i).Finished?
    ensures var f := ForwardLoop(true, state, name, alias, forwarding, j, creates, ids);
      && f.result == Fail(MalformedEntryPrefix + forwarding[k])
      && |f.commands| == k - j
    decreases k - j
  {
    if j < k {
      assert PortPairOf(forwarding[j]).Some? && creates(j).Finished?;
      var next := state + [Session(ids(j), ForwardName(name, j), false, ForwardKind)];
      ForwardLoopAdvance(state, name, alias, forwarding, j, creates, ids);
      MalformedEntryStops(next, name, alias, forwarding, j + 1, k, creates, ids);
      var rest := ForwardLoop(true, next, name, alias, forwarding, j + 1, creates, ids);
      assert |rest.commands| == k - (j + 1);
    } else {
      assert ForwardLoop(true, state, name, alias, forwarding, j, creates, ids)
          == Step(Fail(MalformedEntryPrefix + forwarding[k]), [], state);
    }
  }

  /** A well-formed entry whose forward is created adds that one forward and
      one command, then the loop goes on with the next entry. */
  lemma ForwardLoopAdvance(state: seq<Session>, name: string, alias: string, forwarding: seq<string>,
                           k: nat, creates: nat -> ProcResult, ids: nat -> string)
    requires k < |forwarding| && PortPairOf(forwarding[k]).Some? && creates(k).Finished?
    ensures var pp := PortPairOf(forwarding[k]).value;
            var rest := ForwardLoop(true, state + [Session(ids(k), ForwardName(name, k), false, ForwardKind)],
                                    name, alias, forwarding, k + 1, creates, ids);
      ForwardLoop(true, state, name, alias, forwarding, k, creates, ids)
      == Step(rest.result,
              [ForwardCreateArgs(ForwardName(name, k), Loopback(pp.local), alias, Loopback(pp.remote))] + rest.commands,
              rest.sessions)
  {
    var pp := PortPairOf(forwarding[k]).value;
    var f := ForwardStep(true, state, ForwardName(name, k), Loopback(pp.local), alias,
                         Loopback(pp.remote), creates(k), ids(k));
    assert f.result == Ok(creates(k).output);
  }

  /** `Sync` never removes a session. */
  lemma SyncKeepsSessions(onPath: bool, state: seq<Session>, name: string, alias: string, localPath: string,
                          remotePath: string, listing: ProcResult, decode: Decoder,
                          create: ProcResult, newId: string)
    ensures state <= SyncStep(onPath, state, name, alias, localPath, remotePath, listing, decode, create, newId).sessions
  {
  }

  /** `StartSession` succeeds exactly when the sync succeeds and every entry is
      well formed and forwarded; it never removes a session, even when a later
      step fails. */
  lemma StartSucceedsIff(state: seq<Session>, name: string, localDir: string, alias: string,
                         remotePath: string, forwarding: seq<string>, listing: ProcResult, decode: Decoder,
                         syncCreate: ProcResult, syncId: string, creates: nat -> ProcResult, ids: nat -> string)
    ensures var st := StartStep(true, state, name, localDir, alias, remotePath, forwarding, listing, decode,
                                syncCreate, syncId, creates, ids);
            var sy := SyncStep(true, state, name, alias, localDir, remotePath, listing, decode, syncCreate, syncId);
      && (st.result.Pass? <==> sy.result.Ok? && AllForwarded(forwarding, 0, creates))
      && state <= st.sessions
  {
    var sy := SyncStep(true, state, name, alias, localDir, remotePath, listing, decode, syncCreate, syncId);
    SyncKeepsSessions(true, state, name, alias, localDir, remotePath, listing, decode, syncCreate, syncId);
    if sy.result.Ok? {
      ForwardLoopEffect(sy.sessions, name, alias, forwarding, 0, creates, ids);
      var f := ForwardLoop(true, sy.sessions, name, alias, forwarding, 0, creates, ids);
      assert StartStep(true, state, name, localDir, alias, remotePath, forwarding, listing, decode,
                       syncCreate, syncId, creates, ids) == Step(f.result, sy.commands + f.commands, f.sessions);
    }
  }

  // ---------------------------------------------------------------------------
  // StopSession
  // ---------------------------------------------------------------------------

  /** `StopSession`: `StopSync`, then `StopForward` whatever `StopSync` gave,
      and one error naming both results if either failed. */
  function StopSessionStep(onPath: bool, state: seq<Session>, name: string, syncListing: ProcResult,
                           forwardListing: ProcResult, decode: Decoder,
                           syncSucceeds: nat -> bool, forwardSucceeds: nat -> bool): Step<Outcome>
  {
    var a := StopSyncStep(onPath, state, name, syncListing, decode, syncSucceeds);
    var b := StopForwardStep(onPath, a.sessions, name, forwardListing, decode, forwardSucceeds);
    Step(Combined(a.result, b.result), a.commands + b.commands, b.sessions)
  }

  /** One error for two stop results, rendering each (a nil one as `%!w(<nil>)`). */
  function Combined(stopSync: Outcome, stopForward: Outcome): (r: Outcome)
    ensures r.Pass? <==> stopSync.Pass? && stopForward.Pass?
    ensures r.Fail? ==> Contains(r.error, Render(stopSync)) && Contains(r.error, Render(stopForward))
  {
    if stopSync.Fail? || stopForward.Fail? then
      var p := "stop syncing error: " + Render(stopSync) + ", stop forwarding error: ";
      assert OccursAt(p + Render(stopForward), Render(stopSync), |"stop syncing error: "|);
      assert OccursAt(p + Render(stopForward), Render(stopForward), |p|);
      Fail(p + Render(stopForward))
    else Pass
  }

  /** `StopSession` returns nil exactly when both stops do; the sync listing
      comes first and the forward listing is issued even when stopping the sync
      failed. */
  lemma StopSessionAttemptsBoth(state: seq<Session>, name: string, syncListing: ProcResult,
                                forwardListing: ProcResult, decode: Decoder,
                                syncSucceeds: nat -> bool, forwardSucceeds: nat -> bool)
    ensures var s := StopSessionStep(true, state, name, syncListing, forwardListing, decode,
                                     syncSucceeds, forwardSucceeds);
      && (s.result.Pass? <==> DecodeListing(syncListing, decode, SyncListMessages).Ok?
                              && DecodeListing(forwardListing, decode, ForwardListMessages).Ok?)
      && s.commands[0] == SyncListArgs()
      && ForwardListArgs() in s.commands
  {
    var a := StopSyncStep(true, state, name, syncListing, decode, syncSucceeds);
    var b := StopForwardStep(true, a.sessions, name, forwardListing, decode, forwardSucceeds);
    StopFailsOnlyOnListing(true, state, SyncListArgs(), SyncListMessages, "could not list sync sessions: ",
                           SyncKind, Exact(name), syncListing, decode, syncSucceeds);
    StopFailsOnlyOnListing(true, a.sessions, ForwardListArgs(), ForwardListMessages, "",
                           SyncKind, Exact(name), forwardListing, decode, forwardSucceeds);
    assert b.commands[0] == ForwardListArgs();
    assert (a.commands + b.commands)[|a.commands|] == ForwardListArgs();
  }

  /** The as-written `StopSession` never removes a forward session, so every
      forward `StartSession` created survives it. */
  lemma StopSessionKeepsForwards(state: seq<Session>, name: string, syncListing: ProcResult,
                                 forwardListing: ProcResult, decode: Decoder,
                                 syncSucceeds: nat -> bool, forwardSucceeds: nat -> bool)
    ensures OfKind(StopSessionStep(true, state, name, syncListing, forwardListing, decode,
                                   syncSucceeds, forwardSucceeds).sessions, ForwardKind)
            == OfKind(state, ForwardKind)
  {
    var a := StopSyncStep(true, state, name, syncListing, decode, syncSucceeds);
    var listing := DecodeListing(syncListing, decode, SyncListMessages);
    if listing.Ok? {
      TerminateSyncKeepsForwards(state, Exact(name), listing.value, syncSucceeds, 0);
    }
    StopForwardKeepsForwards(a.sessions, name, forwardListing, decode, forwardSucceeds);
  }

  /** A successful `StartSession` with at least one forwarding entry, followed
      by the as-written `StopSession`, leaves a forward of the project running,
      whatever the engine reports and however its commands fare. */
  lemma StartThenStopLeavesForward(state: seq<Session>, name: string, localDir: string, alias: string,
                                   remotePath: string, forwarding: seq<string>, listing: ProcResult,
                                   decode: Decoder, syncCreate: ProcResult, syncId: string,
                                   creates: nat -> ProcResult, ids: nat -> string,
                                   syncListing: ProcResult, forwardListing: ProcResult,
                                   syncSucceeds: nat -> bool, forwardSucceeds: nat -> bool)
    requires |forwarding| >= 1
    requires StartStep(true, state, name, localDir, alias, remotePath, forwarding, listing, decode,
                       syncCreate, syncId, creates, ids).result.Pass?
    ensures var st := StartStep(true, state, name, localDir, alias, remotePath, forwarding, listing, decode,
                                syncCreate, syncId, creates, ids);
            var stop := StopSessionStep(true, st.sessions, name, syncListing, forwardListing, decode,
                                        syncSucceeds, forwardSucceeds);
      exists s :: s in stop.sessions && s.kind == ForwardKind && IsForwardName(s.name, name)
  {
    var st := StartStep(true, state, name, localDir, alias, remotePath, forwarding, listing, decode,
                        syncCreate, syncId, creates, ids);
    var sy := SyncStep(true, state, name, alias, localDir, remotePath, listing, decode, syncCreate, syncId);
    ForwardLoopEffect(sy.sessions, name, alias, forwarding, 0, creates, ids);
    var x := st.sessions[|sy.sessions|];
    assert x in st.sessions[|sy.sessions|..];
    var stop := StopSessionStep(true, st.sessions, name, syncListing, forwardListing, decode,
                                syncSucceeds, forwardSucceeds);
    StopSessionKeepsForwards(st.sessions, name, syncListing, forwardListing, decode, syncSucceeds, forwardSucceeds);
    OfKindMembers(st.sessions, ForwardKind);
    OfKindMembers(stop.sessions, ForwardKind);
    assert x in OfKind(st.sessions, ForwardKind);
    assert x in OfKind(stop.sessions, ForwardKind);
  }

  /** `StopForward` corrected: list the forwards and send `forward terminate`
      for every forward called `name` or `name-<k>`. */
  function StopForwardCorrectedStep(onPath: bool, state: seq<Session>, name: string, listing: ProcResult,
                                    decode: Decoder, succeeds: nat -> bool): Step<Outcome>
  {
    StopStep(onPath, state, ForwardListArgs(), ForwardListMessages, "",
             ForwardKind, Family(name), listing, decode, succeeds)
  }

  /** `StopSession` with the corrected forward stop. */
  function StopSessionCorrectedStep(onPath: bool, state: seq<Session>, name: string, syncListing: ProcResult,
                                    forwardListing: ProcResult, decode: Decoder,
                                    syncSucceeds: nat -> bool, forwardSucceeds: nat -> bool): Step<Outcome>
  {
    var a := StopSyncStep(onPath, state, name, syncListing, decode, syncSucceeds);
    var b := StopForwardCorrectedStep(onPath, a.sessions, name, forwardListing, decode, forwardSucceeds);
    Step(Combined(a.result, b.result), a.commands + b.commands, b.sessions)
  }

  /** Which forward stop a command runs: `StopForward` as the source writes
      it, or the corrected one. */
  datatype StopVariant = AsWritten | Corrected

  /** `StopForward` in the given variant. */
  function StopForwardVariantStep(v: StopVariant, onPath: bool, state: seq<Session>, name: string,
                                  listing: ProcResult, decode: Decoder, succeeds: nat -> bool): Step<Outcome>
  {
    match v
    case AsWritten => StopForwardStep(onPath, state, name, listing, decode, succeeds)
    case Corrected => StopForwardCorrectedStep(onPath, state, name, listing, decode, succeeds)
  }

  /** `StopSession` in the given variant. */
  function StopSessionVariantStep(v: StopVariant, onPath: bool, state: seq<Session>, name: string,
                                  syncListing: ProcResult, forwardListing: ProcResult, decode: Decoder,
                                  syncSucceeds: nat -> bool, forwardSucceeds: nat -> bool): Step<Outcome>
  {
    match v
    case AsWritten => StopSessionStep(onPath, state, name, syncListing, forwardListing, decode,
                                      syncSucceeds, forwardSucceeds)
    case Corrected => StopSessionCorrectedStep(onPath, state, name, syncListing, forwardListing, decode,
                                               syncSucceeds, forwardSucceeds)
  }

  /** With listings that report the engine's sessions and terminate commands
      that succeed, the corrected `StopSession` returns nil and leaves neither
      the sync session `name` nor any forward `name` or `name-<k>`. */
  lemma StopSessionCorrectedClears(state: seq<Session>, name: string, syncListing: ProcResult,
                                   forwardListing: ProcResult, decode: Decoder,
                                   syncSucceeds: nat -> bool, forwardSucceeds: nat -> bool)
    requires forall j :: syncSucceeds(j)
    requires forall j :: forwardSucceeds(j)
    requires DecodeListing(syncListing, decode, SyncListMessages) == Ok(OfKind(state, SyncKind))
    requires DecodeListing(forwardListing, decode, ForwardListMessages) == Ok(OfKind(state, ForwardKind))
    ensures var s := StopSessionCorrectedStep(true, state, name, syncListing, forwardListing, decode,
                                              syncSucceeds, forwardSucceeds);
      && s.result == Pass
      && forall x :: x in s.sessions ==>
           !(x.kind == SyncKind && x.name == name) && !(x.kind == ForwardKind && Selects(Family(name), x.name))
  {
    var syncs := OfKind(state, SyncKind);
    var forwards := OfKind(state, ForwardKind);
    OfKindMembers(state, SyncKind);
    OfKindMembers(state, ForwardKind);
    var a := TerminateLoop(state, SyncKind, Exact(name), syncs, syncSucceeds, 0);
    var b := TerminateLoop(a.sessions, ForwardKind, Family(name), forwards, forwardSucceeds, 0);
    TerminateLoopEffect(state, SyncKind, Exact(name), syncs, syncSucceeds, 0);
    TerminateLoopEffect(a.sessions, ForwardKind, Family(name), forwards, forwardSucceeds, 0);
    TerminateLoopRemovesSelected(state, SyncKind, Exact(name), syncs, syncSucceeds, 0);
    TerminateLoopRemovesSelected(a.sessions, ForwardKind, Family(name), forwards, forwardSucceeds, 0);
    forall x | x in b.sessions
      ensures !(x.kind == SyncKind && x.name == name) && !(x.kind == ForwardKind && Selects(Family(name), x.name))
    {
      assert x in a.sessions && x in state;
    }
  }
}
