/** The Mutagen session manager (internal/mutagen) as a class: the engine's
    sessions and the log of engine commands are the state its operations
    change, one command at a time, and every operation is proved to do exactly
    what its specification function in `MutagenSpec` describes. */
module Mutagen {
  import opened Wrappers
  import opened MutagenSpec

  class Engine {
    /** The sessions the engine currently holds. */
    var sessions: seq<Session>
    /** Every engine command issued so far, as arguments after the executable. */
    var log: seq<seq<string>>
    /** Whether `exec.LookPath` finds the executable. */
    const onPath: bool

    constructor (onPath: bool, sessions: seq<Session>)
      ensures this.onPath == onPath && this.sessions == sessions && log == []
    {
      this.onPath := onPath;
      this.sessions := sessions;
      log := [];
    }

    /** Issue one engine command. */
    method Run(args: seq<string>)
      modifies this
      ensures log == old(log) + [args] && sessions == old(sessions)
    {
      log := log + [args];
    }

    /** `findSyncSessions`: list the sync sessions and decode the trimmed output. */
    method FindSyncSessions(listing: ProcResult, decode: Decoder) returns (r: Result<seq<Session>>)
      modifies this
      ensures r == DecodeListing(listing, decode, SyncListMessages)
      ensures log == old(log) + [SyncListArgs()] && sessions == old(sessions)
    {
      Run(SyncListArgs());
      r := DecodeListing(listing, decode, SyncListMessages);
    }

    /** `Sync`: reuse the first listed session with the name, or create one. */
    method Sync(name: string, alias: string, localPath: string, remotePath: string,
                listing: ProcResult, decode: Decoder, create: ProcResult, newId: string)
      returns (r: Result<string>)
      modifies this
      ensures var s := SyncStep(onPath, old(sessions), name, alias, localPath, remotePath,
                                listing, decode, create, newId);
        r == s.result && log == old(log) + s.commands && sessions == s.sessions
    {
      if !onPath {
        return Err(NoExecutable);
      }
      var found := FindSyncSessions(listing, decode);
      if found.Err? {
        return Err("could not list sync sessions: " + found.error);
      }
      ghost var listedState, logListed := sessions, log;
      var after := SyncWith(found.value, name, alias, localPath, remotePath, create, newId);
      AppendAssoc(old(log), [SyncListArgs()], log[|logListed|..]);
      return after;
    }

    /** The part of `Sync` after a successful listing: scan for the name, and
        create the session when no listed session has it. */
    method SyncWith(listed: seq<Session>, name: string, alias: string, localPath: string, remotePath: string,
                    create: ProcResult, newId: string) returns (r: Result<string>)
      modifies this
      ensures var s := SyncAfterListing(old(sessions), listed, name, alias, localPath, remotePath, create, newId);
        r == s.result && log == old(log) + s.commands && sessions == s.sessions
    {
      var i := 0;
      while i < |listed|
        invariant 0 <= i <= |listed|
        invariant forall k :: 0 <= k < i ==> listed[k].name != name
      {
        if listed[i].name == name {
          assert FirstNamed(listed, name) == Some(i);
          return Ok(listed[i].identifier);
        }
        i := i + 1;
      }
      Run(SyncCreateArgs(name, localPath, alias, remotePath));
      r := SyncCreateResult(create);
      if r.Ok? {
        sessions := sessions + [Session(newId, name, false, SyncKind)];
      }
    }

    /** `Forward`: create a forward, with no lookup first. */
    method Forward(name: string, localSocket: string, alias: string, remoteSocket: string,
                   create: ProcResult, newId: string) returns (r: Result<string>)
      modifies this
      ensures var f := ForwardStep(onPath, old(sessions), name, localSocket, alias, remoteSocket, create, newId);
        r == f.result && log == old(log) + f.commands && sessions == f.sessions
    {
      if !onPath {
        return Err(NoExecutable);
      }
      Run(ForwardCreateArgs(name, localSocket, alias, remoteSocket));
      r := ForwardCreateResult(create);
      if r.Ok? {
        sessions := sessions + [Session(newId, name, false, ForwardKind)];
      }
    }

    /** The loop of the stop operations: terminate every listed session the
        selector picks, ignoring each command's outcome. */
    method TerminateSelected(kind: Kind, sel: Selector, listed: seq<Session>, succeeds: nat -> bool)
      modifies this
      ensures var t := TerminateLoop(old(sessions), kind, sel, listed, succeeds, 0);
        log == old(log) + t.commands && sessions == t.sessions
    {
      var i := 0;
      var count := 0;
      while i < |listed|
        invariant 0 <= i <= |listed|
        invariant var whole := TerminateLoop(old(sessions), kind, sel, listed, succeeds, 0);
                  var rest := TerminateLoop(sessions, kind, sel, listed[i..], succeeds, count);
          log + rest.commands == old(log) + whole.commands && rest.sessions == whole.sessions
      {
        assert listed[i..][0] == listed[i] && listed[i..][1..] == listed[i + 1..];
        if Selects(sel, listed[i].name) {
          Run(TerminateArgs(kind, listed[i].name));
          if succeeds(count) {
            sessions := Without(sessions, kind, listed[i].name);
          }
          count := count + 1;
        }
        i := i + 1;
      }
    }

    /** List one kind of session, then terminate the selected ones. */
    method Stop(listArgs: seq<string>, msgs: ListMessages, wrap: string, kind: Kind, sel: Selector,
                listing: ProcResult, decode: Decoder, succeeds: nat -> bool) returns (r: Outcome)
      modifies this
      ensures var s := StopStep(onPath, old(sessions), listArgs, msgs, wrap, kind, sel, listing, decode, succeeds);
        r == s.result && log == old(log) + s.commands && sessions == s.sessions
    {
      if !onPath {
        return Fail(NoExecutable);
      }
      Run(listArgs);
      var found := DecodeListing(listing, decode, msgs);
      if found.Err? {
        StopStepUnlisted(sessions, listArgs, msgs, wrap, kind, sel, listing, decode, succeeds);
        return Fail(wrap + found.error);
      }
      StopStepListed(sessions, listArgs, msgs, wrap, kind, sel, listing, decode, succeeds);
      TerminateSelected(kind, sel, found.value, succeeds);
      return Pass;
    }

    /** `StopSync`. */
    method StopSync(name: string, listing: ProcResult, decode: Decoder, succeeds: nat -> bool)
      returns (r: Outcome)
      modifies this
      ensures var s := StopSyncStep(onPath, old(sessions), name, listing, decode, succeeds);
        r == s.result && log == old(log) + s.commands && sessions == s.sessions
    {
      r := Stop(SyncListArgs(), SyncListMessages, "could not list sync sessions: ", SyncKind, Exact(name),
                listing, decode, succeeds);
    }

    /** `StopForward` as written. */
    method StopForward(name: string, listing: ProcResult, decode: Decoder, succeeds: nat -> bool)
      returns (r: Outcome)
      modifies this
      ensures var s := StopForwardStep(onPath, old(sessions), name, listing, decode, succeeds);
        r == s.result && log == old(log) + s.commands && sessions == s.sessions
    {
      r := Stop(ForwardListArgs(), ForwardListMessages, "", SyncKind, Exact(name), listing, decode, succeeds);
    }

    /** `StopForward` corrected: `forward terminate` for `name` and `name-<k>`. */
    method StopForwardCorrected(name: string, listing: ProcResult, decode: Decoder, succeeds: nat -> bool)
      returns (r: Outcome)
      modifies this
      ensures var s := StopForwardCorrectedStep(onPath, old(sessions), name, listing, decode, succeeds);
        r == s.result && log == old(log) + s.commands && sessions == s.sessions
    {
      r := Stop(ForwardListArgs(), ForwardListMessages, "", ForwardKind, Family(name), listing, decode, succeeds);
    }

    /** `StartSession`: the sync, then one forward per entry, named `name-k`. */
    method StartSession(name: string, localDir: string, alias: string, remotePath: string,
                        forwarding: seq<string>, listing: ProcResult, decode: Decoder,
                        syncCreate: ProcResult, syncId: string, creates: nat -> ProcResult,
                        ids: nat -> string) returns (r: Outcome)
      modifies this
      ensures var s := StartStep(onPath, old(sessions), name, localDir, alias, remotePath, forwarding,
                                 listing, decode, syncCreate, syncId, creates, ids);
        r == s.result && log == old(log) + s.commands && sessions == s.sessions
    {
      ghost var logBefore := log;
      var synced := Sync(name, alias, localDir, remotePath, listing, decode, syncCreate, syncId);
      if synced.Err? {
        return Fail("error starting syncing: " + synced.error);
      }
      ghost var sy := SyncStep(onPath, old(sessions), name, alias, localDir, remotePath, listing, decode,
                               syncCreate, syncId);
      ghost var midLog := log;
      ghost var whole := ForwardLoop(onPath, sessions, name, alias, forwarding, 0, creates, ids);
      assert midLog == logBefore + sy.commands;
      assert StartStep(onPath, old(sessions), name, localDir, alias, remotePath, forwarding, listing, decode,
                       syncCreate, syncId, creates, ids) == Step(whole.result, sy.commands + whole.commands, whole.sessions);
      r := ForwardAll(name, alias, forwarding, creates, ids);
      AppendAssoc(logBefore, sy.commands, whole.commands);
    }

    /** The forward loop of `StartSession`: entry `k` is forwarded as `name-k`;
        a malformed entry or a failed forward ends the loop with an error. */
    method ForwardAll(name: string, alias: string, forwarding: seq<string>, creates: nat -> ProcResult,
                      ids: nat -> string) returns (r: Outcome)
      modifies this
      ensures var whole := ForwardLoop(onPath, old(sessions), name, alias, forwarding, 0, creates, ids);
        r == whole.result && log == old(log) + whole.commands && sessions == whole.sessions
    {
      ghost var whole := ForwardLoop(onPath, sessions, name, alias, forwarding, 0, creates, ids);
      var k := 0;
      while k < |forwarding|
        invariant 0 <= k <= |forwarding|
        invariant var rest := ForwardLoop(onPath, sessions, name, alias, forwarding, k, creates, ids);
          && rest.result == whole.result && log + rest.commands == old(log) + whole.commands
          && rest.sessions == whole.sessions
      {
        var entry := forwarding[k];
        var ports := PortPairOf(entry);
        if ports.None? {
          return Fail(MalformedEntryPrefix + entry);
        }
        ghost var logHere := log;
        var forwarded := Forward(ForwardName(name, k), Loopback(ports.value.local), alias,
                                 Loopback(ports.value.remote), creates(k), ids(k));
        if forwarded.Err? {
          return Fail("error forwarding port config `" + entry + "`: " + forwarded.error);
        }
        ghost var next := ForwardLoop(onPath, sessions, name, alias, forwarding, k + 1, creates, ids);
        AppendAssoc(logHere, log[|logHere|..], next.commands);
        k := k + 1;
      }
      return Pass;
    }

    /** `StopSession` as written. */
    method StopSession(name: string, syncListing: ProcResult, forwardListing: ProcResult, decode: Decoder,
                       syncSucceeds: nat -> bool, forwardSucceeds: nat -> bool) returns (r: Outcome)
      modifies this
      ensures var s := StopSessionStep(onPath, old(sessions), name, syncListing, forwardListing, decode,
                                       syncSucceeds, forwardSucceeds);
        r == s.result && log == old(log) + s.commands && sessions == s.sessions
    {
      ghost var before, logBefore := sessions, log;
      var errSync := StopSync(name, syncListing, decode, syncSucceeds);
      ghost var a := StopSyncStep(onPath, before, name, syncListing, decode, syncSucceeds);
      ghost var middle, logMiddle := sessions, log;
      assert middle == a.sessions && logMiddle == logBefore + a.commands;
      var errForward := StopForward(name, forwardListing, decode, forwardSucceeds);
      ghost var b := StopForwardStep(onPath, middle, name, forwardListing, decode, forwardSucceeds);
      assert log == logMiddle + b.commands;
      r := Combined(errSync, errForward);
      assert StopSessionStep(onPath, before, name, syncListing, forwardListing, decode, syncSucceeds, forwardSucceeds)
        == Step(Combined(a.result, b.result), a.commands + b.commands, b.sessions);
      AppendAssoc(logBefore, a.commands, b.commands);
    }

    /** `StopSession` with the corrected forward stop. */
    method StopSessionCorrected(name: string, syncListing: ProcResult, forwardListing: ProcResult,
                                decode: Decoder, syncSucceeds: nat -> bool, forwardSucceeds: nat -> bool)
      returns (r: Outcome)
      modifies this
      ensures var s := StopSessionCorrectedStep(onPath, old(sessions), name, syncListing, forwardListing, decode,
                                                syncSucceeds, forwardSucceeds);
        r == s.result && log == old(log) + s.commands && sessions == s.sessions
    {
      ghost var before, logBefore := sessions, log;
      var errSync := StopSync(name, syncListing, decode, syncSucceeds);
      ghost var a := StopSyncStep(onPath, before, name, syncListing, decode, syncSucceeds);
      ghost var middle, logMiddle := sessions, log;
      assert middle == a.sessions && logMiddle == logBefore + a.commands;
      var errForward := StopForwardCorrected(name, forwardListing, decode, forwardSucceeds);
      ghost var b := StopForwardCorrectedStep(onPath, middle, name, forwardListing, decode, forwardSucceeds);
      assert log == logMiddle + b.commands;
      r := Combined(errSync, errForward);
      AppendAssoc(logBefore, a.commands, b.commands);
    }
  }
}
