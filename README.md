# vessel-cli core, modelled in Dafny

vessel-cli is a Go command-line tool. It provisions a remote development
environment on Fly.io and keeps a local project directory in sync with it
through `mutagen`. This project models the core of that tool and proves
properties of the model:

- **the mutagen wrapper** (`internal/mutagen`): sync and forward sessions
  are created, listed and terminated, and `StartSession`/`StopSession`
  combine them;
- **the Fly HTTP client** (`internal/fly/http.go`) with its retry loop, the
  machine requests and the machine poll (`internal/fly/machine.go`);
- **environment creation** (`internal/environments/create.go`): create
  app, run machine, allocate an IPv6 address;
- **the Vessel API client** (`internal/vessel/api.go`);
- **the storage directories** under `~/.vessel` (`internal/util/storage.go`);
- **SSH access to the environment** (`internal/remote/connection.go`);
- **configuration validation** (`internal/config/types.go`);
- **three commands**: `init`, `start` and `destroy` (`cmd/`).

The external world becomes explicit state and oracle parameters:

- The mutagen daemon's sessions and the command lines sent to it are the
  fields of `Mutagen.Engine`.
- The local filesystem is `Storage.FileSystem`: a map from paths to
  directories and files, plus the faults it reports.
- The Fly account (apps, machines, addresses, and the calls made on it) is
  `Environments.FlyAccount`.
- Whether the local `fly machine api-proxy` is running is `FlyProxy.Proxy`.
- Everything the program cannot decide itself is a parameter: process
  output, JSON/YAML decoding, HTTP answers, prompt answers, `slug.Make`,
  the home directory, key generation and the network.

Each state-changing operation is a method of one of these classes. It is
proved equal to a pure step function over the old state. The properties
are proved about those step functions.

## Model

| member | source | states |
|---|---|---|
| Text.TrimIsMaximalSlice | internal/mutagen/sync.go:122 | `strings.Trim` returns the largest middle slice whose ends are not in the cut set |
| Text.JoinSplit | internal/mutagen/start.go:18 | joining the parts of `strings.Split` with the separator gives the original string back |
| Text.TwoParts | internal/mutagen/start.go:18-22 | a split into exactly two parts is `local + ":" + remote` |
| Text.ParseNatToString | internal/mutagen/start.go:24 | the decimal rendering of `%d` reads back as the same number |
| Text.NatToStringInjective | internal/mutagen/start.go:24 | different indices render as different decimal strings |
| Config.Valid | internal/config/types.go:25-55 | valid exactly when every required field is present; valid exactly when no error is reported |
| Config.FirstFailure | internal/config/types.go:25-55 | no message iff no check fails; otherwise the message of a failing check |
| Config.ValidReportsFirstFailure | internal/config/types.go:25-55 | the error returned is the message of the first failing check, in source order |
| Config.MissingUserNamesUser | internal/config/types.go:38-40 | with name, forwarding and host present, a missing user gives the user message |
| Config.NoForwardingIsInvalid | internal/config/types.go:30-32 | an empty forwarding list is invalid, and with a name it is the reported error |
| Config.OnlyPortZeroRejected | internal/config/types.go:50-52 | port 0 is rejected and every other port (negative too) is accepted |
| Config.AliasAndEntryFormatUnchecked | internal/config/types.go:25-55 | the alias and the format of forwarding entries never affect validity |
| Config.RetrieveProjectConfig | internal/config/yaml.go:14-36 | Ok iff the file reads, decodes and is valid; the result is the decoded configuration |
| MutagenSpec.DecodeListing | internal/mutagen/sync.go:99-129 | a listing is Ok iff the command finished and its trimmed output decodes; the value is the decoded list |
| MutagenSpec.FirstNamed | internal/mutagen/sync.go:28-32 | finds the first listed session with the name, or None iff there is none |
| MutagenSpec.SyncCreateResult | internal/mutagen/sync.go:50-60 | a create succeeds iff the command finished; the result is its output |
| MutagenSpec.SyncReusesExisting | internal/mutagen/sync.go:28-32 | an existing session of that name is returned; nothing is created and only the listing runs |
| MutagenSpec.SyncIdempotent | internal/mutagen/sync.go:14-61 | a second `Sync` with the same name returns the same identifier and changes nothing |
| MutagenSpec.SyncListFailureChangesNothing | internal/mutagen/sync.go:22-26 | a failed listing is an error with no session created |
| MutagenSpec.SyncCreatesWhenAbsent | internal/mutagen/sync.go:34-60 | without a session of that name, `sync create` runs with the source's arguments; a finished create adds exactly one sync session |
| MutagenSpec.ForwardCreateResult | internal/mutagen/forward.go:33-43 | a forward succeeds iff the command finished; a failure message carries the command output |
| MutagenSpec.ForwardTwiceCreatesTwice | internal/mutagen/forward.go:14-44 | `Forward` does not look for an existing session: two calls create two sessions |
| MutagenSpec.TerminateLoopEffect | internal/mutagen/sync.go:78-94 | the loop always passes, sends one terminate per selected listed session, and keeps every unselected session |
| MutagenSpec.TerminateLoopNoMatch | internal/mutagen/sync.go:78-94 | with nothing selected, the loop sends nothing and changes nothing |
| MutagenSpec.TerminateLoopRemovesSelected | internal/mutagen/sync.go:78-94 | when every terminate succeeds, no selected session of that kind is left |
| MutagenSpec.TerminateSyncKeepsForwards | internal/mutagen/forward.go:84-91 | `sync terminate` never removes a forward session |
| MutagenSpec.StopFailsOnlyOnListing | internal/mutagen/sync.go:63-97 | a stop fails iff mutagen is missing or the listing fails, and then it changes nothing and sends only listings |
| MutagenSpec.StopSyncTerminatesMatches | internal/mutagen/sync.go:63-97 | `StopSync` lists, then terminates each listed sync session with exactly that name; other sessions stay |
| MutagenSpec.StopSyncNoMatch | internal/mutagen/sync.go:78-94 | with no sync session of that name, `StopSync` only lists |
| MutagenSpec.StopForwardKeepsForwards | internal/mutagen/forward.go:46-96 | as written, `StopForward` leaves every forward session in place |
| MutagenSpec.PortPairOf | internal/mutagen/start.go:18-22 | an entry is accepted iff it has exactly one colon, and it is `local:remote` |
| MutagenSpec.ForwardNameShape | internal/mutagen/start.go:24 | the k-th forward is named `name-k`: never `name` itself, and distinct for distinct k |
| MutagenSpec.ForwardLoopEffect | internal/mutagen/start.go:17-29 | the loop passes iff every entry is well formed and forwarded; it only appends forward sessions of the `name-k` family, one per entry on success |
| MutagenSpec.MalformedEntryStops | internal/mutagen/start.go:20-22 | the first malformed entry stops the loop with the source's message, after forwarding the entries before it |
| MutagenSpec.SyncKeepsSessions | internal/mutagen/sync.go:14-61 | `Sync` never removes a session |
| MutagenSpec.StartSucceedsIff | internal/mutagen/start.go:9-32 | `StartSession` succeeds iff the sync succeeds and every forward does; no session is removed |
| MutagenSpec.Combined | internal/mutagen/stop.go:11-15 | the combined result passes iff both stops pass; a failure mentions both results |
| MutagenSpec.StopSessionAttemptsBoth | internal/mutagen/stop.go:6-16 | `StopSession` runs both stops even when one fails; it passes iff both listings decode |
| MutagenSpec.StopSessionKeepsForwards | internal/mutagen/stop.go:6-16 | as written, `StopSession` leaves every forward session |
| MutagenSpec.StartThenStopLeavesForward | internal/mutagen/forward.go:84-91 | after a successful start with a forwarding entry, `StopSession` leaves a `name-k` forward behind |
| MutagenSpec.StopSessionCorrectedClears | internal/mutagen/forward.go:81-93 | with forwards terminated by `forward terminate` on the `name-k` family, stopping removes every session of the project |
| Mutagen.Engine.FindSyncSessions | internal/mutagen/sync.go:99-129 | runs the listing command and returns the decoded listing |
| Mutagen.Engine.Sync | internal/mutagen/sync.go:14-61 | result, commands sent and new sessions are those of the sync step |
| Mutagen.Engine.Forward | internal/mutagen/forward.go:14-44 | result, commands sent and new sessions are those of the forward step |
| Mutagen.Engine.TerminateSelected | internal/mutagen/sync.go:78-94 | the terminate loop over the listed sessions, as the loop step states |
| Mutagen.Engine.StopSync | internal/mutagen/sync.go:63-97 | result, commands and sessions are those of the stop-sync step |
| Mutagen.Engine.StopForward | internal/mutagen/forward.go:46-96 | result, commands and sessions are those of the stop-forward step as written |
| Mutagen.Engine.StopForwardCorrected | internal/mutagen/forward.go:81-93 | the stop-forward step with `forward terminate` on the `name-k` family |
| Mutagen.Engine.StartSession | internal/mutagen/start.go:9-32 | result, commands and sessions are those of the start step |
| Mutagen.Engine.ForwardAll | internal/mutagen/start.go:17-29 | the forwarding loop, as the loop step states |
| Mutagen.Engine.StopSession | internal/mutagen/stop.go:6-16 | the stop-session step as written |
| Mutagen.Engine.StopSessionCorrected | internal/mutagen/stop.go:6-16 | the stop-session step with the corrected forward stop |
| FlyHttp.ApiHost | internal/fly/http.go:22-34 | `FLY_HOST` if set, the default host otherwise; never empty |
| FlyHttp.RetryFrom | internal/fly/http.go:57-80 | the attempt count lies between the first attempt and the attempt bound |
| FlyHttp.RetryCharacterised | internal/fly/http.go:57-80 | only timeouts are retried; a response or other error ends the loop; after the last timeout that timeout's error is returned |
| FlyHttp.DoRequestWithRetries | internal/fly/http.go:57-80 | the retry loop returns what the retry function gives |
| FlyHttp.CheckStatus | internal/fly/http.go:48-52 | a status above 299 is an error carrying status and body; otherwise the body is returned |
| FlyHttp.DoRequest | internal/fly/http.go:36-55 | a request that cannot be built sends nothing; otherwise the retries, then the status check |
| FlyMachine.RunMachine | internal/fly/machine.go:39-64 | the request carries the given app, region and image and exactly one environment variable, the public key; Ok iff the request builds, an attempt responds with a status at most 299 and the body decodes; the machine is the decoded body |
| FlyMachine.WaitForMachine | internal/fly/machine.go:259-286 | the poll result; at most the allowed number of queries; the ticker is stopped on return |
| Polling.Ticker.Stop | internal/fly/machine.go:259-286 | the deferred `ticker.Stop()` leaves the ticker stopped |
| Polling.PollFrom | internal/fly/machine.go:259-286 | the number of queries is bounded by the attempt limit |
| Polling.PollCharacterised | internal/fly/machine.go:259-286 | polling continues only past not-ready answers; an error or a ready answer ends it; after the last attempt it reports too many attempts |
| Polling.PollStopsAtFirstDecisive | internal/vessel/api.go:132-159 | the poll ends at the first error or ready answer and returns that answer |
| Polling.PollGivesUp | internal/vessel/api.go:132-159 | when no answer is decisive, the poll gives up after the allowed number of attempts |
| Polling.PollOkIsReady | internal/vessel/api.go:132-159 | a poll that succeeds returns its last answer, and that answer passed the readiness test |
| Environments.DeleteAppStep | internal/fly/app.go:123-135 | the call is recorded; success removes the app with its machines and addresses; failure changes nothing else |
| Environments.AppsNotNamed | internal/fly/app.go:123-135 | keeps exactly the apps with another name |
| Environments.MachinesNotOf | internal/fly/app.go:123-135 | keeps exactly the machines of other apps |
| Environments.AddressesNotOf | internal/fly/app.go:123-135 | keeps exactly the addresses of other apps |
| Environments.CreateEnvironmentOrder | internal/environments/create.go:15-43 | the calls are create app, run machine, allocate IP, in that order, and each runs only if the previous succeeded |
| Environments.CreateEnvironmentNoRollback | internal/environments/create.go:15-43 | a later failure does not undo an earlier step: the created app and machine remain |
| Environments.CreateEnvironmentResult | internal/environments/create.go:37-42 | the result is built from app, org, allocated address and machine id; the address is always IPv6; the machine gets the public key |
| Environments.FlyAccount.CreateApp | internal/fly/app.go:36-54 | the account after the call is the create-app step's |
| Environments.FlyAccount.RunMachine | internal/fly/machine.go:39-64 | the account after the call is the run-machine step's |
| Environments.FlyAccount.AllocateIp | internal/fly/ip.go:52-72 | the account after the call is the allocate step's |
| Environments.FlyAccount.DeleteApp | internal/fly/app.go:123-135 | the account after the call is the delete step's |
| Environments.FlyAccount.CreateEnvironment | internal/environments/create.go:15-43 | the account after the call is the create-environment step's |
| VesselApi.VesselApiEndpoint | internal/vessel/api.go:197-205 | the variable without trailing slashes, or the default when that is empty; never empty, never ending in a slash |
| VesselApi.EndpointIgnoresTrailingSlashes | internal/vessel/api.go:197-205 | trailing slashes on the variable do not change the endpoint |
| VesselApi.EnvironmentUrlInjective | internal/vessel/api.go:162-195 | different machine ids give different environment URLs |
| VesselApi.ApiResult | internal/vessel/api.go:45-77 | a client error or a status above 299 is an error; otherwise Ok iff the body decodes, with the decoded value |
| VesselApi.RejectedStatusDecodesNothing | internal/vessel/api.go:65-67 | a rejected status is an error whatever the body decodes to |
| VesselApi.GetUser | internal/vessel/api.go:45-77 | a status above 299 gives the user-rejection error; Ok needs a status at most 299 |
| VesselApi.CreateEnvironment | internal/vessel/api.go:79-128 | a status above 299 gives the create-rejection error; Ok needs a status at most 299 |
| VesselApi.GetEnvironment | internal/vessel/api.go:162-195 | a status above 299 gives the same rejection message as `GetUser`; Ok needs a status at most 299 |
| VesselApi.WaitForEnvironment | internal/vessel/api.go:132-159 | the result is the poll's, after at most the allowed number of queries; the ticker is stopped on every path |
| Storage.EnsureDir | internal/util/storage.go:24-39 | on success the path is a directory; an error changes nothing; at most the path itself is added |
| Storage.EnsureDirCases | internal/util/storage.go:24-39 | an existing directory is kept, an existing file is an error, an absent path becomes a `0750` directory |
| Storage.EnsureDirIdempotent | internal/util/storage.go:11-42 | repeating a successful step returns the same path and changes nothing |
| Storage.MakeAppDirEffect | internal/util/storage.go:45-74 | a failing storage directory creates nothing; otherwise at most the two directories are added and every existing path is left as it was; success returns `<home>/.vessel/<app>` |
| Storage.MakeAppDirIdempotent | internal/util/storage.go:45-74 | a second `MakeAppDir` returns the same path and changes nothing |
| Storage.RemovePath | cmd/destroy.go:128-136 | `os.Remove`: success removes exactly that path; a missing path or a fault fails and changes nothing |
| Storage.RemoveTree | cmd/destroy.go:148-156 | `os.RemoveAll`: fails only on a fault and then changes nothing; success removes exactly what is at or below the directory |
| Storage.WriteFileSpec | cmd/init.go:158-172 | a directory at the path or a write fault fails and changes nothing; otherwise the content is written, a new file gets the given mode and an existing file keeps its own; no other path changes |
| Storage.FileSystem.EnsureDirectory | internal/util/storage.go:24-39 | the filesystem after the call is the ensure-directory step's |
| Storage.FileSystem.MakeStorageDir | internal/util/storage.go:11-42 | the filesystem after the call is the storage-directory step's |
| Storage.FileSystem.MakeAppDir | internal/util/storage.go:45-74 | the filesystem after the call is the app-directory step's |
| Storage.FileSystem.Remove | cmd/destroy.go:128-136 | the filesystem after the call is the remove step's |
| Storage.FileSystem.RemoveAll | cmd/destroy.go:148-156 | the filesystem after the call is the remove-tree step's |
| Storage.FileSystem.WriteFile | cmd/init.go:158-172 | the filesystem after the call is the write step's |
| Remote.IdentityPath | internal/remote/connection.go:26-37 | a `~/` path needs the home directory and keeps its remainder; any other path is used as is |
| Remote.HomeOnlyForTilde | internal/remote/connection.go:26-37 | a path without `~/` does not depend on the home lookup |
| Remote.ClientConfigFor | internal/remote/connection.go:25-57 | Ok iff the key path resolves, reads and parses; the config has the configured user, a 5 s timeout and no host-key check |
| Remote.SplitHostPort | internal/remote/connection.go:66-67 | a dial target that splits has a port without a colon |
| Remote.DialTarget | internal/remote/connection.go:66 | for a host without a colon it is exactly the `"%s:%d"` target |
| Remote.HostSocketRejectsIpv6 | internal/remote/connection.go:98 | as written, a host with a colon gives a target the address splitter rejects |
| Remote.HostSocketIpv6Example | internal/remote/connection.go:66 | the target built for `fdaa::3` port 22 is `fdaa::3:22`, which does not split |
| Remote.DialTargetRoundTrip | internal/remote/connection.go:66 | the corrected target splits back into exactly the host and the port |
| Remote.RemoteCommand | internal/remote/connection.go:83 | the command is prefixed by `cd <path> && ` and ends with the command itself |
| Remote.TermOrDefault | internal/remote/connection.go:134-137 | `$TERM` when set, otherwise a non-empty default |
| Remote.WaitOutcome | internal/remote/connection.go:150-158 | success iff the shell ended cleanly or with status 130; other failures are `ssh error` |
| Remote.CmdSpec | internal/remote/connection.go:59-89 | an address that does not split fails with nothing sent; on success the address split and the server saw a dial of it as the configured user, a session and the wrapped command |
| Remote.SshSpec | internal/remote/connection.go:91-160 | an address that does not split fails with nothing sent; on success the server saw dial, session, a pty request of the right type and the shell, and the shell ended cleanly or with status 130 |
| Remote.ConnectSpec | internal/remote/connection.go:60-77 | a connection succeeds only when the target splits and the server accepts the dial and opens a session, and the server then saw exactly that dial as the configured user and the session; a failed one sent at most the dial; a target that does not split sends nothing |
| Remote.CmdRunsOnlyItsCommand | internal/remote/connection.go:83-84 | whatever the outcome, the only command `Cmd` runs on the server is `cd <path> && <cmd>` |
| Remote.Dial | internal/remote/connection.go:67 | an address that does not split fails with the splitter's message before the server is reached; any other gets the server's answer |
| Remote.ShellSpec | internal/remote/connection.go:123-158 | on success a pty of type `$TERM` (or the default) was requested and the shell started |
| Remote.InterruptedShellSucceeds | internal/remote/connection.go:150-155 | a shell ended with Ctrl-C (status 130) is a successful `SSH` when every earlier step succeeds |
| Remote.FormattedIpv6NeverConnects | internal/remote/connection.go:66-70 | as written, `Cmd` and `SSH` fail for a host with a colon without sending anything, whatever the server would answer |
| Remote.JoinedCmdConnects | internal/remote/connection.go:59-89 | with the joined target, `Cmd` succeeds for every bracket-free host, IPv6 literals included, when the server accepts dial, session and command |
| Remote.Connection.MakeClientConfig | internal/remote/connection.go:25-57 | returns the client configuration the function describes |
| Remote.Connection.Connect | internal/remote/connection.go:60-77 | result and events are those of the connection step for the `"%s:%d"` target; it holds one more connection and one more session iff it succeeded; the terminal mode is untouched |
| Remote.Connection.RawShell | internal/remote/connection.go:116-160 | result and events are those of the raw-mode step, and the terminal mode afterwards is the one before, on every path |
| Remote.Connection.Cmd | internal/remote/connection.go:59-89 | dials the `"%s:%d"` target; result and events are the command step's for that target; every connection and session opened is closed again |
| Remote.Connection.SSH | internal/remote/connection.go:91-160 | dials the `"%s:%d"` target; result and events are the shell step's for that target; everything opened is closed and the terminal mode is restored |
| FlyProxy.AfterStop | cmd/destroy.go:81-85 | a real stop leaves the proxy stopped; a no-op never starts it |
| FlyProxy.ReachStep | cmd/destroy.go:89-115 | a stop handle that stops the proxy iff the proxy is needed, `flyctl` is found and it starts; a no-op iff it is not needed; the proxy runs afterwards iff it ran before or was started |
| FlyProxy.Reach | cmd/destroy.go:89-115 | handle and proxy state are the reach step's |
| FlyProxy.Proxy.Start | internal/fly/api-proxy.go:45-80 | a successful start returns a real stop handle and the proxy runs; a failed one changes nothing |
| FlyProxy.Proxy.Stop | internal/fly/api-proxy.go:73-79 | the proxy state after calling the stop handle |
| CmdStart.SetUpIsStartSession | cmd/start.go:45-73 | the set-up of `start` (its own sync and forward loop) sends the same commands and leaves the same sessions as `mutagen.StartSession` on `.`, and passes iff that does |
| CmdStart.StopHandlerIsStopSession | cmd/start.go:97-105 | the signal handler (`StopSync` then `StopForward`) acts like `StopSession` with the same `StopForward` (as written or corrected) and succeeds iff that does |
| CmdStart.BadConfigExits | cmd/start.go:32-39 | an unreadable configuration exits 1 before any mutagen command |
| CmdStart.StartCommandExitCases | cmd/start.go:31-112 | with either `StopForward`: exit 1 iff set-up fails or, attached, a stop listing fails; detached it returns after the set-up; attached, the stop begins with the sync listing |
| CmdStart.SetUpFailureKeepsSessions | cmd/start.go:45-73 | a failed set-up exits 1 and removes no session |
| CmdStart.SyncFailureExitsBeforeForwards | cmd/start.go:45-52 | a failing sync exits 1 with no forward attempted |
| CmdStart.AttachedRunLeavesForward | cmd/start.go:97-105 | as written, an attached run with a forwarding entry leaves a `name-k` forward running after the stop, and still ends normally when both listings read |
| CmdStart.AttachedRunCleansUp | cmd/start.go:91-108 | with the corrected `StopForward`, when the stop works, the attached run ends stopped with no session of the project left |
| CmdStart.RunStart | cmd/start.go:31-112 | exit, commands and sessions are those of the start command with `StopForward` as written |
| CmdStart.SetUp | cmd/start.go:45-73 | sessions and commands after the sync and the forward loop are the set-up step's |
| CmdStart.HandleStop | cmd/start.go:97-105 | sessions and commands after `StopSync` and the as-written `StopForward` are the stop-handler step's |
| CmdDestroy.DeclinedPromptChangesNothing | cmd/destroy.go:55-67 | exit 0 iff the configuration and login are fine and the user declines without `--quit`; nothing changes then, nor on any earlier exit |
| CmdDestroy.StopSessionAlwaysRuns | cmd/destroy.go:71 | past the prompt, the sessions are exactly as `StopSession` (as written or corrected) leaves them |
| CmdDestroy.StopResultIgnored | cmd/destroy.go:71 | the result of `StopSession` does not affect the exit, files, account or proxy |
| CmdDestroy.FilesOnlyLeavesFly | cmd/destroy.go:89-125 | with `--files-only` the account and the proxy are untouched |
| CmdDestroy.DeleteFailureKeepsFiles | cmd/destroy.go:117-125 | a failing `DeleteApp` exits 1 with every file in place |
| CmdDestroy.ConfigFailureKeepsEnvDir | cmd/destroy.go:128-136 | a failure to remove the configuration file exits 1 with no file changed |
| CmdDestroy.DeletedIff | cmd/destroy.go:33-160 | the command completes iff every step succeeds, and then the configuration file, the app directory and the Fly app are gone |
| CmdDestroy.ProxyNeverLeftRunning | cmd/destroy.go:101-114 | a proxy started by the command is stopped on every path |
| CmdDestroy.DestroyKeepsForwards | cmd/destroy.go:71 | as written, `destroy` removes no forward session, however it ends |
| CmdDestroy.RunDestroy | cmd/destroy.go:33-160 | exit and new state of all four objects are those of the destroy step with `StopSession` as written |
| CmdDestroy.Teardown | cmd/destroy.go:117-156 | files and account after the deletions are those of the teardown step |
| CmdInit.ProbeFromCharacterised | cmd/init.go:328-347 | success iff one of the probes passes; the first passing probe ends it; otherwise all 16 are tried |
| CmdInit.Probe | cmd/init.go:328-347 | the loop agrees with the probe function: at most 16 probes, one sleep per failed probe, success iff a probe passed |
| CmdInit.SelectFromCharacterised | cmd/init.go:113-136 | the prompt repeats while "add" is chosen; the first real choice gives the image, its error and the list with every added image |
| CmdInit.SelectFromFirstChosen | cmd/init.go:113-136 | the loop's result is fixed by the first answer with a real choice: no result without one, otherwise its value and error with every earlier added image appended |
| CmdInit.SelectImage | cmd/init.go:113-136 | the loop agrees with the selection function over the bundled images |
| CmdInit.KeyPathsDistinct | cmd/init.go:158-172 | the private key, public key and project file paths differ |
| CmdInit.UnderStorage | cmd/init.go:158-172 | the app directory and both key files lie under `~/.vessel`, and `vessel.yml` does not |
| CmdInit.InitConfigValid | cmd/init.go:267-287 | the written configuration is valid iff the app name and IP are non-empty |
| CmdInit.InitConfigReadBack | cmd/init.go:317-324 | reading the written `vessel.yml` back succeeds iff name and IP are non-empty, and gives the written configuration |
| CmdInit.ShadowingLeavesProxyRunning | cmd/init.go:78 | as written, a started proxy is still running after any failing step of the body |
| CmdInit.ShadowingExample | cmd/init.go:97-111 | a cancelled app-name prompt exits 1 with the started proxy still running |
| CmdInit.AssignmentStopsProxy | cmd/init.go:62-88 | when the handle is assigned, no started proxy is left running on any end |
| CmdInit.PrepareEffect | cmd/init.go:97-172 | on success the app directory is `<home>/.vessel/<slug>` and both key files hold the keys, a new one with mode 0600/0644 and an existing one with its old mode |
| CmdInit.KeyFilesFootprint | cmd/init.go:158-172 | creating the app directory and writing the keys removes nothing, adds only paths under `~/.vessel`, and changes no existing path but the two key files |
| CmdInit.PrepareFootprint | cmd/init.go:97-172 | nothing is removed, every new path lies under `~/.vessel`, and no existing path but the two key files changes |
| CmdInit.ProvisionEffect | cmd/init.go:175-226 | no app is removed; the environment's IP is the allocated address |
| CmdInit.ConfigureEffect | cmd/init.go:230-347 | only `vessel.yml` may change; on success it holds the template (mode 0755 if new, its old mode otherwise), and a probe passed |
| CmdInit.BodyEffect | cmd/init.go:97-347 | a completed body leaves the key files and `vessel.yml` (new files with their modes, existing ones with their old modes) and a passing probe |
| CmdInit.BodyKeeps | cmd/init.go:97-347 | no path that existed before the name prompt is removed by the rest of the command |
| CmdInit.ReadyLeavesEnvironment | cmd/init.go:52-352 | a completed `init` leaves both keys and `vessel.yml` with the written configuration; a file new to the run has mode 0600, 0644 or 0755, one that existed keeps its mode |
| CmdInit.InitNeverRemoves | cmd/init.go:52-352 | `init` never removes a file or an app |
| CmdInit.RunInit | cmd/init.go:52-352 | exit and new state are those of the init step with the corrected handle |
| CmdInit.Body | cmd/init.go:97-347 | files and account are those of the body step |
| CmdInit.Prepare | cmd/init.go:97-172 | files after the preparation are those of the prepare step |
| CmdInit.Provision | cmd/init.go:175-226 | account after provisioning is that of the provision step |
| CmdInit.Configure | cmd/init.go:230-347 | files after configuration are those of the configure step |

## Left out

- JSON and YAML decoding, and the request builders, are oracles (`decode` parameters). So are the text of library error messages; only the prefixes the source adds are modelled.
- Time is not modelled: the HTTP timeout, tickers, sleeps, goroutines, signals and context cancellation. Only the count of attempts, polls and sleeps is.
- `slug.Make`, the interactive prompts, `homedir.Dir` and `exec.LookPath` are parameters.
- `filepath.FromSlash` is treated as the identity (POSIX paths).
- These files are not part of this model: `internal/mutagen/download.go`, `agent.go`, `internal/fly/region_select.go` and `internal/util/ssh.go`. Key generation and the `~/.ssh/config` write are oracle answers.
- The internals of `internal/fly/api-proxy.go` (the `exec.Cmd`, the TCP liveness check) are reduced to one start answer. The stop handle's own error is ignored, as the callers ignore it.
- `os.RemoveAll` is all-or-nothing: a partial removal that then fails is not modelled.
- These are oracle answers: the init steps `TestConnection`, `MakeBinDir` and `InstallMutagen`; `GetAppEnvDir` in `destroy`; `RetrieveVesselConfig` (the login token).
- The nearest and chosen regions of `init` are oracle answers.
- `auth.Org` is the `org` answer.
- `CmdInit.SelectImage` works over a finite sequence of answers. When the answers run out, `init` ends as `StillPrompting`; the program would prompt again.
- `cmd/init.go` passes seven arguments to the six-parameter `environments.CreateEnvironment`. The model follows `create.go`: it ignores the `UseIpv4` flag and always allocates IPv6, as `create.go:31` does.
- `destroyCmd` is not registered in `cmd/root.go`, so `destroy` is modelled as the function `runDestroyCommand`. `ConfigPath` defaults to `vessel.yml`.
- `CmdStart.StartCommand` and `CmdDestroy.DestroySpec` take the `StopForward` variant as a parameter. `CmdStart.RunStart`, `CmdStart.HandleStop` and `CmdDestroy.RunDestroy` run the as-written one; the corrected one appears only in lemmas (see Findings).
- `CmdInit.RunInit` runs the corrected assignment of the stop handle; the as-written shadowing is `CmdInit.InitSpec` with `Shadowing` (see Findings).
- `Remote.CmdSpec` and `Remote.SshSpec` take the dial target's form as a parameter. `Remote.Connection.Cmd` and `Remote.Connection.SSH` dial the `"%s:%d"` target as written; the joined target appears only in lemmas (see Findings).
- Storage.WriteFileSpec: the process umask is not applied to the mode of a new file, so a mode the model states is the mode before the umask.
- In `start`, the signal wait (the goroutine and channels of `cmd/start.go`) is reduced to one run of the handler, as on the first signal. The forward loop of `cmd/start.go` is run through `Mutagen.Engine.ForwardAll`. The session name `slug.Make("vessel-" + name)` applies the `slug` parameter.
- Process exit codes are modelled, but the printed messages are not.
- Integer widths play no part: ports and ids are unbounded, and `uint64` machine ids are `nat`.

## Findings

| source | as written | input that shows it | evidently intended | confidence | as-written member | corrected member |
|---|---|---|---|---|---|---|
| internal/mutagen/forward.go:84-91 | `StopForward` lists forward sessions but terminates with `sync terminate <name>` | `StartSession("p", …)` with forwarding `["8000:80"]` creates forward `p-0`; `StopSession("p")` leaves it | terminate the project's forwards (`p-k`) with `forward terminate` | high, not executed | CmdStart.AttachedRunLeavesForward | CmdStart.AttachedRunCleansUp |
| internal/remote/connection.go:66 | the dial target is `fmt.Sprintf("%s:%d", host, port)` | host `fdaa::3` (the IPv6 address Fly allocates), port 22 gives `fdaa::3:22`, which the address splitter rejects | `net.JoinHostPort` (`[fdaa::3]:22`) | medium, not executed | Remote.FormattedIpv6NeverConnects | Remote.JoinedCmdConnects |
| cmd/init.go:78 | `stopFlyctl, err := …` shadows the outer `stopFlyctl`, so error exits call the outer no-op | proxy needed and started, then the app-name prompt fails: exit 1 with the proxy still running | assign the outer `stopFlyctl` so error paths stop the proxy | high, not executed | CmdInit.ShadowingLeavesProxyRunning | CmdInit.AssignmentStopsProxy |
