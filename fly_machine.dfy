/** Machine operations of the Fly client (internal/fly/machine.go) that the
    lifecycle depends on: the environment map `RunMachine` sends, its result
    handling, and `WaitForMachine`, the bounded poll for the machine to come
    up. The HTTP request templates are not part of this model. */
module FlyMachine {
  import opened Wrappers
  import opened FlyHttp
  import opened Polling

  /** internal/fly/types.go `Machine`. */
  datatype Machine = Machine(id: string, name: string, state: string, region: string, image: string)

  datatype RunMachineRequest = RunMachineRequest(app: string, region: string, image: string, env: map<string, string>)

  const PublicKeyVariable := "VESSEL_PUBLIC_KEY"

  /** The request `RunMachine` builds: the given app, region and image, and an
      environment holding the public key under `VESSEL_PUBLIC_KEY` and
      nothing else. */
  function RunMachineRequestFor(app: string, region: string, image: string, pubKey: string): RunMachineRequest
  {
    RunMachineRequest(app, region, image, map[PublicKeyVariable := pubKey])
  }

  /** `RunMachine`: send the request; a request error or an undecodable body
      is an error, otherwise the decoded machine. */
  method RunMachine(app: string, region: string, image: string, pubKey: string,
                    built: Outcome, attempt: nat -> Attempt, decode: string -> Option<Machine>)
    returns (r: Result<Machine>, sent: RunMachineRequest)
    ensures sent.app == app && sent.region == region && sent.image == image
    ensures sent.env.Keys == {PublicKeyVariable} && sent.env[PublicKeyVariable] == pubKey
    ensures r.Ok? <==> built.Pass? && var (res, _) := RetryFrom(attempt, 0);
      res.Ok? && CheckStatus(res.value).Ok? && decode(CheckStatus(res.value).value).Some?
    ensures r.Ok? ==> Some(r.value) == decode(CheckStatus(RetryFrom(attempt, 0).0.value).value)
  {
    sent := RunMachineRequestFor(app, region, image, pubKey);
    var body, _ := DoRequest(built, attempt);
    if body.Err? {
      return Err("request error: " + body.error), sent;
    }
    var m := decode(body.value);
    if m.None? {
      return Err("could not unmarshall json"), sent;
    }
    return Ok(m.value), sent;
  }

  const MachinePrefix := "could not get machine: "
  const MachineTooMany := "too many get machine attempts"

  /** `WaitForMachine`: one `GetMachine` per tick until it fails, reports the
      machine initialised (`IsInitialized`, an oracle here), or 150 answers
      came back not initialised; the ticker is stopped on every return. */
  method WaitForMachine(getMachine: nat -> Result<Machine>, isInitialized: Machine -> bool)
    returns (r: Outcome, queries: nat, tickerRunning: bool)
    ensures var (res, n) := PollFrom(getMachine, isInitialized, 0, MachinePrefix, MachineTooMany);
      queries == n && (r.Pass? <==> res.Ok?) && (r.Fail? ==> r.error == res.error)
    ensures 1 <= queries <= AttemptsAllowed
    ensures !tickerRunning
  {
    var ticker := new Ticker();
    var totalAttempts := 0;
    queries := 0;
    while true
      invariant 0 <= totalAttempts < AttemptsAllowed && queries == totalAttempts
      invariant PollFrom(getMachine, isInitialized, totalAttempts, MachinePrefix, MachineTooMany)
                == PollFrom(getMachine, isInitialized, 0, MachinePrefix, MachineTooMany)
      decreases AttemptsAllowed - totalAttempts
    {
      var e := getMachine(queries);
      queries := queries + 1;
      if e.Err? {
        ticker.Stop();
        return Fail(MachinePrefix + e.error), queries, ticker.running;
      }
      if isInitialized(e.value) {
        ticker.Stop();
        return Pass, queries, ticker.running;
      }
      totalAttempts := totalAttempts + 1;
      if totalAttempts >= AttemptsAllowed {
        ticker.Stop();
        return Fail(MachineTooMany), queries, ticker.running;
      }
    }
  }
}
