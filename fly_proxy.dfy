/** The `flyctl machine api-proxy` process that `init` and `destroy` start
    when Fly's API is not reachable directly (internal/fly/api-proxy.go is not
    part of this model: starting it is an oracle). What matters here is the
    `stopFlyctl` variable of the commands: it holds either a function that
    does nothing or the one `StartMachineProxy` returned, which stops the
    process. */
module FlyProxy {
  import opened Wrappers

  /** What a `stopFlyctl` variable holds. */
  datatype StopHandle = NoOp | StopsProxy

  /** Whether the proxy runs after calling `handle`. */
  function AfterStop(running: bool, handle: StopHandle): (r: bool)
    ensures r ==> running
    ensures handle.StopsProxy? ==> !r
  {
    running && handle.NoOp?
  }

  /** Reaching the Fly API from a command: when the proxy is `needed`, find
      `flyctl` and start the proxy. `None` stands for the `os.Exit(1)` of a
      failed lookup or start; otherwise the value is what the command's
      `stopFlyctl` is set to, and the boolean says whether the proxy runs. */
  function ReachStep(running: bool, needed: bool, flyctlFound: bool, start: Outcome)
    : (r: (Option<StopHandle>, bool))
    ensures r.0 == Some(StopsProxy) <==> needed && flyctlFound && start.Pass?
    ensures r.0 == Some(NoOp) <==> !needed
    ensures r.1 == (running || r.0 == Some(StopsProxy))
  {
    if !needed then (Some(NoOp), running)
    else if !flyctlFound || start.Fail? then (None, running)
    else (Some(StopsProxy), true)
  }

  /** The proxy block of a command, on the proxy object. */
  method Reach(proxy: Proxy, needed: bool, flyctlFound: bool, start: Outcome) returns (handle: Option<StopHandle>)
    modifies proxy
    ensures (handle, proxy.running) == ReachStep(old(proxy.running), needed, flyctlFound, start)
  {
    if !needed {
      return Some(NoOp);
    }
    if !flyctlFound {
      return None;
    }
    var started := proxy.Start(start);
    if started.Err? {
      return None;
    }
    return Some(started.value);
  }

  class Proxy {
    var running: bool

    constructor ()
      ensures !running
    {
      running := false;
    }

    /** `fly.StartMachineProxy`: on success the proxy runs and the handle
        that stops it is returned; a failed start leaves nothing running. */
    method Start(answer: Outcome) returns (r: Result<StopHandle>)
      modifies this
      ensures answer.Pass? ==> r == Ok(StopsProxy) && running
      ensures answer.Fail? ==> r == Err(answer.error) && running == old(running)
    {
      if answer.Fail? {
        return Err(answer.error);
      }
      running := true;
      return Ok(StopsProxy);
    }

    /** Calling a `stopFlyctl` value. */
    method Stop(handle: StopHandle)
      modifies this
      ensures running == AfterStop(old(running), handle)
    {
      if handle.StopsProxy? {
        running := false;
      }
    }
  }
}
