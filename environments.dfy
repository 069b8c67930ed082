/** `CreateEnvironment` (internal/environments/create.go): register the Fly
    app, run the machine, allocate an IPv6 address, in that order, stopping at
    the first failure and never undoing an earlier step. The Fly account is a
    class whose fields the three API steps change; each step's answer is an
    oracle input. */
module Environments {
  import opened Wrappers
  import opened FlyMachine

  datatype App = App(name: string, org: string)
  datatype RunningMachine = RunningMachine(app: string, id: string, request: RunMachineRequest)
  datatype Allocation = Allocation(app: string, address: string, v6: bool)

  /** The API calls made, in order, whatever their answer. */
  datatype FlyCall =
    | CreateAppCall(name: string, org: string)
    | RunMachineCall(request: RunMachineRequest)
    | AllocateIpCall(app: string, v6: bool)
    | DeleteAppCall(name: string)

  /** What the account holds and which calls it has seen. */
  datatype Account = Account(apps: seq<App>, machines: seq<RunningMachine>, addresses: seq<Allocation>,
                             calls: seq<FlyCall>)

  /** The answers of the three API calls. */
  datatype FlyAnswers = FlyAnswers(createApp: Outcome, runMachine: Result<Machine>, allocateIp: Result<string>)

  /** internal/environments/create.go `Environment`. */
  datatype Environment = Environment(flyApp: string, flyOrg: string, flyIp: string, flyMachine: string)

  /** `fly.CreateApp`: the call is recorded; on success the app is
      registered under the requested name, which the call echoes back. */
  function CreateAppStep(acct: Account, name: string, org: string, answer: Outcome): (Result<App>, Account)
  {
    var called := acct.(calls := acct.calls + [CreateAppCall(name, org)]);
    if answer.Fail? then (Err("request error: " + answer.error), called)
    else (Ok(App(name, org)), called.(apps := called.apps + [App(name, org)]))
  }

  /** `fly.RunMachine` with the request of `RunMachineRequestFor`. */
  function RunMachineStep(acct: Account, app: string, region: string, image: string, pubKey: string,
                          answer: Result<Machine>): (Result<Machine>, Account)
  {
    var request := RunMachineRequestFor(app, region, image, pubKey);
    var called := acct.(calls := acct.calls + [RunMachineCall(request)]);
    if answer.Err? then (answer, called)
    else (answer, called.(machines := called.machines + [RunningMachine(app, answer.value.id, request)]))
  }

  /** `fly.AllocateIp`. */
  function AllocateIpStep(acct: Account, app: string, v6: bool, answer: Result<string>): (Result<string>, Account)
  {
    var called := acct.(calls := acct.calls + [AllocateIpCall(app, v6)]);
    if answer.Err? then (answer, called)
    else (answer, called.(addresses := called.addresses + [Allocation(app, answer.value, v6)]))
  }

  /** `fly.DeleteApp`: the call is recorded; on success the app is gone,
      and with it its machines and addresses. */
  function DeleteAppStep(acct: Account, name: string, answer: Outcome): (r: (Outcome, Account))
    ensures r.1.calls == acct.calls + [DeleteAppCall(name)]
    ensures r.0.Fail? ==> r.1 == acct.(calls := r.1.calls) && "request error: " <= r.0.error
    ensures r.0.Pass? ==>
      && (forall x :: x in r.1.apps <==> x in acct.apps && x.name != name)
      && (forall m :: m in r.1.machines <==> m in acct.machines && m.app != name)
      && (forall i :: i in r.1.addresses <==> i in acct.addresses && i.app != name)
  {
    var called := acct.(calls := acct.calls + [DeleteAppCall(name)]);
    if answer.Fail? then (Fail("request error: " + answer.error), called)
    else (Pass, called.(apps := AppsNotNamed(acct.apps, name),
                        machines := MachinesNotOf(acct.machines, name),
                        addresses := AddressesNotOf(acct.addresses, name)))
  }

  function AppsNotNamed(apps: seq<App>, name: string): (r: seq<App>)
    ensures forall x :: x in r <==> x in apps && x.name != name
  {
    if apps == [] then []
    else (if apps[0].name == name then [] else [apps[0]]) + AppsNotNamed(apps[1..], name)
  }

  function MachinesNotOf(machines: seq<RunningMachine>, app: string): (r: seq<RunningMachine>)
    ensures forall m :: m in r <==> m in machines && m.app != app
  {
    if machines == [] then []
    else (if machines[0].app == app then [] else [machines[0]]) + MachinesNotOf(machines[1..], app)
  }

  function AddressesNotOf(addresses: seq<Allocation>, app: string): (r: seq<Allocation>)
    ensures forall i :: i in r <==> i in addresses && i.app != app
  {
    if addresses == [] then []
    else (if addresses[0].app == app then [] else [addresses[0]]) + AddressesNotOf(addresses[1..], app)
  }

  /** The three steps from the account `acct`: the result and the account
      afterwards. */
  function CreateEnvironmentSpec(acct: Account, appName: string, image: string, org: string, region: string,
                                 pubKey: string, answers: FlyAnswers): (Result<Environment>, Account)
  {
    var (app, a1) := CreateAppStep(acct, appName, org, answers.createApp);
    if app.Err? then (Err("could not register app: " + app.error), a1)
    else
      var (machine, a2) := RunMachineStep(a1, appName, region, image, pubKey, answers.runMachine);
      if machine.Err? then (Err("could not run machine: " + machine.error), a2)
      else
        var (ip, a3) := AllocateIpStep(a2, appName, true, answers.allocateIp);
        if ip.Err? then (Err("could not allocate ip: " + ip.error), a3)
        else (Ok(Environment(app.value.name, org, ip.value, machine.value.id)), a3)
  }

  /** The steps run in order create app, run machine, allocate IP; a failing
      step is the last call made; the environment is returned exactly when all
      three succeed. */
  lemma CreateEnvironmentOrder(acct: Account, appName: string, image: string, org: string, region: string,
                               pubKey: string, answers: FlyAnswers)
    ensures var (r, after) := CreateEnvironmentSpec(acct, appName, image, org, region, pubKey, answers);
            var all := [CreateAppCall(appName, org), RunMachineCall(RunMachineRequestFor(appName, region, image, pubKey)),
                        AllocateIpCall(appName, true)];
            var n := |after.calls| - |acct.calls|;
      && 1 <= n <= 3
      && after.calls == acct.calls + all[..n]
      && (answers.createApp.Fail? <==> n == 1)
      && (n == 2 <==> answers.createApp.Pass? && answers.runMachine.Err?)
      && (r.Ok? <==> answers.createApp.Pass? && answers.runMachine.Ok? && answers.allocateIp.Ok?)
  {
  }

  /** Nothing is undone: every app, machine and address the account held, or
      that an earlier step created, is still there, whatever fails later. */
  lemma CreateEnvironmentNoRollback(acct: Account, appName: string, image: string, org: string, region: string,
                                    pubKey: string, answers: FlyAnswers)
    ensures var (r, after) := CreateEnvironmentSpec(acct, appName, image, org, region, pubKey, answers);
      && acct.apps <= after.apps && acct.machines <= after.machines && acct.addresses <= after.addresses
      && (answers.createApp.Pass? ==> App(appName, org) in after.apps)
      && (answers.createApp.Pass? && answers.runMachine.Ok? ==>
            exists m :: m in after.machines && m.app == appName && m.id == answers.runMachine.value.id)
  {
    var (r, after) := CreateEnvironmentSpec(acct, appName, image, org, region, pubKey, answers);
    if answers.createApp.Pass? && answers.runMachine.Ok? {
      assert after.machines[|after.machines| - 1].app == appName;
    }
  }

  /** The environment returned names the app as registered, the given org,
      the allocated address and the machine's id; the address was requested
      as IPv6, and the machine was given the public key. */
  lemma CreateEnvironmentResult(acct: Account, appName: string, image: string, org: string, region: string,
                                pubKey: string, answers: FlyAnswers)
    ensures var (r, after) := CreateEnvironmentSpec(acct, appName, image, org, region, pubKey, answers);
      && (r.Ok? ==> r.value == Environment(appName, org, answers.allocateIp.value, answers.runMachine.value.id))
      && (forall c :: c in after.calls[|acct.calls|..] && c.AllocateIpCall? ==> c.v6)
      && (forall c :: c in after.calls[|acct.calls|..] && c.RunMachineCall? ==>
            c.request.env == map[PublicKeyVariable := pubKey])
  {
  }

  class FlyAccount {
    var apps: seq<App>
    var machines: seq<RunningMachine>
    var addresses: seq<Allocation>
    var calls: seq<FlyCall>

    constructor (acct: Account)
      ensures State() == acct
    {
      apps, machines, addresses, calls := acct.apps, acct.machines, acct.addresses, acct.calls;
    }

    function State(): Account
      reads this
    {
      Account(apps, machines, addresses, calls)
    }

    /** `fly.CreateApp`. */
    method CreateApp(name: string, org: string, answer: Outcome) returns (r: Result<App>)
      modifies this
      ensures (r, State()) == CreateAppStep(old(State()), name, org, answer)
    {
      calls := calls + [CreateAppCall(name, org)];
      if answer.Fail? {
        return Err("request error: " + answer.error);
      }
      apps := apps + [App(name, org)];
      return Ok(App(name, org));
    }

    /** `fly.RunMachine`. */
    method RunMachine(app: string, region: string, image: string, pubKey: string, answer: Result<Machine>)
      returns (r: Result<Machine>)
      modifies this
      ensures (r, State()) == RunMachineStep(old(State()), app, region, image, pubKey, answer)
    {
      var request := RunMachineRequestFor(app, region, image, pubKey);
      calls := calls + [RunMachineCall(request)];
      if answer.Ok? {
        machines := machines + [RunningMachine(app, answer.value.id, request)];
      }
      r := answer;
    }

    /** `fly.AllocateIp`. */
    method AllocateIp(app: string, v6: bool, answer: Result<string>) returns (r: Result<string>)
      modifies this
      ensures (r, State()) == AllocateIpStep(old(State()), app, v6, answer)
    {
      calls := calls + [AllocateIpCall(app, v6)];
      if answer.Ok? {
        addresses := addresses + [Allocation(app, answer.value, v6)];
      }
      r := answer;
    }

    /** `fly.DeleteApp`. */
    method DeleteApp(name: string, answer: Outcome) returns (r: Outcome)
      modifies this
      ensures (r, State()) == DeleteAppStep(old(State()), name, answer)
    {
      calls := calls + [DeleteAppCall(name)];
      if answer.Fail? {
        return Fail("request error: " + answer.error);
      }
      apps, machines, addresses :=
        AppsNotNamed(apps, name), MachinesNotOf(machines, name), AddressesNotOf(addresses, name);
      return Pass;
    }

    /** `CreateEnvironment`. */
    method CreateEnvironment(appName: string, image: string, org: string, region: string, pubKey: string,
                             answers: FlyAnswers) returns (r: Result<Environment>)
      modifies this
      ensures (r, State()) == CreateEnvironmentSpec(old(State()), appName, image, org, region, pubKey, answers)
    {
      var app := CreateApp(appName, org, answers.createApp);
      if app.Err? {
        return Err("could not register app: " + app.error);
      }
      var machine := RunMachine(appName, region, image, pubKey, answers.runMachine);
      if machine.Err? {
        return Err("could not run machine: " + machine.error);
      }
      var ip := AllocateIp(appName, true, answers.allocateIp);
      if ip.Err? {
        return Err("could not allocate ip: " + ip.error);
      }
      return Ok(Environment(app.value.name, org, ip.value, machine.value.id));
    }
  }
}
