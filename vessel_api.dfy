/** The Vessel API client (internal/vessel/api.go): the endpoint taken from
    `VESSEL_API_ENDPOINT`, the request URLs, the handling of one HTTP exchange
    (a client error, a rejected status, an undecodable body), and
    `WaitForEnvironment`, the bounded poll for an environment to be ready.
    The HTTP exchange and the JSON decoder are oracle inputs. */
module VesselApi {
  import opened Wrappers
  import opened Text
  import opened FlyHttp
  import opened Polling

  datatype Team = Team(id: int, guid: string, name: string)
  datatype User = User(id: int, email: string, teams: seq<Team>)

  /** internal/vessel/api.go `Environment`; `id` is a `uint64`. */
  datatype Environment = Environment(id: nat, providerId: string, name: string, size: string, publicKey: string,
                                     region: string, ipAddress: string, status: string, initialized: bool)

  const DefaultEndpoint := "http://localhost:8888/api"

  /** `vesselApiEndpoint`: the variable's value without its trailing slashes,
      or the local default when nothing is left. The result never ends with a
      slash and is never empty. */
  function VesselApiEndpoint(variable: string): (endpoint: string)
    ensures |endpoint| > 0 && endpoint[|endpoint| - 1] != '/'
    ensures TrimRight(variable, '/') == [] ==> endpoint == DefaultEndpoint
    ensures TrimRight(variable, '/') != [] ==>
      && endpoint <= variable
      && (forall i :: |endpoint| <= i < |variable| ==> variable[i] == '/')
  {
    var trimmed := TrimRight(variable, '/');
    if |trimmed| > 0 then trimmed else DefaultEndpoint
  }

  /** A value that does not end with a slash is used as is, whatever run of
      slashes follows it. */
  lemma EndpointIgnoresTrailingSlashes(base: string, slashes: string)
    requires |base| > 0 && base[|base| - 1] != '/'
    requires forall i :: 0 <= i < |slashes| ==> slashes[i] == '/'
    ensures VesselApiEndpoint(base + slashes) == base
  {
    var s := base + slashes;
    var r := TrimRight(s, '/');
    TrimSlashesOff(base, slashes);
    assert r == s[..|base|] == base;
  }

  lemma {:induction false} TrimSlashesOff(base: string, slashes: string)
    requires |base| > 0 && base[|base| - 1] != '/'
    requires forall i :: 0 <= i < |slashes| ==> slashes[i] == '/'
    ensures TrimRight(base + slashes, '/') == base
    decreases |slashes|
  {
    var s := base + slashes;
    if slashes == [] {
      assert s == base;
    } else {
      var shorter := slashes[..|slashes| - 1];
      assert s[|s| - 1] == '/';
      assert s[..|s| - 1] == base + shorter;
      TrimSlashesOff(base, shorter);
    }
  }

  function UserUrl(variable: string): string
  {
    VesselApiEndpoint(variable) + "/user"
  }

  function TeamEnvironmentsUrl(variable: string, team: string): string
  {
    VesselApiEndpoint(variable) + "/team/" + team + "/environment"
  }

  function EnvironmentUrl(variable: string, team: string, machine: nat): string
  {
    TeamEnvironmentsUrl(variable, team) + "/" + NatToString(machine)
  }

  /** Different machine ids of a team have different environment URLs. */
  lemma EnvironmentUrlInjective(variable: string, team: string, m: nat, n: nat)
    ensures EnvironmentUrl(variable, team, m) == EnvironmentUrl(variable, team, n) ==> m == n
  {
    var prefix := TeamEnvironmentsUrl(variable, team) + "/";
    if EnvironmentUrl(variable, team, m) == EnvironmentUrl(variable, team, n) {
      assert prefix + NatToString(m) == prefix + NatToString(n);
      assert NatToString(m) == (prefix + NatToString(m))[|prefix|..];
      assert NatToString(n) == (prefix + NatToString(n))[|prefix|..];
      NatToStringInjective(m, n);
    }
  }

  /** One exchange with the API: a client error is wrapped; a status above 299
      is rejected with the caller's message, which wraps the (nil) error value
      and so ends in `%!w(<nil>)`; otherwise the body is decoded. */
  function ApiResult<T>(response: Result<HttpResponse>, rejection: string, decode: string -> Option<T>): (r: Result<T>)
    ensures response.Err? ==> r == Err("http client error: " + response.error)
    ensures response.Ok? && response.value.status > 299 ==> r == Err(rejection + Render(Pass))
    ensures r.Ok? <==> response.Ok? && response.value.status <= 299 && decode(response.value.body).Some?
    ensures r.Ok? ==> Some(r.value) == decode(response.value.body)
  {
    match response
    case Err(e) => Err("http client error: " + e)
    case Ok(resp) =>
      if resp.status > 299 then Err(rejection + Render(Pass))
      else
        match decode(resp.body)
        case None => Err("could not decode response")
        case Some(v) => Ok(v)
  }

  /** A rejected status never looks at the body: the result is the same
      whatever the decoder. */
  lemma RejectedStatusDecodesNothing<T>(response: Result<HttpResponse>, rejection: string,
                                        decode1: string -> Option<T>, decode2: string -> Option<T>)
    requires response.Ok? && response.value.status > 299
    ensures ApiResult(response, rejection, decode1) == ApiResult(response, rejection, decode2)
    ensures ApiResult(response, rejection, decode1).Err?
  {
  }

  const UserRejection := "invalid user request: "
  const CreateRejection := "invalid create environment request: "

  /** `GetUser`, given the answer to `GET <endpoint>/user`. */
  function GetUser(response: Result<HttpResponse>, decode: string -> Option<User>): (r: Result<User>)
    ensures response.Ok? && response.value.status > 299 ==> r == Err(UserRejection + Render(Pass))
    ensures r.Ok? ==> response.Ok? && response.value.status <= 299
  {
    ApiResult(response, UserRejection, decode)
  }

  /** `CreateEnvironment` (Vessel API), given the answer to
      `POST <endpoint>/team/<team>/environment`. */
  function CreateEnvironment(response: Result<HttpResponse>, decode: string -> Option<Environment>)
    : (r: Result<Environment>)
    ensures response.Ok? && response.value.status > 299 ==> r == Err(CreateRejection + Render(Pass))
    ensures r.Ok? ==> response.Ok? && response.value.status <= 299
  {
    ApiResult(response, CreateRejection, decode)
  }

  /** `GetEnvironment`, given the answer to
      `GET <endpoint>/team/<team>/environment/<machine>`; it reuses the user
      request's rejection message. */
  function GetEnvironment(response: Result<HttpResponse>, decode: string -> Option<Environment>)
    : (r: Result<Environment>)
    ensures response.Ok? && response.value.status > 299 ==> r == Err(UserRejection + Render(Pass))
    ensures r.Ok? ==> response.Ok? && response.value.status <= 299
  {
    ApiResult(response, UserRejection, decode)
  }

  function IsInitialized(e: Environment): bool { e.initialized }

  const EnvironmentPrefix := "could not get environment: "
  const EnvironmentTooMany := "too many get environment attempts"

  /** `WaitForEnvironment`: one `GetEnvironment` per tick until one fails,
      one reports `Initialized` (that environment is returned), or 150
      environments came back not initialised; the ticker is stopped on every
      return. */
  method WaitForEnvironment(getEnvironment: nat -> Result<Environment>)
    returns (r: Result<Environment>, queries: nat, tickerRunning: bool)
    ensures var (res, n) := PollFrom(getEnvironment, IsInitialized, 0, EnvironmentPrefix, EnvironmentTooMany);
      r == res && queries == n
    ensures 1 <= queries <= AttemptsAllowed
    ensures !tickerRunning
  {
    var ticker := new Ticker();
    var totalAttempts := 0;
    queries := 0;
    while true
      invariant 0 <= totalAttempts < AttemptsAllowed && queries == totalAttempts
      invariant PollFrom(getEnvironment, IsInitialized, totalAttempts, EnvironmentPrefix, EnvironmentTooMany)
                == PollFrom(getEnvironment, IsInitialized, 0, EnvironmentPrefix, EnvironmentTooMany)
      decreases AttemptsAllowed - totalAttempts
    {
      var e := getEnvironment(queries);
      queries := queries + 1;
      if e.Err? {
        ticker.Stop();
        return Err(EnvironmentPrefix + e.error), queries, ticker.running;
      }
      if IsInitialized(e.value) {
        ticker.Stop();
        return Ok(e.value), queries, ticker.running;
      }
      totalAttempts := totalAttempts + 1;
      if totalAttempts >= AttemptsAllowed {
        ticker.Stop();
        return Err(EnvironmentTooMany), queries, ticker.running;
      }
    }
  }
}
