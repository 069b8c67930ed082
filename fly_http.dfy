/** The Fly Machines API client (internal/fly/http.go): host selection, the
    timeout-only retry loop and the status check. Each `client.Do` is an
    oracle answer indexed by attempt number; building the request
    (`ToRequest`) is an oracle outcome. */
module FlyHttp {
  import opened Wrappers
  import opened Text

  /** At most this many attempts per request. */
  const MaxAttempts: nat := 5

  const DefaultHost := "127.0.0.1"

  datatype HttpResponse = HttpResponse(status: int, body: string)

  /** What one `client.Do` gives: a response, a timeout error, or another error. */
  datatype Attempt = Responded(response: HttpResponse) | TimedOut(error: string) | Failed(error: string)

  /** `init`: the API host is `FLY_HOST` when set and non-empty, the local
      API proxy otherwise; either way it is never empty. */
  function ApiHost(flyHost: string): (host: string)
    ensures |host| > 0
    ensures |flyHost| > 0 ==> host == flyHost
    ensures host != flyHost ==> host == DefaultHost
  {
    if |flyHost| > 0 then flyHost else DefaultHost
  }

  /** The retry loop from attempt `i` on (`i` attempts made): the outcome and
      the total number of attempts. */
  function RetryFrom(attempt: nat -> Attempt, i: nat): (r: (Result<HttpResponse>, nat))
    ensures i < r.1 <= if i < MaxAttempts then MaxAttempts else i + 1
    decreases MaxAttempts - i
  {
    match attempt(i)
    case Responded(response) => (Ok(response), i + 1)
    case Failed(e) => (Err("http client error: " + e), i + 1)
    case TimedOut(e) => if i + 1 >= MaxAttempts then (Err(e), i + 1) else RetryFrom(attempt, i + 1)
  }

  /** The retry loop in full: every attempt before the last timed out; the last
      one decides: a response is returned as is, another error is wrapped and
      returned at once, and a timeout ends the loop only as the fifth attempt,
      returning that timeout's error unwrapped. */
  lemma {:induction false} RetryCharacterised(attempt: nat -> Attempt, i: nat)
    requires i < MaxAttempts
    ensures var (res, n) := RetryFrom(attempt, i);
      && (forall j :: i <= j < n - 1 ==> attempt(j).TimedOut?)
      && (attempt(n - 1).Responded? ==> res == Ok(attempt(n - 1).response))
      && (attempt(n - 1).Failed? ==> res == Err("http client error: " + attempt(n - 1).error))
      && (attempt(n - 1).TimedOut? ==> n == MaxAttempts && res == Err(attempt(n - 1).error))
    decreases MaxAttempts - i
  {
    if attempt(i).TimedOut? && i + 1 < MaxAttempts {
      RetryCharacterised(attempt, i + 1);
    }
  }

  /** `doRequestWithRetries`. */
  method DoRequestWithRetries(attempt: nat -> Attempt) returns (r: Result<HttpResponse>, attempts: nat)
    ensures (r, attempts) == RetryFrom(attempt, 0)
  {
    var err := "";
    attempts := 0;
    while attempts < MaxAttempts
      invariant 0 <= attempts <= MaxAttempts
      invariant 0 < attempts < MaxAttempts ==> RetryFrom(attempt, attempts) == RetryFrom(attempt, 0)
      invariant attempts == 0 ==> err == ""
      invariant attempts == MaxAttempts ==> RetryFrom(attempt, 0) == (Err(err), MaxAttempts)
      invariant 0 < attempts ==> attempt(attempts - 1) == TimedOut(err)
    {
      ghost var before := attempts;
      var a := attempt(attempts);
      attempts := attempts + 1;
      match a {
        case Failed(e) =>
          return Err("http client error: " + e), attempts;
        case Responded(response) =>
          return Ok(response), attempts;
        case TimedOut(e) =>
          err := e;
      }
      assert RetryFrom(attempt, before) == RetryFrom(attempt, 0) by {
        if before > 0 {
          assert attempt(before - 1).TimedOut?;
        }
      }
    }
    return Err(err), attempts;
  }

  /** The status check of `DoRequest`: a status above 299 is an error carrying
      the status and the body; any other status gives the body. */
  function CheckStatus(response: HttpResponse): (r: Result<string>)
    ensures r.Ok? <==> response.status <= 299
    ensures r.Ok? ==> r.value == response.body
    ensures r.Err? ==> Contains(r.error, IntToString(response.status)) && Contains(r.error, response.body)
  {
    if response.status > 299 then
      var prefix := "invalid request: status=";
      var middle := ", body=";
      var msg := prefix + IntToString(response.status) + middle + response.body;
      assert OccursAt(msg, IntToString(response.status), |prefix|);
      assert OccursAt(msg, response.body, |prefix| + |IntToString(response.status)| + |middle|);
      Err(msg)
    else Ok(response.body)
  }

  /** `DoRequest`: a request that cannot be built fails before any attempt;
      otherwise the retry loop's error is passed on unchanged, and its
      response goes through the status check. */
  method DoRequest(built: Outcome, attempt: nat -> Attempt) returns (r: Result<string>, attempts: nat)
    ensures built.Fail? ==> attempts == 0 && r == Err("could not create request: " + built.error)
    ensures built.Pass? ==> var (res, n) := RetryFrom(attempt, 0);
      && attempts == n
      && r == (if res.Err? then Err(res.error) else CheckStatus(res.value))
  {
    if built.Fail? {
      return Err("could not create request: " + built.error), 0;
    }
    var result;
    result, attempts := DoRequestWithRetries(attempt);
    if result.Err? {
      return Err(result.error), attempts;
    }
    r := CheckStatus(result.value);
  }
}
