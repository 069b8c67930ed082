/** The bounded status poll shared in shape by `WaitForMachine`
    (internal/fly/machine.go) and `WaitForEnvironment` (internal/vessel/api.go):
    one status query per tick; a failed query ends the poll with an error, a
    ready answer ends it with that answer, and after 150 answers that are not
    ready the poll gives up. Ticks become iterations; the answers are an
    oracle indexed by query number. */
module Polling {
  import opened Wrappers

  /** `attemptsAllowed`. */
  const AttemptsAllowed: nat := 150

  /** A ticker: running from creation until stopped. */
  class Ticker {
    var running: bool

    constructor ()
      ensures running
    {
      running := true;
    }

    method Stop()
      modifies this
      ensures !running
    {
      running := false;
    }
  }

  /** The poll from query `k` on, `k` answers that were not ready having been
      seen: the result and the total number of queries made. */
  function PollFrom<T>(query: nat -> Result<T>, ready: T -> bool, k: nat, failPrefix: string,
                       tooMany: string): (r: (Result<T>, nat))
    ensures k < r.1 <= if k < AttemptsAllowed then AttemptsAllowed else k + 1
    decreases AttemptsAllowed - k
  {
    match query(k)
    case Err(e) => (Err(failPrefix + e), k + 1)
    case Ok(v) =>
      if ready(v) then (Ok(v), k + 1)
      else if k + 1 >= AttemptsAllowed then (Err(tooMany), k + 1)
      else PollFrom(query, ready, k + 1, failPrefix, tooMany)
  }

  /** The answer to query `j` is a successful one that is not ready. */
  predicate NotReady<T>(query: nat -> Result<T>, ready: T -> bool, j: nat)
  {
    query(j).Ok? && !ready(query(j).value)
  }

  /** What the poll does, in full: every query before the last answered "not
      ready"; the last one decides the result (a failure is reported with the
      prefix, a ready answer is returned), and if it too was not ready, exactly
      150 queries were made and the poll gave up. */
  lemma {:induction false} PollCharacterised<T>(query: nat -> Result<T>, ready: T -> bool, k: nat,
                                                failPrefix: string, tooMany: string)
    requires k < AttemptsAllowed
    ensures var (res, n) := PollFrom(query, ready, k, failPrefix, tooMany);
      && (forall j :: k <= j < n - 1 ==> NotReady(query, ready, j))
      && (query(n - 1).Err? ==> res == Err(failPrefix + query(n - 1).error))
      && (query(n - 1).Ok? && ready(query(n - 1).value) ==> res == Ok(query(n - 1).value))
      && (NotReady(query, ready, n - 1) ==> res == Err(tooMany) && n == AttemptsAllowed)
    decreases AttemptsAllowed - k
  {
    match query(k)
    case Err(_) =>
    case Ok(v) =>
      if !ready(v) && k + 1 < AttemptsAllowed {
        PollCharacterised(query, ready, k + 1, failPrefix, tooMany);
      }
  }

  /** If the first decisive answer is query `i` (i < 150), exactly `i + 1`
      queries are made and that answer decides the result. */
  lemma {:induction false} PollStopsAtFirstDecisive<T>(query: nat -> Result<T>, ready: T -> bool, k: nat, i: nat,
                                                       failPrefix: string, tooMany: string)
    requires k <= i < AttemptsAllowed
    requires forall j :: k <= j < i ==> NotReady(query, ready, j)
    requires !NotReady(query, ready, i)
    ensures var (res, n) := PollFrom(query, ready, k, failPrefix, tooMany);
      && n == i + 1
      && res == (if query(i).Err? then Err(failPrefix + query(i).error) else Ok(query(i).value))
    decreases i - k
  {
    if k < i {
      assert NotReady(query, ready, k);
      PollStopsAtFirstDecisive(query, ready, k + 1, i, failPrefix, tooMany);
    }
  }

  /** 150 answers that are not ready make the poll give up after exactly 150
      queries. */
  lemma {:induction false} PollGivesUp<T>(query: nat -> Result<T>, ready: T -> bool, k: nat,
                                          failPrefix: string, tooMany: string)
    requires k < AttemptsAllowed
    requires forall j :: k <= j < AttemptsAllowed ==> NotReady(query, ready, j)
    ensures PollFrom(query, ready, k, failPrefix, tooMany) == (Err(tooMany), AttemptsAllowed)
    decreases AttemptsAllowed - k
  {
    assert NotReady(query, ready, k);
    if k + 1 < AttemptsAllowed {
      PollGivesUp(query, ready, k + 1, failPrefix, tooMany);
    }
  }

  /** A poll that succeeds returns the last answer, and that answer was ready. */
  lemma {:induction false} PollOkIsReady<T>(query: nat -> Result<T>, ready: T -> bool, k: nat,
                                            failPrefix: string, tooMany: string)
    ensures var (res, n) := PollFrom(query, ready, k, failPrefix, tooMany);
      res.Ok? ==> ready(res.value) && query(n - 1) == Ok(res.value)
    decreases AttemptsAllowed - k
  {
    if query(k).Ok? && !ready(query(k).value) && k + 1 < AttemptsAllowed {
      PollOkIsReady(query, ready, k + 1, failPrefix, tooMany);
    }
  }
}
