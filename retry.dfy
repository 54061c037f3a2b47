/** fetchWithRetry (background.js:43-57): up to `retries` attempts, the first
    2xx response is returned, a failure is followed by a fixed delay unless it
    was the last attempt, whose error is rethrown. The network is the answer
    it gives to each attempt, in order; a delay is counted, not timed. */
module RetryingFetch {
  import opened Errors
  import opened IpValidator

  /** Default attempt count and delay between attempts (background.js:4-5). */
  const MAX_RETRIES: int := 3
  const RETRY_DELAY_MS: nat := 2000

  /** What `response.json()` yields: a rejection with the parser's message,
      JSON null, or another JSON value whose `ip` member is given. */
  datatype Body = Unparsable(message: string) | NullJson | Parsed(ip: IpField)

  datatype Response = Response(status: nat, body: Body)

  /** One call of `fetch`: a response with some status, or a rejection. */
  datatype Attempt = Answered(response: Response) | NetworkFailure(message: string)

  /** `response.ok`: the status is in the range 200-299. */
  predicate IsOk(a: Attempt) {
    a.Answered? && 200 <= a.response.status <= 299
  }

  /** The error a failed attempt throws inside the loop. */
  function AttemptError(a: Attempt): Error
    requires !IsOk(a)
  {
    match a
    case Answered(response) => HttpStatus(response.status)
    case NetworkFailure(message) => HostError(message)
  }

  /** How the call settles: a response, a rethrown error, or `undefined` when
      the loop body never runs. */
  datatype FetchResult = Returned(response: Response) | Rethrown(error: Error) | ReturnedUndefined

  datatype Retried = Retried(result: FetchResult, attempts: nat, delays: nat)

  /** The loop from attempt `i` on, `i` attempts and delays having been made. */
  function RetryFrom(net: nat -> Attempt, i: nat, retries: int): Retried
    decreases retries - i
  {
    if i >= retries then Retried(ReturnedUndefined, i, i)
    else if IsOk(net(i)) then Retried(Returned(net(i).response), i + 1, i)
    else if i == retries - 1 then Retried(Rethrown(AttemptError(net(i))), i + 1, i)
    else RetryFrom(net, i + 1, retries)
  }

  function Retry(net: nat -> Attempt, retries: int): Retried {
    RetryFrom(net, 0, retries)
  }

  method FetchWithRetry(net: nat -> Attempt, retries: int) returns (run: Retried)
    ensures run == Retry(net, retries)
  {
    var i: nat := 0;
    var delays: nat := 0;
    while i < retries
      invariant i == 0 || i < retries
      invariant delays == i
      invariant RetryFrom(net, i, retries) == Retry(net, retries)
    {
      var attempt := net(i);
      if IsOk(attempt) {
        return Retried(Returned(attempt.response), i + 1, delays);
      }
      if i == retries - 1 {
        return Retried(Rethrown(AttemptError(attempt)), i + 1, delays);
      }
      delays := delays + 1;
      i := i + 1;
    }
    return Retried(ReturnedUndefined, i, delays);
  }

  lemma {:induction false} RetryFromFacts(net: nat -> Attempt, i: nat, retries: int)
    requires i < retries
    ensures var r := RetryFrom(net, i, retries);
      && i < r.attempts <= retries
      && r.delays == r.attempts - 1
      && (forall j :: i <= j < r.attempts - 1 ==> !IsOk(net(j)))
      && (r.result.Returned? <==> IsOk(net(r.attempts - 1)))
      && (r.result.Returned? ==> r.result.response == net(r.attempts - 1).response)
      && (r.result.Rethrown? ==> r.attempts == retries && r.result.error == AttemptError(net(retries - 1)))
      && !r.result.ReturnedUndefined?
    decreases retries - i
  {
    if !IsOk(net(i)) && i < retries - 1 {
      RetryFromFacts(net, i + 1, retries);
    }
  }

  /** At most `retries` attempts, one delay between consecutive attempts, and
      no attempt at all (an `undefined` result) when `retries` is not positive. */
  lemma RetryAttemptBounds(net: nat -> Attempt, retries: int)
    ensures retries <= 0 ==> Retry(net, retries) == Retried(ReturnedUndefined, 0, 0)
    ensures retries > 0 ==>
      1 <= Retry(net, retries).attempts <= retries &&
      Retry(net, retries).delays == Retry(net, retries).attempts - 1 &&
      !Retry(net, retries).result.ReturnedUndefined?
  {
    if retries > 0 {
      RetryFromFacts(net, 0, retries);
    }
  }

  /** The result is the first 2xx response, if any of the allowed attempts
      gets one; every attempt before the last one made failed. */
  lemma RetryReturnsFirstOk(net: nat -> Attempt, retries: int)
    ensures var r := Retry(net, retries);
      && (r.result.Returned? <==> exists k :: 0 <= k < retries && IsOk(net(k)))
      && (forall j :: 0 <= j < r.attempts - 1 ==> !IsOk(net(j)))
      && (r.result.Returned? ==> 1 <= r.attempts && IsOk(net(r.attempts - 1)) && r.result.response == net(r.attempts - 1).response)
  {
    var r := Retry(net, retries);
    if retries > 0 {
      RetryFromFacts(net, 0, retries);
      if r.result.Returned? {
        assert IsOk(net(r.attempts - 1));
      }
      if !r.result.Returned? {
        assert r.result.Rethrown?;
        assert forall k :: 0 <= k < retries ==> !IsOk(net(k)) by {
          forall k | 0 <= k < retries ensures !IsOk(net(k)) {
            if k < retries - 1 {
              assert k < r.attempts - 1;
            }
          }
        }
      }
    }
  }

  /** When every attempt fails: exactly `retries` attempts, `retries - 1`
      delays, and the last attempt's error reaches the caller unchanged. */
  lemma RetryAllFail(net: nat -> Attempt, retries: int)
    requires retries > 0
    requires forall j :: 0 <= j < retries ==> !IsOk(net(j))
    ensures Retry(net, retries) == Retried(Rethrown(AttemptError(net(retries - 1))), retries, retries - 1)
  {
    RetryFromFacts(net, 0, retries);
    RetryReturnsFirstOk(net, retries);
  }

  /** With the default of three attempts and a network that always fails:
      three attempts, two delays of RETRY_DELAY_MS each, and an error. */
  lemma DefaultRetriesAllFail(net: nat -> Attempt)
    requires forall j :: 0 <= j < MAX_RETRIES ==> !IsOk(net(j))
    ensures Retry(net, MAX_RETRIES).attempts == 3
    ensures Retry(net, MAX_RETRIES).delays * RETRY_DELAY_MS == 4000
    ensures Retry(net, MAX_RETRIES).result == Rethrown(AttemptError(net(2)))
  {
    RetryAllFail(net, MAX_RETRIES);
  }
}
