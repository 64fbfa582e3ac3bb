/**
 * The retrying fetch of src/eager-fetch.js: one logical fetch wrapped in
 * a loop of immediate retries bounded by the caller's `retry` budget.
 *
 * The transport (undici's `fetch`) is an input: `transport(k)` is how the
 * k-th call (from 0) settles, together with whether `stopRetrying` was
 * called while that call was in flight.
 */
module EagerFetch {
  import opened Js

  /** The value a transport call fulfils with, as far as the loop looks at it.
      `StandIn` is the literal `{ ok: false }` put in place of a timeout. */
  datatype FetchResponse =
    | Received(ok: bool, status: int, body: string)
    | StandIn
  {
    /** `response.ok` */
    predicate IsOk() {
      Received? && ok
    }
  }

  /** How a call (or the whole retrying fetch) settles. */
  datatype Settled = Fulfilled(response: FetchResponse) | Rejected(error: Fault)

  /** One transport call as the loop sees it. */
  datatype Attempt = Attempt(settled: Settled, stopRetrying: bool)

  /** The arguments of one transport call: `fetch(url, opts)`. */
  datatype Call = Call(url: string, init: map<string, string>)

  /** What a run of the loop produces: its result, how many transport calls
      it made, and the budget left in `retriesLeft` at the end. */
  datatype Run = Run(result: Settled, attempts: nat, retriesLeft: int)

  const TimeoutErrorName := "TimeoutError"

  /** The `.catch` handler of one attempt: a `TimeoutError` becomes a
      not-ok `{ ok: false }`, every other rejection is passed on, a
      response is passed on unchanged. */
  function Recover(s: Settled): (r: Settled)
    ensures r.Rejected? <==> s.Rejected? && s.error.name != TimeoutErrorName
    ensures r.Rejected? ==> r == s
    ensures s.Fulfilled? ==> r == s
    ensures s.Rejected? && s.error.name == TimeoutErrorName ==> r.Fulfilled? && !r.response.IsOk()
  {
    match s
    case Fulfilled(_) => s
    case Rejected(e) => if e.name == TimeoutErrorName then Fulfilled(StandIn) else s
  }

  /** An attempt after which the loop would retry if budget remains:
      it produced a not-ok response (possibly the stand-in for a timeout). */
  predicate Retryable(a: Attempt) {
    var r := Recover(a.settled);
    r.Fulfilled? && !r.response.IsOk()
  }

  function Max0(n: int): nat {
    if n > 0 then n else 0
  }

  /** The recursion of `fetchAttempt`, from call `k` on, with `retriesLeft`
      as the shared budget when call `k` is made. */
  function Retry(retriesLeft: int, transport: nat -> Attempt, k: nat): (r: Run)
    ensures 1 <= r.attempts
    ensures !Retryable(transport(k)) ==> r == Run(Recover(transport(k).settled), 1, r.retriesLeft)
    decreases Max0(retriesLeft)
  {
    var attempt := transport(k);
    var budget := if attempt.stopRetrying then 0 else retriesLeft;
    var settled := Recover(attempt.settled);
    if settled.Fulfilled? && !settled.response.IsOk() && budget > 0 then
      var rest := Retry(budget - 1, transport, k + 1);
      rest.(attempts := rest.attempts + 1)
    else
      Run(settled, 1, budget)
  }

  /** With budget N the transport is called at most N+1 times; with no
      positive budget it is called exactly once. */
  lemma {:induction false} AttemptBound(retriesLeft: int, transport: nat -> Attempt, k: nat)
    ensures Retry(retriesLeft, transport, k).attempts <= Max0(retriesLeft) + 1
    ensures retriesLeft <= 0 ==> Retry(retriesLeft, transport, k).attempts == 1
    decreases Max0(retriesLeft)
  {
    var attempt := transport(k);
    var budget := if attempt.stopRetrying then 0 else retriesLeft;
    if Retryable(attempt) && budget > 0 {
      AttemptBound(budget - 1, transport, k + 1);
    }
  }

  /** The budget is only decremented while positive, so a non-negative
      budget stays non-negative, and it never grows. */
  lemma {:induction false} BudgetNeverNegative(retriesLeft: int, transport: nat -> Attempt, k: nat)
    requires retriesLeft >= 0
    ensures 0 <= Retry(retriesLeft, transport, k).retriesLeft <= retriesLeft
    decreases retriesLeft
  {
    var attempt := transport(k);
    var budget := if attempt.stopRetrying then 0 else retriesLeft;
    if Retryable(attempt) && budget > 0 {
      BudgetNeverNegative(budget - 1, transport, k + 1);
    }
  }

  /** The result is the (recovered) outcome of the last call, unchanged,
      and every earlier call produced a not-ok response. */
  lemma {:induction false} ResultIsLastAttempt(retriesLeft: int, transport: nat -> Attempt, k: nat)
    ensures var r := Retry(retriesLeft, transport, k);
      r.result == Recover(transport(k + r.attempts - 1).settled) &&
      forall j :: k <= j < k + r.attempts - 1 ==> Retryable(transport(j))
    decreases Max0(retriesLeft)
  {
    var attempt := transport(k);
    var budget := if attempt.stopRetrying then 0 else retriesLeft;
    if Retryable(attempt) && budget > 0 {
      ResultIsLastAttempt(budget - 1, transport, k + 1);
    }
  }

  /** A not-ok result is surfaced only once the budget is spent: unless
      `stopRetrying` intervened, it comes after exactly N+1 calls. */
  lemma {:induction false} GivesUpOnlyWhenExhausted(retriesLeft: int, transport: nat -> Attempt, k: nat)
    ensures var r := Retry(retriesLeft, transport, k);
      r.result.Fulfilled? && !r.result.response.IsOk() &&
      (forall j :: k <= j < k + r.attempts ==> !transport(j).stopRetrying)
      ==> r.attempts == Max0(retriesLeft) + 1 && r.retriesLeft <= 0
    decreases Max0(retriesLeft)
  {
    var attempt := transport(k);
    var budget := if attempt.stopRetrying then 0 else retriesLeft;
    if Retryable(attempt) && budget > 0 {
      GivesUpOnlyWhenExhausted(budget - 1, transport, k + 1);
    }
  }

  /** `stopRetrying` during a call means no call follows it. */
  lemma {:induction false} StopRetryingEndsLoop(retriesLeft: int, transport: nat -> Attempt, k: nat, j: nat)
    requires k <= j < k + Retry(retriesLeft, transport, k).attempts
    requires transport(j).stopRetrying
    ensures Retry(retriesLeft, transport, k).attempts == j - k + 1
    decreases Max0(retriesLeft)
  {
    var attempt := transport(k);
    var budget := if attempt.stopRetrying then 0 else retriesLeft;
    if Retryable(attempt) && budget > 0 {
      StopRetryingEndsLoop(budget - 1, transport, k + 1, j);
    }
  }

  /** The chain of `fetchAttempt` calls as a loop over the shared budget
      `retriesLeft`; every call is made with the same arguments. */
  method FetchAttempts(url: string, init: map<string, string>, retriesLeft: int, transport: nat -> Attempt)
    returns (result: Settled, calls: seq<Call>, left: int)
    ensures Run(result, |calls|, left) == Retry(retriesLeft, transport, 0)
    ensures forall c :: c in calls ==> c == Call(url, init)
  {
    var budget := retriesLeft;
    var k: nat := 0;
    calls := [];
    while true
      invariant |calls| == k
      invariant forall c :: c in calls ==> c == Call(url, init)
      invariant Retry(budget, transport, k).result == Retry(retriesLeft, transport, 0).result
      invariant Retry(budget, transport, k).retriesLeft == Retry(retriesLeft, transport, 0).retriesLeft
      invariant k + Retry(budget, transport, k).attempts == Retry(retriesLeft, transport, 0).attempts
      decreases Max0(budget)
    {
      calls := calls + [Call(url, init)];
      var attempt := transport(k);
      if attempt.stopRetrying {
        budget := 0;
      }
      var settled := Recover(attempt.settled);
      if settled.Rejected? {
        result, left := settled, budget;
        return;
      }
      if !settled.response.IsOk() && budget > 0 {
        budget := budget - 1;
        k := k + 1;
      } else {
        result, left := settled, budget;
        return;
      }
    }
  }

  /** The options object the caller passes: its `retry` property and
      every other property, which is handed to the transport. */
  class FetchOptions {
    var retry: Option<int>
    var init: map<string, string>

    /** `retry` is held in its own field, never among the other properties. */
    ghost predicate Valid()
      reads this
    {
      "retry" !in init
    }

    constructor (retry: Option<int>, init: map<string, string>)
      requires "retry" !in init
      ensures Valid()
      ensures this.retry == retry && this.init == init
    {
      this.retry := retry;
      this.init := init;
    }
  }

  /** The budget read from `opts.retry`; an absent one behaves as 0
      (`undefined > 0` is false, like `0 > 0`). */
  function Budget(retry: Option<int>): (b: int)
    ensures retry.Some? ==> b == retry.value
    ensures b > 0 <==> retry.Some? && retry.value > 0
  {
    retry.GetOr(0)
  }

  /** `eagerFetch(url, opts)`: removes `retry` from the caller's options,
      then runs the attempt loop with it as the budget. */
  method EagerFetch(url: string, opts: FetchOptions, transport: nat -> Attempt)
    returns (result: Settled, calls: seq<Call>)
    requires opts.Valid()
    modifies opts
    ensures opts.Valid()
    ensures opts.retry == None && opts.init == old(opts.init)
    ensures forall c :: c in calls ==> c == Call(url, old(opts.init)) && "retry" !in c.init
    ensures var r := Retry(Budget(old(opts.retry)), transport, 0);
      result == r.result && |calls| == r.attempts
  {
    var retriesLeft := Budget(opts.retry);
    opts.retry := None;
    var left;
    result, calls, left := FetchAttempts(url, opts.init, retriesLeft, transport);
  }
}
