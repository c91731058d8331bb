/**
 * `fetch_json`: a bounded retry loop over `requests.get`, modelled over the
 * sequence of attempt outcomes the network would give.
 */
module Fetch {
  import opened Wrappers
  import opened Json
  import opened Strings

  const MAX_RETRIES := 3

  /** What one `requests.get(uri, timeout=10)` attempt gives. */
  datatype Attempt =
    | Raised                                                   // timeout, connection error, ...
    | Reply(status: int, contentType: string, body: Option<Json>)
      // contentType is "" when the header is missing; body is None when `r.json()` raises

  /** Status 200, a JSON content type and a decodable body: the loop returns. */
  predicate Accepted(a: Attempt) {
    a.Reply? && a.status == 200 && StartsWith(a.contentType, "application/json") && a.body.Some?
  }

  /** The attempt ends in the `except` branch, which sleeps one second. */
  predicate Sleeps(a: Attempt) {
    a.Raised? || (a.status == 200 && StartsWith(a.contentType, "application/json") && a.body.None?)
  }

  /** What a call returns, with the number of requests made and of sleeps taken. */
  datatype FetchRun = FetchRun(result: Option<Json>, attempts: nat, sleeps: nat)

  /** The loop from attempt `k` on, with `n` iterations of `range(retries)` left. */
  function FetchFrom(outcome: nat -> Attempt, k: nat, n: int): FetchRun
    decreases if n <= 0 then 0 else n
  {
    if n <= 0 then FetchRun(None, 0, 0)
    else if Accepted(outcome(k)) then FetchRun(outcome(k).body, 1, 0)
    else
      var rest := FetchFrom(outcome, k + 1, n - 1);
      FetchRun(rest.result, rest.attempts + 1, rest.sleeps + if Sleeps(outcome(k)) then 1 else 0)
  }

  /** How many of the attempts `k .. k+m-1` sleep. */
  function SleepCount(outcome: nat -> Attempt, k: nat, m: nat): nat
    decreases m
  {
    if m == 0 then 0 else (if Sleeps(outcome(k)) then 1 else 0) + SleepCount(outcome, k + 1, m - 1)
  }

  /** The retry loop itself. */
  method FetchJson(outcome: nat -> Attempt, retries: int) returns (r: Option<Json>, attempts: nat, sleeps: nat)
    ensures FetchRun(r, attempts, sleeps) == FetchFrom(outcome, 0, retries)
  {
    r, attempts, sleeps := None, 0, 0;
    var n := if retries < 0 then 0 else retries;
    while attempts < n
      invariant attempts <= n
      invariant var rest := FetchFrom(outcome, attempts, retries - attempts);
        FetchFrom(outcome, 0, retries) == FetchRun(rest.result, attempts + rest.attempts, sleeps + rest.sleeps)
    {
      var a := outcome(attempts);
      if a.Reply? && a.status == 200 && StartsWith(a.contentType, "application/json") {
        if a.body.Some? {
          r := a.body;
          attempts := attempts + 1;
          return;
        }
        sleeps := sleeps + 1;
      } else if a.Raised? {
        sleeps := sleeps + 1;
      }
      attempts := attempts + 1;
    }
  }

  /**
   * The retry policy: at most `retries` requests; the first accepted one
   * ends the loop and its body is returned; otherwise nothing is returned
   * after exactly `retries` requests; one sleep per attempt that raised.
   */
  lemma {:induction false} FetchFromPolicy(outcome: nat -> Attempt, k: nat, n: int)
    ensures var f := FetchFrom(outcome, k, n);
      f.attempts <= (if n < 0 then 0 else n) &&
      f.sleeps == SleepCount(outcome, k, f.attempts)
    ensures var f := FetchFrom(outcome, k, n);
      f.result.Some? ==>
        1 <= f.attempts && Accepted(outcome(k + f.attempts - 1)) &&
        f.result == outcome(k + f.attempts - 1).body &&
        forall j :: k <= j < k + f.attempts - 1 ==> !Accepted(outcome(j))
    ensures var f := FetchFrom(outcome, k, n);
      f.result.None? ==>
        f.attempts == (if n < 0 then 0 else n) &&
        forall j :: k <= j < k + n ==> !Accepted(outcome(j))
    decreases if n <= 0 then 0 else n
  {
    if n > 0 && !Accepted(outcome(k)) {
      FetchFromPolicy(outcome, k + 1, n - 1);
    }
  }

  /** The same, from the first attempt: nothing is requested when `retries <= 0`. */
  lemma FetchPolicy(outcome: nat -> Attempt, retries: int)
    ensures var f := FetchFrom(outcome, 0, retries);
      (retries <= 0 ==> f == FetchRun(None, 0, 0)) &&
      (f.result.Some? <==> exists j :: 0 <= j < retries && Accepted(outcome(j)))
  {
    FetchFromPolicy(outcome, 0, retries);
    var f := FetchFrom(outcome, 0, retries);
    if f.result.Some? {
      assert Accepted(outcome(f.attempts - 1));
    }
  }

  /** Three failed attempts give nothing, after three requests. */
  lemma ThreeFailuresGiveNothing(outcome: nat -> Attempt)
    requires forall j :: 0 <= j < MAX_RETRIES ==> !Accepted(outcome(j))
    ensures FetchFrom(outcome, 0, MAX_RETRIES).result == None
    ensures FetchFrom(outcome, 0, MAX_RETRIES).attempts == MAX_RETRIES
  {
    FetchFromPolicy(outcome, 0, MAX_RETRIES);
    var f := FetchFrom(outcome, 0, MAX_RETRIES);
    if f.result.Some? {
      assert !Accepted(outcome(f.attempts - 1));
    }
  }
}
