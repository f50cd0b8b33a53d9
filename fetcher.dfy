/**
 * `fetchFileContent(url, retries = 3)`: one HTTP GET per attempt, at most `retries`
 * attempts. A 404 ends the loop at once with `null`; any other failure (a non-404
 * error status or a thrown network error) is retried after a pause of `1000 * attempt`
 * milliseconds, except after the last attempt, which gives up with `null`. The network
 * is an oracle: `responses[i]` is what the request of attempt `i` (0-based) gets; an
 * attempt past the end of the list fails. Sleeping is not performed: the pauses are
 * returned, in order.
 */
module Fetcher {

  /** The outcome of one request. */
  datatype Response =
    | Ok(body: string)  // 2xx status and the body text was read
    | NotFound          // status 404
    | Fail              // any other status, or the request or body read threw

  /** The value the function resolves to. `Undefined` is what a loop that never runs
      (`retries <= 0`) falls off the end with. */
  datatype Content = Body(text: string) | Null | Undefined

  /** The resolved value, the pauses slept in between attempts, and how many requests
      were issued. */
  datatype FetchRun = FetchRun(content: Content, delays: seq<nat>, attempts: nat)

  const DefaultRetries := 3
  const BackoffStep := 1000

  function At(responses: seq<Response>, i: nat): Response {
    if i < |responses| then responses[i] else Fail
  }

  /** The first attempt in `[i, n)` that does not fail transiently, or `n` when all do. */
  function FirstSettled(responses: seq<Response>, i: nat, n: nat): (k: nat)
    requires i <= n
    ensures i <= k <= n
    ensures forall j :: i <= j < k ==> At(responses, j).Fail?
    ensures k < n ==> !At(responses, k).Fail?
    decreases n - i
  {
    if i == n then n
    else if !At(responses, i).Fail? then i
    else FirstSettled(responses, i + 1, n)
  }

  /** The pauses after the first `k` failed attempts: attempt `j` (0-based) is followed by
      `1000 * (j + 1)` ms. The schedule is linear. */
  function Backoff(k: nat): seq<nat> {
    seq(k, j requires 0 <= j < k => BackoffStep * (j + 1))
  }

  /** What `fetchFileContent` does, in closed form: find the first attempt that settles. */
  function Fetched(responses: seq<Response>, retries: int): FetchRun {
    if retries <= 0 then FetchRun(Undefined, [], 0)
    else
      var k := FirstSettled(responses, 0, retries);
      if k == retries then FetchRun(Null, Backoff(retries - 1), retries)
      else match At(responses, k)
        case Ok(body) => FetchRun(Body(body), Backoff(k), k + 1)
        case _ => FetchRun(Null, Backoff(k), k + 1)
  }

  /** The retry loop, step by step. */
  method FetchFileContent(responses: seq<Response>, retries: int) returns (run: FetchRun)
    ensures run == Fetched(responses, retries)
  {
    var delays: seq<nat> := [];
    var i := 0;
    while i < retries
      invariant 0 <= i
      invariant retries > 0 ==> i < retries
      invariant retries <= 0 ==> i == 0
      invariant forall j :: 0 <= j < i ==> At(responses, j).Fail?
      invariant delays == Backoff(i)
    {
      var response := At(responses, i);
      match response {
        case NotFound =>
          return FetchRun(Null, delays, i + 1);
        case Ok(body) =>
          return FetchRun(Body(body), delays, i + 1);
        case Fail =>
          if i == retries - 1 {
            return FetchRun(Null, delays, i + 1);
          }
          delays := delays + [BackoffStep * (i + 1)];
          i := i + 1;
      }
    }
    return FetchRun(Undefined, delays, i);
  }

  /** A 404 on some attempt ends the run there with `null`; no pause follows it. With a
      404 on the first attempt: one request, no pause. */
  lemma NotFoundEndsFetch(responses: seq<Response>, retries: int, k: nat)
    requires k < retries
    requires forall j :: 0 <= j < k ==> At(responses, j).Fail?
    requires At(responses, k) == NotFound
    ensures Fetched(responses, retries) == FetchRun(Null, Backoff(k), k + 1)
    ensures k == 0 ==> Fetched(responses, retries) == FetchRun(Null, [], 1)
  {
    FirstSettledIs(responses, retries, k);
  }

  /** An ok response returns its body, and it is the last request issued. */
  lemma OkEndsFetch(responses: seq<Response>, retries: int, k: nat, body: string)
    requires k < retries
    requires forall j :: 0 <= j < k ==> At(responses, j).Fail?
    requires At(responses, k) == Ok(body)
    ensures Fetched(responses, retries) == FetchRun(Body(body), Backoff(k), k + 1)
  {
    FirstSettledIs(responses, retries, k);
  }

  /** When every allowed attempt fails, all `retries` requests are made and the result is
      `null`; the last failure is not followed by a pause. */
  lemma ExhaustedRetries(responses: seq<Response>, retries: int)
    requires retries >= 1
    requires forall j :: 0 <= j < retries ==> At(responses, j).Fail?
    ensures Fetched(responses, retries) == FetchRun(Null, Backoff(retries - 1), retries)
  {
    assert FirstSettled(responses, 0, retries) == retries;
  }

  /** For every oracle: with `retries >= 1` there are between one and `retries` requests,
      exactly one pause fewer than requests, and the result is never `undefined`; with
      `retries <= 0` no request is made and the result is `undefined`. */
  lemma AttemptsBounded(responses: seq<Response>, retries: int)
    ensures var run := Fetched(responses, retries);
      && (retries >= 1 ==>
            1 <= run.attempts <= retries && |run.delays| == run.attempts - 1 && !run.content.Undefined?)
      && (retries <= 0 ==> run == FetchRun(Undefined, [], 0))
      && (forall j :: 0 <= j < |run.delays| ==> run.delays[j] == BackoffStep * (j + 1))
  {
  }

  /** With the default three attempts all failing, the pauses are exactly 1 s and 2 s. */
  lemma DefaultScheduleAllFail()
    ensures Fetched([Fail, Fail, Fail], DefaultRetries) == FetchRun(Null, [1000, 2000], 3)
  {
    ExhaustedRetries([Fail, Fail, Fail], DefaultRetries);
    assert Backoff(2) == [1000, 2000];
  }

  lemma FirstSettledIs(responses: seq<Response>, n: int, k: nat)
    requires k < n
    requires forall j :: 0 <= j < k ==> At(responses, j).Fail?
    requires !At(responses, k).Fail?
    ensures FirstSettled(responses, 0, n) == k
  {
  }
}
