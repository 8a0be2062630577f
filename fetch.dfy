/**
 * `fetch_from_youtube` (dylt/core.py): up to `retry_attempts` calls of
 * `YouTube(url)`, stopping at the first one that does not raise `PytubeError`.
 * The network is an oracle: `outcomes[i]` is what the i-th call produces.
 */
module Fetch {
  import opened Base
  import opened Streams

  /** The metadata a successful `YouTube(url)` exposes to the program. */
  datatype YouTube = YouTube(title: string, author: string, publishDate: string, streams: seq<Stream>)

  /**
   * What one try of the loop body does: `YouTube(url)` returns and `yt.title`
   * is read (`Fetched`); `YouTube(url)` raises `PytubeError` (`PytubeFailed`);
   * `YouTube(url)` returns, so `yt` is bound, but reading `yt.title` raises
   * `PytubeError` (`TitleFailed`); or one of the two raises an exception that
   * is not a `PytubeError`, which the `except` clause does not catch (`OtherError`).
   */
  datatype Attempt = Fetched(yt: YouTube) | PytubeFailed | TitleFailed(yt: YouTube) | OtherError(error: Raised)

  /** The attempts whose exception `except PytubeError` catches, so that the loop goes on. */
  predicate Caught(a: Attempt)
  {
    a.PytubeFailed? || a.TitleFailed?
  }

  /** The `click.secho` lines of the loop. */
  datatype FetchMessage = Downloading(title: string) | Retrying(remaining: int) | CannotFetch

  /** `len(range(n))`: how many iterations the loop may run. */
  function Attempts(retryAttempts: int): nat
  {
    if retryAttempts < 0 then 0 else retryAttempts
  }

  /** Index of the first attempt from `i` on, among the first `n`, that ends the loop, or `n` if there is none. */
  function FirstStopFrom(outcomes: seq<Attempt>, n: nat, i: nat): (k: nat)
    requires i <= n <= |outcomes|
    ensures i <= k <= n
    ensures k < n ==> !Caught(outcomes[k])
    ensures forall j :: i <= j < k ==> Caught(outcomes[j])
    decreases n - i
  {
    if i == n then n
    else if !Caught(outcomes[i]) then i
    else FirstStopFrom(outcomes, n, i + 1)
  }

  /**
   * Index of the first of the first `n` attempts that ends the loop (a success
   * or an exception that is not caught), or `n` if every one of them is caught.
   */
  function FirstStop(outcomes: seq<Attempt>, n: nat): (k: nat)
    requires n <= |outcomes|
    ensures k <= n
    ensures k < n ==> outcomes[k].Fetched? || outcomes[k].OtherError?
    ensures forall j :: 0 <= j < k ==> Caught(outcomes[j])
  {
    FirstStopFrom(outcomes, n, 0)
  }

  /** The retry messages of the first `k` failed attempts: attempt `i` reports `retryAttempts - i`. */
  function RetryMessages(retryAttempts: int, k: nat): (m: seq<FetchMessage>)
    ensures |m| == k
    ensures forall i :: 0 <= i < k ==> m[i] == Retrying(retryAttempts - i)
  {
    if k == 0 then [] else RetryMessages(retryAttempts, k - 1) + [Retrying(retryAttempts - (k - 1))]
  }

  /**
   * The loop of `fetch_from_youtube`. It returns the object of the first
   * successful attempt, or `None` when all `retry_attempts` attempts raise
   * `PytubeError` (the `except` clause resets `yt`, also when the object was
   * made and only its title failed) or `retry_attempts <= 0`; an exception
   * that is not a `PytubeError` leaves the function (`Err`). It prints one
   * retry line per caught failure before that, and the "Cannot fetch url"
   * line never: `i == retry_attempts` cannot hold inside `range(retry_attempts)`.
   * `calls` is how many times `YouTube(url)` ran.
   */
  method FetchFromYouTube(retryAttempts: int, outcomes: seq<Attempt>)
    returns (r: Result<Option<YouTube>>, messages: seq<FetchMessage>, ghost calls: nat)
    requires Attempts(retryAttempts) <= |outcomes|
    ensures var n := Attempts(retryAttempts); var k := FirstStop(outcomes, n);
      if k == n then
        && r == Ok(None)
        && messages == RetryMessages(retryAttempts, n)
        && calls == n
      else if outcomes[k].Fetched? then
        && r == Ok(Some(outcomes[k].yt))
        && messages == RetryMessages(retryAttempts, k) + [Downloading(outcomes[k].yt.title)]
        && calls == k + 1
      else
        && r == Err(outcomes[k].error)
        && messages == RetryMessages(retryAttempts, k)
        && calls == k + 1
    ensures calls <= Attempts(retryAttempts)
    ensures CannotFetch !in messages
  {
    var n := Attempts(retryAttempts);
    var yt: Option<YouTube> := None;
    messages := [];
    calls := 0;
    var i := 0;
    while i < n
      invariant 0 <= i <= n && calls == i
      invariant forall j :: 0 <= j < i ==> Caught(outcomes[j])
      invariant yt == None
      invariant messages == RetryMessages(retryAttempts, i)
    {
      calls := calls + 1;
      match outcomes[i] {
        case Fetched(v) =>
          yt := Some(v);
          messages := messages + [Downloading(v.title)];
          break;
        case PytubeFailed =>
          messages := messages + [Retrying(retryAttempts - i)];
          yt := None;
        case TitleFailed(v) =>
          yt := Some(v);
          messages := messages + [Retrying(retryAttempts - i)];
          yt := None;
        case OtherError(e) =>
          return Err(e), messages, calls;
      }
      if i == retryAttempts {
        messages := messages + [CannotFetch];
        yt := None;
      }
      i := i + 1;
    }
    r := Ok(yt);
  }
}
