// `poll`: call a task-status endpoint until the task succeeds or fails, at
// most `maxAttempts` times, sleeping `interval` milliseconds between calls.
// The endpoint is an oracle `replies` (the outcome of the k-th call), the
// abort signal an oracle `abortAt` (aborted from turn `abortAt` on), and the
// timer a record of the requested sleeps.
module Polling {
  import opened Wrappers

  datatype TaskStatus = InProgress | Succeeded | Failed

  /** A status body: `{ status, message?, error? }`. */
  datatype StatusReply = StatusReply(status: TaskStatus, message: Option<string>, error: Option<string>)

  /** What one callback does: resolve with a body, or reject. */
  datatype Reply = Resolved(result: StatusReply) | Rejected(reason: string)

  /** What `poll` throws. */
  datatype PollError =
    | AbortError
    | HitcraftError(message: string)
    | PlainError(message: string)
    | CallbackError(reason: string)

  datatype PollingConfig = PollingConfig(taskId: string, interval: Option<int>, maxAttempts: Option<int>)

  const DefaultInterval := 2000
  const DefaultMaxAttempts := 300

  function IntervalOf(config: PollingConfig): int
  {
    config.interval.UnwrapOr(DefaultInterval)
  }

  function MaxAttemptsOf(config: PollingConfig): int
  {
    config.maxAttempts.UnwrapOr(DefaultMaxAttempts)
  }

  /** `controller?.signal.throwIfAborted()` at turn k: no controller or not yet aborted lets the call through. */
  predicate Aborted(abortAt: Option<nat>, k: nat)
  {
    abortAt.Some? && abortAt.value <= k
  }

  /** JavaScript truthiness of an optional string. */
  predicate Truthy(s: Option<string>)
  {
    s.Some? && s.value != ""
  }

  /** The error a `failed` body is turned into. */
  function FailureOf(result: StatusReply): PollError
  {
    if Truthy(result.error) then HitcraftError(result.error.value) else PlainError("Task failed")
  }

  /** The outcome of polling from turn k on: the reference the loop is proved against. */
  function PollFrom(k: nat, maxAttempts: int, replies: nat -> Reply, abortAt: Option<nat>): Result<StatusReply, PollError>
    decreases maxAttempts - k
  {
    if k >= maxAttempts then Failure(PlainError("Polling timeout"))
    else if Aborted(abortAt, k) then Failure(AbortError)
    else match replies(k)
      case Rejected(reason) => Failure(CallbackError(reason))
      case Resolved(result) =>
        if result.status == Succeeded then Success(result)
        else if result.status == Failed then Failure(FailureOf(result))
        else PollFrom(k + 1, maxAttempts, replies, abortAt)
  }

  /** The first k turns each passed the abort check and got an `in_progress` body. */
  predicate Running(replies: nat -> Reply, abortAt: Option<nat>, k: nat)
  {
    forall j: nat :: j < k ==> !Aborted(abortAt, j) && replies(j).Resolved? && replies(j).result.status == InProgress
  }

  lemma RunningAt(replies: nat -> Reply, abortAt: Option<nat>, n: nat, k: nat)
    requires Running(replies, abortAt, n) && k < n
    ensures !Aborted(abortAt, k) && replies(k).Resolved? && replies(k).result.status == InProgress
  {
  }

  /** The outcomes that are decided by a callback's reply rather than before making one. */
  predicate FromCallback(r: Result<StatusReply, PollError>)
  {
    r.Success? || !(r.error == AbortError || r.error == PlainError("Polling timeout"))
  }

  /**
   * The loop of `poll`. Returns the outcome, the number of callbacks made and
   * the sleeps requested. Every turn before the last got an `in_progress`
   * reply, each sleep is one interval, and there are never more callbacks than
   * `maxAttempts`.
   */
  method Poll(replies: nat -> Reply, abortAt: Option<nat>, config: PollingConfig)
    returns (r: Result<StatusReply, PollError>, calls: nat, sleeps: seq<int>)
    ensures r == PollFrom(0, MaxAttemptsOf(config), replies, abortAt)
    ensures Running(replies, abortAt, |sleeps|)
    ensures forall i :: 0 <= i < |sleeps| ==> sleeps[i] == IntervalOf(config)
    ensures calls == |sleeps| + (if FromCallback(r) then 1 else 0)
    ensures calls <= if MaxAttemptsOf(config) < 0 then 0 else MaxAttemptsOf(config)
  {
    var interval := IntervalOf(config);
    var maxAttempts := MaxAttemptsOf(config);
    var attempts: nat := 0;
    calls := 0;
    sleeps := [];
    while attempts < maxAttempts
      invariant calls == attempts == |sleeps| <= if maxAttempts < 0 then 0 else maxAttempts
      invariant forall i :: 0 <= i < |sleeps| ==> sleeps[i] == interval
      invariant Running(replies, abortAt, attempts)
      invariant PollFrom(0, maxAttempts, replies, abortAt) == PollFrom(attempts, maxAttempts, replies, abortAt)
      decreases maxAttempts - attempts
    {
      if Aborted(abortAt, attempts) {
        return Failure(AbortError), calls, sleeps;
      }
      var reply := replies(attempts);
      calls := calls + 1;
      if reply.Rejected? {
        return Failure(CallbackError(reply.reason)), calls, sleeps;
      }
      var result := reply.result;
      if result.status == Succeeded {
        return Success(result), calls, sleeps;
      }
      if result.status == Failed {
        if Truthy(result.error) {
          return Failure(HitcraftError(result.error.value)), calls, sleeps;
        }
        return Failure(PlainError("Task failed")), calls, sleeps;
      }
      attempts := attempts + 1;
      sleeps := sleeps + [interval];
    }
    r := Failure(PlainError("Polling timeout"));
  }

  /**
   * Polling from turn k after k running turns succeeds exactly when some later
   * turn n within the budget got `succeeded` after running turns only.
   */
  lemma {:induction false} PollFromSucceeds(k: nat, maxAttempts: int, replies: nat -> Reply, abortAt: Option<nat>)
    requires Running(replies, abortAt, k)
    ensures PollFrom(k, maxAttempts, replies, abortAt).Success? <==>
      exists n: nat :: k <= n < maxAttempts && Running(replies, abortAt, n) && !Aborted(abortAt, n)
        && replies(n).Resolved? && replies(n).result.status == Succeeded
    decreases maxAttempts - k
  {
    if k < maxAttempts && !Aborted(abortAt, k) && replies(k).Resolved? && replies(k).result.status == InProgress {
      PollFromSucceeds(k + 1, maxAttempts, replies, abortAt);
    } else if k < maxAttempts {
      forall n: nat | k < n && Running(replies, abortAt, n) ensures false {
        RunningAt(replies, abortAt, n, k);
      }
    }
  }

  /** A poll succeeds exactly when the first reply that is not `in_progress` is `succeeded`, within the budget and before any abort. */
  lemma PollSucceedsIff(replies: nat -> Reply, abortAt: Option<nat>, maxAttempts: int)
    ensures PollFrom(0, maxAttempts, replies, abortAt).Success? <==>
      exists n: nat :: n < maxAttempts && Running(replies, abortAt, n) && !Aborted(abortAt, n)
        && replies(n).Resolved? && replies(n).result.status == Succeeded
  {
    PollFromSucceeds(0, maxAttempts, replies, abortAt);
  }

  /** From turn k, the result is the one succeeded body reached, or else never a success. */
  lemma {:induction false} PollFromTimesOut(k: nat, maxAttempts: int, replies: nat -> Reply, abortAt: Option<nat>)
    requires Running(replies, abortAt, k)
    ensures PollFrom(k, maxAttempts, replies, abortAt) == Failure(PlainError("Polling timeout")) <==>
      k >= maxAttempts || Running(replies, abortAt, maxAttempts)
    decreases maxAttempts - k
  {
    if k < maxAttempts {
      if !Aborted(abortAt, k) && replies(k).Resolved? && replies(k).result.status == InProgress {
        PollFromTimesOut(k + 1, maxAttempts, replies, abortAt);
      } else {
        if Running(replies, abortAt, maxAttempts) {
          RunningAt(replies, abortAt, maxAttempts, k);
        }
        var r := PollFrom(k, maxAttempts, replies, abortAt);
        if !Aborted(abortAt, k) && replies(k).Resolved? && replies(k).result.status == Failed {
          assert r == Failure(FailureOf(replies(k).result));
        }
      }
    }
  }

  /** A poll times out exactly when every one of the `maxAttempts` turns passed the abort check and got `in_progress`. */
  lemma PollTimesOutIff(replies: nat -> Reply, abortAt: Option<nat>, maxAttempts: int)
    ensures PollFrom(0, maxAttempts, replies, abortAt) == Failure(PlainError("Polling timeout")) <==>
      maxAttempts <= 0 || Running(replies, abortAt, maxAttempts)
  {
    PollFromTimesOut(0, maxAttempts, replies, abortAt);
  }

  /** A `failed` body carrying a non-empty error message is rethrown under that message; otherwise as "Task failed". */
  lemma FailedReplies(result: StatusReply)
    requires result.status == Failed
    ensures Truthy(result.error) ==> FailureOf(result) == HitcraftError(result.error.value)
    ensures result.error == None || result.error == Some("") ==> FailureOf(result) == PlainError("Task failed")
  {
  }

  /**
   * From turn k after k running turns, the poll ends in `AbortError` exactly
   * when the abort falls within the budget and every turn before it ran.
   */
  lemma {:induction false} PollFromAborts(k: nat, maxAttempts: int, replies: nat -> Reply, abortAt: Option<nat>)
    requires Running(replies, abortAt, k)
    ensures PollFrom(k, maxAttempts, replies, abortAt) == Failure(AbortError) <==>
      abortAt.Some? && abortAt.value < maxAttempts && Running(replies, abortAt, abortAt.value)
    decreases maxAttempts - k
  {
    if abortAt.Some? && abortAt.value < k {
      RunningAt(replies, abortAt, k, abortAt.value);
    }
    if k < maxAttempts && !Aborted(abortAt, k) {
      if replies(k).Resolved? && replies(k).result.status == InProgress {
        PollFromAborts(k + 1, maxAttempts, replies, abortAt);
      } else if abortAt.Some? && Running(replies, abortAt, abortAt.value) {
        RunningAt(replies, abortAt, abortAt.value, k);
      }
    }
  }

  /** A poll is aborted exactly when the abort comes within the budget and every turn before it got `in_progress`. */
  lemma PollAbortsIff(replies: nat -> Reply, abortAt: Option<nat>, maxAttempts: int)
    ensures PollFrom(0, maxAttempts, replies, abortAt) == Failure(AbortError) <==>
      abortAt.Some? && abortAt.value < maxAttempts && Running(replies, abortAt, abortAt.value)
  {
    PollFromAborts(0, maxAttempts, replies, abortAt);
  }

  /** An abort raised at turn n allows no run of more than n turns, so `Poll` then makes at most n callbacks. */
  lemma AbortStopsCallbacks(replies: nat -> Reply, abortAt: nat)
    ensures forall n: nat :: Running(replies, Some(abortAt), n) ==> n <= abortAt
  {
    forall n: nat | Running(replies, Some(abortAt), n) ensures n <= abortAt {
      if n > abortAt {
        RunningAt(replies, Some(abortAt), n, abortAt);
      }
    }
  }
}
