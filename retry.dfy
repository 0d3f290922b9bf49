/**
 * Bounded retry with linear backoff around one generation call: up to
 * `max_retries` attempts, stopping at the first that succeeds; after a failed
 * attempt `i` that is not the last, a sleep of `(i + 1) * 5`; after the last
 * failed attempt, an error that names the stage and carries the last exception.
 *
 * The call sites differ in what their `try` block covers. The two stages of
 * the web tool only make the call there, so any returned response ends the
 * loop and its text is read later. The command-line tool also reads the text
 * there, so a response whose text raises is a failed attempt.
 *
 * The service's answers to successive attempts are the `replies`.
 */
module Retry {
  import opened Service

  /** The call site: the transcription or structuring stage, or the single stage of the command-line tool. */
  datatype Stage = First | Second | Only

  /** How a stage's loop ends. */
  datatype StageOutcome =
    | Answered(response: Response) // an attempt's `try` block completed with this response
    | Exhausted(message: string)   // every attempt raised; the message of the error raised
    | NotAttempted                 // `range(max_retries)` was empty

  /** How one pass through a stage's `try` block ends. */
  datatype AttemptEnd = Stop(response: Response) | Fail(detail: string)

  /** What a stage does: how it ends and how many generation calls it made. */
  datatype RetryRun = RetryRun(outcome: StageOutcome, calls: nat)

  /** The stage label that opens the error message of an exhausted stage. */
  function StagePrefix(stage: Stage): string
  {
    match stage
    case First => "第1段階で"
    case Second => "第2段階で"
    case Only => ""
  }

  const ExhaustedText: string := "最大リトライ回数に達しました: "

  /** The message raised when a stage has used all its attempts. */
  function ExhaustedMessage(stage: Stage, last: string): string
  {
    StagePrefix(stage) + ExhaustedText + last
  }

  /** The number of attempts `range(max_retries)` yields. */
  function Attempts(maxRetries: int): nat
  {
    if maxRetries < 0 then 0 else maxRetries
  }

  /** The sleep after failed attempt `attempt` (counted from 0). */
  function Backoff(attempt: nat): nat
  {
    (attempt + 1) * 5
  }

  /**
   * One attempt at `stage` given the service's reply. An exception from the call
   * is a failure everywhere. A returned response ends the loop, except in the
   * single stage, whose `try` block also reads the text: there a response whose
   * text raises is a failure carrying that exception.
   */
  function Attempt(stage: Stage, reply: Reply): (e: AttemptEnd)
    ensures stage == Only ==> (e.Stop? <==> Readable(reply))
    ensures stage != Only ==> (e.Stop? <==> reply.Returned?)
    ensures e.Stop? ==> reply == Returned(e.response)
    ensures reply.Raised? ==> e == Fail(reply.detail)
    ensures stage == Only && reply.Returned? && reply.response.TextRaises? ==> e == Fail(reply.response.detail)
  {
    match reply
    case Raised(detail) => Fail(detail)
    case Returned(response) =>
      if stage == Only && response.TextRaises? then Fail(response.detail) else Stop(response)
  }

  /** Index of the first attempt that ends the loop, or `|replies|` if there is none. */
  function FirstStop(stage: Stage, replies: seq<Reply>): (j: nat)
    ensures j <= |replies|
    ensures forall i :: 0 <= i < j ==> Attempt(stage, replies[i]).Fail?
    ensures j < |replies| ==> Attempt(stage, replies[j]).Stop?
  {
    if replies == [] || Attempt(stage, replies[0]).Stop? then 0
    else 1 + FirstStop(stage, replies[1..])
  }

  /** Specification of a stage: the attempts up to and including the first that ends the loop, within the budget. */
  function RetrySpec(stage: Stage, maxRetries: int, replies: seq<Reply>): RetryRun
    requires |replies| >= Attempts(maxRetries)
  {
    var n := Attempts(maxRetries);
    var j := FirstStop(stage, replies[..n]);
    if j < n then RetryRun(Answered(Attempt(stage, replies[j]).response), j + 1)
    else if n == 0 then RetryRun(NotAttempted, 0)
    else RetryRun(Exhausted(ExhaustedMessage(stage, Attempt(stage, replies[n - 1]).detail)), n)
  }

  /** The events of `calls` attempts of `request`, with the backoff sleeps between them. */
  function Tried(request: Request, calls: nat): seq<Event>
  {
    if calls == 0 then []
    else if calls == 1 then [Generate(request)]
    else Tried(request, calls - 1) + [Sleep(Backoff(calls - 2)), Generate(request)]
  }

  lemma FirstStopIs(stage: Stage, replies: seq<Reply>, j: nat)
    requires j <= |replies|
    requires forall i :: 0 <= i < j ==> Attempt(stage, replies[i]).Fail?
    requires j < |replies| ==> Attempt(stage, replies[j]).Stop?
    ensures FirstStop(stage, replies) == j
  {
  }

  /**
   * `calls` attempts send the same request `calls` times, sleep 5, 10, ... in
   * order between them, and end on a call, never on a sleep.
   */
  lemma {:induction false} TriedShape(request: Request, calls: nat)
    ensures CallsOf(Tried(request, calls)) == Repeat(request, calls)
    ensures |SleepsOf(Tried(request, calls))| == if calls == 0 then 0 else calls - 1
    ensures forall i :: 0 <= i < |SleepsOf(Tried(request, calls))| ==>
      SleepsOf(Tried(request, calls))[i] == (i + 1) * 5
    ensures calls > 0 ==> Tried(request, calls)[|Tried(request, calls)| - 1] == Generate(request)
    ensures |Tried(request, calls)| == if calls == 0 then 0 else 2 * calls - 1
    ensures forall i :: 0 <= i < |Tried(request, calls)| ==>
      Tried(request, calls)[i] == if i % 2 == 0 then Generate(request) else Sleep(Backoff(i / 2))
  {
    TriedLayout(request, calls);
    if calls == 1 {
      assert CallsOf([Generate(request)]) == [request] + CallsOf([]);
      assert SleepsOf([Generate(request)]) == SleepsOf([]);
    } else if calls > 1 {
      TriedShape(request, calls - 1);
      var step := [Sleep(Backoff(calls - 2)), Generate(request)];
      CallsOfAppend(Tried(request, calls - 1), step);
      SleepsOfAppend(Tried(request, calls - 1), step);
      assert CallsOf(step) == CallsOf([Generate(request)]) == [request] + CallsOf([]);
      assert SleepsOf(step) == [Backoff(calls - 2)] + SleepsOf([Generate(request)]);
      assert SleepsOf([Generate(request)]) == SleepsOf([]);
      assert Repeat(request, calls) == Repeat(request, calls - 1) + [request];
    }
  }

  /** Calls sit at the even positions; the sleep after failed attempt `i` sits between calls `i` and `i + 1`. */
  lemma {:induction false} TriedLayout(request: Request, calls: nat)
    ensures |Tried(request, calls)| == if calls == 0 then 0 else 2 * calls - 1
    ensures forall i :: 0 <= i < |Tried(request, calls)| ==>
      Tried(request, calls)[i] == if i % 2 == 0 then Generate(request) else Sleep(Backoff(i / 2))
  {
    if calls > 1 {
      TriedLayout(request, calls - 1);
      var t := Tried(request, calls);
      var m := 2 * calls - 3;
      assert t == Tried(request, calls - 1) + [Sleep(Backoff(calls - 2)), Generate(request)];
      assert t[m] == Sleep(Backoff(m / 2));
      assert t[m + 1] == Generate(request);
    }
  }

  /** Stage attempts only make generation calls and sleep: no local file is touched. */
  lemma {:induction false} TriedRemote(request: Request, calls: nat)
    ensures forall e :: e in Tried(request, calls) ==> e.Sleep? || e == Generate(request)
    ensures RemoteOnly(Tried(request, calls))
  {
    if calls > 1 {
      TriedRemote(request, calls - 1);
    }
  }

  /** The loop as written: `attempt` counts up, a success leaves the loop, the last failure raises. */
  method GenerateWithRetry(stage: Stage, request: Request, maxRetries: int, replies: seq<Reply>)
    returns (outcome: StageOutcome, trace: seq<Event>)
    requires |replies| >= Attempts(maxRetries)
    ensures outcome == RetrySpec(stage, maxRetries, replies).outcome
    ensures trace == Tried(request, RetrySpec(stage, maxRetries, replies).calls)
  {
    ghost var n := Attempts(maxRetries);
    outcome := NotAttempted;
    trace := [];
    var attempt: nat := 0;
    while attempt < maxRetries
      invariant attempt <= n
      invariant attempt > 0 ==> attempt < maxRetries
      invariant forall i :: 0 <= i < attempt ==> Attempt(stage, replies[i]).Fail?
      invariant attempt == 0 ==> trace == []
      invariant attempt > 0 ==> trace == Tried(request, attempt) + [Sleep(Backoff(attempt - 1))]
      decreases n - attempt
    {
      TriedStep(request, attempt, trace);
      trace := trace + [Generate(request)];
      var pass := Attempt(stage, replies[attempt]);
      if pass.Stop? {
        FirstStopIs(stage, replies[..n], attempt);
        outcome := Answered(pass.response);
        return;
      }
      if attempt < maxRetries - 1 {
        trace := trace + [Sleep(Backoff(attempt))];
      } else {
        FirstStopIs(stage, replies[..n], n);
        outcome := Exhausted(ExhaustedMessage(stage, pass.detail));
        return;
      }
      attempt := attempt + 1;
    }
    FirstStopIs(stage, replies[..n], 0);
  }

  /** One more call extends the events of the earlier attempts and the sleep after them. */
  lemma TriedStep(request: Request, attempt: nat, trace: seq<Event>)
    requires attempt == 0 ==> trace == []
    requires attempt > 0 ==> trace == Tried(request, attempt) + [Sleep(Backoff(attempt - 1))]
    ensures trace + [Generate(request)] == Tried(request, attempt + 1)
  {
    if attempt > 0 {
      assert Tried(request, attempt + 1) ==
        Tried(request, attempt) + [Sleep(Backoff(attempt - 1)), Generate(request)];
    }
  }

  /**
   * With failures on attempts 1..j and a response on attempt j+1 within the
   * budget, the stage ends with that response after j+1 calls and sleeps
   * exactly 5, 10, ..., 5j in that order.
   */
  lemma StopsAtFirstSuccess(stage: Stage, request: Request, maxRetries: int, replies: seq<Reply>, j: nat)
    requires |replies| >= Attempts(maxRetries) && j < maxRetries
    requires forall i :: 0 <= i < j ==> Attempt(stage, replies[i]).Fail?
    requires Attempt(stage, replies[j]).Stop?
    ensures RetrySpec(stage, maxRetries, replies) == RetryRun(Answered(replies[j].response), j + 1)
    ensures var sleeps := SleepsOf(Tried(request, j + 1));
      |sleeps| == j && forall i :: 0 <= i < j ==> sleeps[i] == 5 * (i + 1)
  {
    FirstStopIs(stage, replies[..Attempts(maxRetries)], j);
    TriedShape(request, j + 1);
  }

  /**
   * When every attempt fails, the stage makes exactly `max_retries` calls, sleeps
   * between them but not after the last, and raises the stage-labelled error
   * carrying the last exception.
   */
  lemma ExhaustsAllAttempts(stage: Stage, request: Request, maxRetries: int, replies: seq<Reply>)
    requires maxRetries >= 1 && |replies| >= maxRetries
    requires forall i :: 0 <= i < maxRetries ==> Attempt(stage, replies[i]).Fail?
    ensures RetrySpec(stage, maxRetries, replies) ==
      RetryRun(Exhausted(ExhaustedMessage(stage, Attempt(stage, replies[maxRetries - 1]).detail)), maxRetries)
    ensures |CallsOf(Tried(request, maxRetries))| == maxRetries
    ensures |SleepsOf(Tried(request, maxRetries))| == maxRetries - 1
    ensures Tried(request, maxRetries)[|Tried(request, maxRetries)| - 1] == Generate(request)
  {
    FirstStopIs(stage, replies[..maxRetries], maxRetries);
    TriedShape(request, maxRetries);
  }

  /**
   * A stage never makes more than `max_retries` calls; it ends with a response
   * exactly when some attempt within the budget does, and with a non-positive
   * budget it makes no call at all.
   */
  lemma AttemptsBounded(stage: Stage, maxRetries: int, replies: seq<Reply>)
    requires |replies| >= Attempts(maxRetries)
    ensures RetrySpec(stage, maxRetries, replies).calls <= Attempts(maxRetries)
    ensures RetrySpec(stage, maxRetries, replies).outcome.Answered? <==>
      exists i :: 0 <= i < maxRetries && Attempt(stage, replies[i]).Stop?
    ensures RetrySpec(stage, maxRetries, replies).outcome.NotAttempted? <==> maxRetries <= 0
    ensures RetrySpec(stage, maxRetries, replies).outcome.NotAttempted? ==>
      RetrySpec(stage, maxRetries, replies).calls == 0
    ensures RetrySpec(stage, maxRetries, replies).calls == 0 <==> maxRetries <= 0
  {
    var n := Attempts(maxRetries);
    var j := FirstStop(stage, replies[..n]);
    if j < n {
      assert replies[..n][j] == replies[j];
    } else {
      forall i | 0 <= i < maxRetries
        ensures Attempt(stage, replies[i]).Fail?
      {
        assert replies[..n][i] == replies[i];
      }
    }
  }

  /** The error message of an exhausted stage tells which stage it was and what the last exception was. */
  lemma ExhaustedMessageIdentifiesStage(s1: Stage, last1: string, s2: Stage, last2: string)
    requires ExhaustedMessage(s1, last1) == ExhaustedMessage(s2, last2)
    ensures s1 == s2 && last1 == last2
  {
    MessageHead(s1, last1);
    MessageHead(s2, last2);
    var k := |StagePrefix(s1) + ExhaustedText|;
    assert last1 == ExhaustedMessage(s1, last1)[k..];
    assert last2 == ExhaustedMessage(s2, last2)[k..];
  }

  /** The first characters of an exhaustion message: the stage label, or the bare text for the single stage. */
  lemma MessageHead(stage: Stage, last: string)
    ensures |ExhaustedMessage(stage, last)| >= 2
    ensures ExhaustedMessage(stage, last)[0] == if stage == Only then '最' else '第'
    ensures ExhaustedMessage(stage, last)[1] ==
      match stage
      case First => '1'
      case Second => '2'
      case Only => '大'
  {
    var m := ExhaustedMessage(stage, last);
    assert m == StagePrefix(stage) + (ExhaustedText + last);
  }
}
