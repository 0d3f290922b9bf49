/**
 * The command-line tool's `generate_minutes_with_gemini`: upload the file at
 * the caller's path as it is, wait until the service has processed it, and
 * make one generation call (with retries) that writes the minutes directly
 * from the audio. No local file is created or deleted.
 */
module Cli {
  import opened Service
  import opened Polling
  import opened Retry

  /** The minutes-writing instructions; wording not modelled. */
  const MinutesPrompt: string := "[minutes-writing instructions]"

  /** Every call sends the uploaded audio and the one prompt. */
  const MinutesRequest: Request := [AudioFile, Prompt(MinutesPrompt)]

  /** The function's result (`None` when no attempt was made) and the remote events after the upload. */
  datatype Run = Run(result: Result<Option<string>>, events: seq<Event>)

  /** Specification of the function: poll, then a single retried stage. */
  function MinutesSpec(maxRetries: int, upload: UploadReply, refetches: seq<FileState>, replies: seq<Reply>): Run
    requires |refetches| >= MaxPolls && |replies| >= Attempts(maxRetries)
  {
    if upload.Rejected? then Run(Err(UploadRaised(upload.detail)), [])
    else
      var poll := PollSpec(upload.state, refetches);
      var polled := Cycles(poll.cycles);
      match poll.outcome
      case TimedOut => Run(Err(Timeout), polled)
      case FailedState => Run(Err(ProcessingFailed), polled)
      case Ready(_) =>
        var stage := RetrySpec(Only, maxRetries, replies);
        var events := polled + Tried(MinutesRequest, stage.calls);
        match stage.outcome
        case Answered(response) =>
          var minutes := ReadText(response);
          Run(if minutes.Ok? then Ok(Some(minutes.value)) else Err(minutes.error), events)
        case Exhausted(m) => Run(Err(RetriesExhausted(m)), events)
        case NotAttempted => Run(Ok(None), events)
  }

  /** The function as written; the loop's early `return` ends the retry method. */
  method GenerateMinutes(audioPath: string, maxRetries: int, upload: UploadReply,
                         refetches: seq<FileState>, replies: seq<Reply>)
    returns (result: Result<Option<string>>, trace: seq<Event>)
    requires |refetches| >= MaxPolls && |replies| >= Attempts(maxRetries)
    ensures result == MinutesSpec(maxRetries, upload, refetches, replies).result
    ensures trace == [Upload(audioPath)] + MinutesSpec(maxRetries, upload, refetches, replies).events
    ensures forall e :: e in trace ==> !e.SaveTemp? && !e.Remove?
  {
    trace := [Upload(audioPath)];
    if upload.Rejected? {
      result := Err(UploadRaised(upload.detail));
      return;
    }
    var polled, pollTrace := AwaitProcessing(upload.state, refetches);
    CyclesRemote(PollSpec(upload.state, refetches).cycles);
    trace := trace + pollTrace;
    match polled
    case TimedOut =>
      result := Err(Timeout);
    case FailedState =>
      result := Err(ProcessingFailed);
    case Ready(_) =>
      var outcome, stageTrace := GenerateWithRetry(Only, MinutesRequest, maxRetries, replies);
      TriedRemote(MinutesRequest, RetrySpec(Only, maxRetries, replies).calls);
      trace := trace + stageTrace;
      match outcome
      case Answered(response) =>
        // the loop only ends on a response whose text was read without raising
        result := Ok(Some(response.text));
      case Exhausted(m) =>
        result := Err(RetriesExhausted(m));
      case NotAttempted =>
        result := Ok(None);
  }

  /**
   * No generation call is made unless the upload succeeded and polling ended on
   * a usable state; a timeout or a FAILED file raises before any attempt.
   */
  lemma NoCallUnlessReady(maxRetries: int, upload: UploadReply, refetches: seq<FileState>, replies: seq<Reply>)
    requires |refetches| >= MaxPolls && |replies| >= Attempts(maxRetries)
    requires !UploadReady(upload, refetches)
    ensures CallsOf(MinutesSpec(maxRetries, upload, refetches, replies).events) == []
    ensures MinutesSpec(maxRetries, upload, refetches, replies).result ==
      if upload.Rejected? then Err(UploadRaised(upload.detail))
      else if PollSpec(upload.state, refetches).outcome == TimedOut then Err(Timeout)
      else Err(ProcessingFailed)
  {
    if upload.Accepted? {
      CyclesRemote(PollSpec(upload.state, refetches).cycles);
    }
  }

  /**
   * Once the file is ready, the function makes at most `max_retries` calls, each
   * with the audio and the one prompt. It returns the text of the first response
   * whose text can be read, and only that text: a response whose text raises is
   * a failed attempt and is retried. When no attempt gives readable text it
   * raises the unlabelled exhaustion error with the last exception; with
   * `max_retries <= 0` it makes no call and returns None.
   */
  lemma SingleStage(maxRetries: int, upload: UploadReply, refetches: seq<FileState>, replies: seq<Reply>)
    requires |refetches| >= MaxPolls && |replies| >= Attempts(maxRetries)
    requires UploadReady(upload, refetches)
    ensures var calls := CallsOf(MinutesSpec(maxRetries, upload, refetches, replies).events);
      |calls| <= Attempts(maxRetries) && forall r :: r in calls ==> r == MinutesRequest
    ensures var result := MinutesSpec(maxRetries, upload, refetches, replies).result;
      result.Ok? && result.value.Some? ==>
        exists j :: 0 <= j < maxRetries && replies[j] == Returned(WithText(result.value.value)) &&
          forall i :: 0 <= i < j ==> !Readable(replies[i])
    ensures forall j :: 0 <= j < maxRetries && (forall i :: 0 <= i < j ==> !Readable(replies[i])) && Readable(replies[j]) ==>
      MinutesSpec(maxRetries, upload, refetches, replies).result == Ok(Some(replies[j].response.text))
    ensures maxRetries >= 1 && (forall i :: 0 <= i < maxRetries ==> !Readable(replies[i])) ==>
      MinutesSpec(maxRetries, upload, refetches, replies).result ==
        Err(RetriesExhausted(ExhaustedMessage(Only, Attempt(Only, replies[maxRetries - 1]).detail)))
    ensures maxRetries <= 0 ==>
      MinutesSpec(maxRetries, upload, refetches, replies) ==
        Run(Ok(None), Cycles(PollSpec(upload.state, refetches).cycles))
  {
    var poll := PollSpec(upload.state, refetches);
    var stage := RetrySpec(Only, maxRetries, replies);
    CyclesRemote(poll.cycles);
    TriedShape(MinutesRequest, stage.calls);
    CallsOfAppend(Cycles(poll.cycles), Tried(MinutesRequest, stage.calls));
    AttemptsBounded(Only, maxRetries, replies);
    if stage.outcome.Answered? {
      var n := Attempts(maxRetries);
      var j := FirstStop(Only, replies[..n]);
      assert replies[..n][j] == replies[j];
      assert forall i :: 0 <= i < j ==> replies[..n][i] == replies[i];
    }
    forall j | 0 <= j < maxRetries && (forall i :: 0 <= i < j ==> !Readable(replies[i])) && Readable(replies[j])
      ensures MinutesSpec(maxRetries, upload, refetches, replies).result == Ok(Some(replies[j].response.text))
    {
      StopsAtFirstSuccess(Only, MinutesRequest, maxRetries, replies, j);
    }
    if maxRetries >= 1 && (forall i :: 0 <= i < maxRetries ==> !Readable(replies[i])) {
      ExhaustsAllAttempts(Only, MinutesRequest, maxRetries, replies);
    }
  }

  /**
   * A response whose text raises is retried: after such a first response and a
   * readable second one, the function returns the second text, having made two
   * calls with the 5-second backoff between them.
   */
  lemma UnreadableRetried(maxRetries: int, upload: UploadReply, refetches: seq<FileState>,
                          replies: seq<Reply>, detail: string, minutes: string)
    requires |refetches| >= MaxPolls && |replies| >= Attempts(maxRetries)
    requires UploadReady(upload, refetches) && maxRetries >= 2
    requires replies[0] == Returned(TextRaises(detail)) && replies[1] == Returned(WithText(minutes))
    ensures MinutesSpec(maxRetries, upload, refetches, replies) ==
      Run(Ok(Some(minutes)), Cycles(PollSpec(upload.state, refetches).cycles) +
        [Generate(MinutesRequest), Sleep(5), Generate(MinutesRequest)])
  {
    StopsAtFirstSuccess(Only, MinutesRequest, maxRetries, replies, 1);
    assert Tried(MinutesRequest, 2) == [Generate(MinutesRequest)] + [Sleep(Backoff(0)), Generate(MinutesRequest)];
  }

  /**
   * When no attempt gives readable text and the last response's text raises,
   * the exhaustion message carries that exception from reading the text.
   */
  lemma UnreadableExhausts(maxRetries: int, upload: UploadReply, refetches: seq<FileState>,
                           replies: seq<Reply>, detail: string)
    requires |refetches| >= MaxPolls && |replies| >= Attempts(maxRetries)
    requires UploadReady(upload, refetches) && maxRetries >= 1
    requires forall i :: 0 <= i < maxRetries ==> !Readable(replies[i])
    requires replies[maxRetries - 1] == Returned(TextRaises(detail))
    ensures MinutesSpec(maxRetries, upload, refetches, replies).result ==
      Err(RetriesExhausted(ExhaustedMessage(Only, detail)))
  {
    SingleStage(maxRetries, upload, refetches, replies);
  }
}
