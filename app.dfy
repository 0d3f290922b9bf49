/**
 * The web tool's `generate_minutes_with_gemini`: save the uploaded audio to a
 * local temporary file, upload it, wait until the service has processed it,
 * transcribe it (stage 1), turn the transcript into structured minutes
 * (stage 2), and delete the temporary file on the success path and on the
 * exception path alike. Also the name offered for downloading the minutes.
 */
module App {
  import opened Service
  import opened Polling
  import opened Retry

  /** The local copy of an uploaded file `name`: the name behind a fixed prefix. */
  function TempPath(name: string): (p: string)
    ensures |p| == |name| + 5 && p[..5] == "temp_" && p[5..] == name
  {
    "temp_" + name
  }

  /** Stage 1 instructions (transcribe, identify speakers, extract decisions and to-dos); wording not modelled. */
  const FirstPrompt: string := "[transcription instructions]"

  const SecondPromptHead: string := "[minutes-writing instructions; transcript follows]\n"
  const SecondPromptTail: string := "\n[required minutes layout]"

  /** `s` occurs in `text` starting at index `k`. */
  predicate OccursAt(text: string, s: string, k: nat)
  {
    k + |s| <= |text| && text[k..k + |s|] == s
  }

  predicate Contains(text: string, s: string)
  {
    exists k: nat | k <= |text| :: OccursAt(text, s, k)
  }

  /** The stage 2 prompt: the stage 1 text interpolated between fixed instructions. */
  function SecondPrompt(transcript: string): (p: string)
    ensures Contains(p, transcript)
  {
    var p := SecondPromptHead + transcript + SecondPromptTail;
    assert OccursAt(p, transcript, |SecondPromptHead|);
    p
  }

  /** Stage 1 sends the uploaded audio and the transcription prompt. */
  const FirstRequest: Request := [AudioFile, Prompt(FirstPrompt)]

  /** Stage 2 sends only text: the prompt that embeds the transcript, not the audio. */
  function SecondRequest(transcript: string): Request
  {
    [Prompt(SecondPrompt(transcript))]
  }

  /**
   * The result of the work inside the `try` block up to the success-path
   * deletion: the stage 2 response whose text is read last (`None` when stage 2
   * made no attempt), or the exception raised so far; and the remote events.
   */
  datatype Run = Run(result: Result<Option<Response>>, events: seq<Event>)

  /** Specification of stage 2 on the stage 1 text. */
  function StructureSpec(transcript: string, maxRetries: int, secondReplies: seq<Reply>): Run
    requires |secondReplies| >= Attempts(maxRetries)
  {
    var second := RetrySpec(Second, maxRetries, secondReplies);
    var events := Tried(SecondRequest(transcript), second.calls);
    match second.outcome
    case Answered(response) => Run(Ok(Some(response)), events)
    case NotAttempted => Run(Ok(None), events)
    case Exhausted(m) => Run(Err(RetriesExhausted(m)), events)
  }

  /**
   * Specification of the two stages. Building the stage 2 prompt reads the
   * stage 1 text, which raises when stage 1 made no attempt or its response has
   * no readable text; stage 2 runs only on that text.
   */
  function StagesSpec(maxRetries: int, firstReplies: seq<Reply>, secondReplies: seq<Reply>): Run
    requires |firstReplies| >= Attempts(maxRetries) && |secondReplies| >= Attempts(maxRetries)
  {
    var first := RetrySpec(First, maxRetries, firstReplies);
    var transcribed := Tried(FirstRequest, first.calls);
    match first.outcome
    case NotAttempted => Run(Err(NoResult), transcribed)
    case Exhausted(m) => Run(Err(RetriesExhausted(m)), transcribed)
    case Answered(response) =>
      var transcript := ReadText(response);
      if transcript.Err? then Run(Err(transcript.error), transcribed)
      else
        var rest := StructureSpec(transcript.value, maxRetries, secondReplies);
        Run(rest.result, transcribed + rest.events)
  }

  /**
   * Specification of the work between the upload and the cleanup: poll, then
   * the two stages once the file is ready.
   */
  function MinutesSpec(maxRetries: int, upload: UploadReply, refetches: seq<FileState>,
                       firstReplies: seq<Reply>, secondReplies: seq<Reply>): Run
    requires |refetches| >= MaxPolls
    requires |firstReplies| >= Attempts(maxRetries) && |secondReplies| >= Attempts(maxRetries)
  {
    if upload.Rejected? then Run(Err(UploadRaised(upload.detail)), [])
    else
      var poll := PollSpec(upload.state, refetches);
      var polled := Cycles(poll.cycles);
      match poll.outcome
      case TimedOut => Run(Err(Timeout), polled)
      case FailedState => Run(Err(ProcessingFailed), polled)
      case Ready(_) =>
        var rest := StagesSpec(maxRetries, firstReplies, secondReplies);
        Run(rest.result, polled + rest.events)
  }

  /**
   * What the function returns or raises once the work is done: an exception
   * from the work is re-raised; otherwise, after the success-path deletion, the
   * status display may raise, and then reading the stage 2 text may raise.
   */
  function Finish(work: Result<Option<Response>>, statusFault: bool): (r: Result<string>)
    ensures r.Ok? <==> !statusFault && work.Ok? && work.value.Some? && work.value.value.WithText?
    ensures r.Ok? ==> r.value == work.value.value.text
    ensures work.Err? ==> r == Err(work.error)
  {
    if work.Err? then Err(work.error)
    else if statusFault then Err(StatusDisplayRaised)
    else if work.value.None? then Err(NoResult)
    else ReadText(work.value.value)
  }

  /** Upload, poll and the two stages, as written; exceptions become `Err`. */
  method UploadAndGenerate(temp: string, maxRetries: int, upload: UploadReply, refetches: seq<FileState>,
                           firstReplies: seq<Reply>, secondReplies: seq<Reply>)
    returns (result: Result<Option<Response>>, trace: seq<Event>)
    requires |refetches| >= MaxPolls
    requires |firstReplies| >= Attempts(maxRetries) && |secondReplies| >= Attempts(maxRetries)
    ensures result == MinutesSpec(maxRetries, upload, refetches, firstReplies, secondReplies).result
    ensures trace == [Upload(temp)] + MinutesSpec(maxRetries, upload, refetches, firstReplies, secondReplies).events
  {
    trace := [Upload(temp)];
    if upload.Rejected? {
      result := Err(UploadRaised(upload.detail));
      return;
    }
    var polled, pollTrace := AwaitProcessing(upload.state, refetches);
    trace := trace + pollTrace;
    match polled
    case TimedOut =>
      result := Err(Timeout);
    case FailedState =>
      result := Err(ProcessingFailed);
    case Ready(_) =>
      var stagesTrace;
      result, stagesTrace := TranscribeAndStructure(maxRetries, firstReplies, secondReplies);
      trace := trace + stagesTrace;
  }

  /** The two stages once the file is ready: stage 2 runs on the readable text of stage 1. */
  method TranscribeAndStructure(maxRetries: int, firstReplies: seq<Reply>, secondReplies: seq<Reply>)
    returns (result: Result<Option<Response>>, trace: seq<Event>)
    requires |firstReplies| >= Attempts(maxRetries) && |secondReplies| >= Attempts(maxRetries)
    ensures result == StagesSpec(maxRetries, firstReplies, secondReplies).result
    ensures trace == StagesSpec(maxRetries, firstReplies, secondReplies).events
  {
    var first;
    first, trace := GenerateWithRetry(First, FirstRequest, maxRetries, firstReplies);
    match first
    case NotAttempted =>
      result := Err(NoResult);
    case Exhausted(m) =>
      result := Err(RetriesExhausted(m));
    case Answered(response) =>
      var transcript := ReadText(response);
      if transcript.Err? {
        result := Err(transcript.error);
        return;
      }
      var second, secondTrace := GenerateWithRetry(Second, SecondRequest(transcript.value), maxRetries, secondReplies);
      trace := trace + secondTrace;
      match second
      case NotAttempted =>
        result := Ok(None);
      case Exhausted(m) =>
        result := Err(RetriesExhausted(m));
      case Answered(final) =>
        result := Ok(Some(final));
  }

  /** Delete `path` if it exists. */
  method RemoveIfExists(files: set<string>, path: string) returns (rest: set<string>, events: seq<Event>)
    ensures rest == files - {path}
    ensures events == if path in files then [Remove(path)] else []
  {
    rest := files;
    events := [];
    if path in files {
      rest := files - {path};
      events := [Remove(path)];
    }
  }

  /**
   * The end of the `try` block and its exception handler. After a successful
   * work the temporary file is deleted if it exists, a status is displayed
   * (raising when `statusFault` holds) and the stage 2 text is read (which may
   * raise). Any exception, from the work or from those steps, is handled by
   * deleting the file if it (still) exists and re-raising.
   */
  method CleanUp(files: set<string>, temp: string, work: Result<Option<Response>>, statusFault: bool)
    returns (result: Result<string>, filesOut: set<string>, removed: seq<Event>)
    requires temp in files
    ensures filesOut == files - {temp}
    ensures removed == [Remove(temp)]
    ensures result == Finish(work, statusFault)
  {
    if work.Ok? {
      filesOut, removed := RemoveIfExists(files, temp);
      if statusFault {
        result := Err(StatusDisplayRaised);
      } else if work.value.None? {
        result := Err(NoResult);
      } else {
        result := ReadText(work.value.value);
      }
      if result.Ok? {
        return;
      }
    } else {
      result := Err(work.error);
      filesOut, removed := files, [];
    }
    var again;
    filesOut, again := RemoveIfExists(filesOut, temp);
    removed := removed + again;
  }

  /**
   * The whole function. `files` are the local paths that exist before the call;
   * `statusFault` says whether the status display raised after the success-path
   * deletion, sending control to the exception handler.
   */
  method GenerateMinutes(name: string, maxRetries: int, files: set<string>, upload: UploadReply,
                         refetches: seq<FileState>, firstReplies: seq<Reply>, secondReplies: seq<Reply>,
                         statusFault: bool)
    returns (result: Result<string>, filesOut: set<string>, trace: seq<Event>)
    requires |refetches| >= MaxPolls
    requires |firstReplies| >= Attempts(maxRetries) && |secondReplies| >= Attempts(maxRetries)
    ensures filesOut == files - {TempPath(name)}
    ensures |trace| >= 3 && trace[0] == SaveTemp(TempPath(name)) && trace[1] == Upload(TempPath(name))
    ensures trace[|trace| - 1] == Remove(TempPath(name))
    ensures multiset(trace)[Remove(TempPath(name))] == 1
    ensures trace[2..|trace| - 1] == MinutesSpec(maxRetries, upload, refetches, firstReplies, secondReplies).events
    ensures result == Finish(MinutesSpec(maxRetries, upload, refetches, firstReplies, secondReplies).result, statusFault)
  {
    ghost var spec := MinutesSpec(maxRetries, upload, refetches, firstReplies, secondReplies);
    var temp := TempPath(name);
    var saved := files + {temp};
    var work, remote := UploadAndGenerate(temp, maxRetries, upload, refetches, firstReplies, secondReplies);
    var removed;
    result, filesOut, removed := CleanUp(saved, temp, work, statusFault);
    trace := [SaveTemp(temp)] + remote + removed;
    EventsRemote(maxRetries, upload, refetches, firstReplies, secondReplies);
    RemovedOnceAtEnd(temp, spec.events, remote, removed);
  }

  /** A trace that saves and uploads `temp`, then works remotely, then deletes `temp`, deletes it once. */
  lemma RemovedOnceAtEnd(temp: string, events: seq<Event>, remote: seq<Event>, removed: seq<Event>)
    requires RemoteOnly(events)
    requires remote == [Upload(temp)] + events && removed == [Remove(temp)]
    ensures var t := [SaveTemp(temp)] + remote + removed;
      |t| >= 3 && t[0] == SaveTemp(temp) && t[1] == Upload(temp) && t[|t| - 1] == Remove(temp) &&
      t[2..|t| - 1] == events && multiset(t)[Remove(temp)] == 1
  {
    var t := [SaveTemp(temp)] + remote + removed;
    assert t == [SaveTemp(temp), Upload(temp)] + events + [Remove(temp)];
    assert t[2..|t| - 1] == events;
    assert Remove(temp) !in events;
    assert multiset(t) == multiset([SaveTemp(temp), Upload(temp)]) + multiset(events) + multiset([Remove(temp)]);
  }

  /** The work between upload and cleanup only calls the service and sleeps. */
  lemma EventsRemote(maxRetries: int, upload: UploadReply, refetches: seq<FileState>,
                     firstReplies: seq<Reply>, secondReplies: seq<Reply>)
    requires |refetches| >= MaxPolls
    requires |firstReplies| >= Attempts(maxRetries) && |secondReplies| >= Attempts(maxRetries)
    ensures RemoteOnly(MinutesSpec(maxRetries, upload, refetches, firstReplies, secondReplies).events)
  {
    if upload.Accepted? {
      var poll := PollSpec(upload.state, refetches);
      CyclesRemote(poll.cycles);
      var first := RetrySpec(First, maxRetries, firstReplies);
      TriedRemote(FirstRequest, first.calls);
      if first.outcome.Answered? && first.outcome.response.WithText? {
        TriedRemote(SecondRequest(first.outcome.response.text), RetrySpec(Second, maxRetries, secondReplies).calls);
      }
    }
  }

  /**
   * No generation call is made unless the upload succeeded and polling ended on
   * a usable state: a timeout, a FAILED file or a rejected upload stop the run
   * with the matching error before any model call.
   */
  lemma NoCallUnlessReady(maxRetries: int, upload: UploadReply, refetches: seq<FileState>,
                          firstReplies: seq<Reply>, secondReplies: seq<Reply>)
    requires |refetches| >= MaxPolls
    requires |firstReplies| >= Attempts(maxRetries) && |secondReplies| >= Attempts(maxRetries)
    requires !UploadReady(upload, refetches)
    ensures CallsOf(MinutesSpec(maxRetries, upload, refetches, firstReplies, secondReplies).events) == []
    ensures MinutesSpec(maxRetries, upload, refetches, firstReplies, secondReplies).result ==
      if upload.Rejected? then Err(UploadRaised(upload.detail))
      else if PollSpec(upload.state, refetches).outcome == TimedOut then Err(Timeout)
      else Err(ProcessingFailed)
  {
    if upload.Accepted? {
      CyclesRemote(PollSpec(upload.state, refetches).cycles);
    }
  }

  /**
   * When stage 1 exhausts its attempts, the run raises the stage 1 error with the
   * last exception, having made exactly `max_retries` stage 1 calls and no
   * stage 2 call.
   */
  lemma FirstStageExhaustedSkipsSecond(maxRetries: int, upload: UploadReply, refetches: seq<FileState>,
                                       firstReplies: seq<Reply>, secondReplies: seq<Reply>)
    requires |refetches| >= MaxPolls
    requires |firstReplies| >= Attempts(maxRetries) && |secondReplies| >= Attempts(maxRetries)
    requires UploadReady(upload, refetches) && maxRetries >= 1
    requires forall i :: 0 <= i < maxRetries ==> firstReplies[i].Raised?
    ensures MinutesSpec(maxRetries, upload, refetches, firstReplies, secondReplies).result ==
      Err(RetriesExhausted(ExhaustedMessage(First, firstReplies[maxRetries - 1].detail)))
    ensures CallsOf(MinutesSpec(maxRetries, upload, refetches, firstReplies, secondReplies).events) ==
      Repeat(FirstRequest, maxRetries)
  {
    var poll := PollSpec(upload.state, refetches);
    CyclesRemote(poll.cycles);
    ExhaustsAllAttempts(First, FirstRequest, maxRetries, firstReplies);
    TriedShape(FirstRequest, maxRetries);
    CallsOfAppend(Cycles(poll.cycles), Tried(FirstRequest, maxRetries));
  }

  /**
   * When stage 1's response has readable text `t`, every later call is a stage 2
   * call whose prompt contains `t` verbatim and which carries no audio; the
   * work ends with stage 2's response, or stage 2's exhaustion error, never with
   * stage 1's text.
   */
  lemma SecondStageUsesTranscript(maxRetries: int, upload: UploadReply, refetches: seq<FileState>,
                                  firstReplies: seq<Reply>, secondReplies: seq<Reply>, t: string)
    requires |refetches| >= MaxPolls
    requires |firstReplies| >= Attempts(maxRetries) && |secondReplies| >= Attempts(maxRetries)
    requires UploadReady(upload, refetches)
    requires RetrySpec(First, maxRetries, firstReplies).outcome == Answered(WithText(t))
    ensures var calls := CallsOf(MinutesSpec(maxRetries, upload, refetches, firstReplies, secondReplies).events);
      var n1 := RetrySpec(First, maxRetries, firstReplies).calls;
      |calls| == n1 + RetrySpec(Second, maxRetries, secondReplies).calls &&
      (forall i :: 0 <= i < n1 ==> calls[i] == FirstRequest) &&
      (forall i :: n1 <= i < |calls| ==>
         AudioFile !in calls[i] && Prompt(SecondPrompt(t)) in calls[i] && Contains(SecondPrompt(t), t))
    ensures var result := MinutesSpec(maxRetries, upload, refetches, firstReplies, secondReplies).result;
      var second := RetrySpec(Second, maxRetries, secondReplies).outcome;
      (result.Ok? <==> !second.Exhausted?) &&
      (second.Answered? ==> result == Ok(Some(second.response))) &&
      (second.NotAttempted? ==> result == Ok(None)) &&
      (second.Exhausted? ==> result == Err(RetriesExhausted(second.message)))
  {
    var stages := StagesSpec(maxRetries, firstReplies, secondReplies);
    var polled := Cycles(PollSpec(upload.state, refetches).cycles);
    assert MinutesSpec(maxRetries, upload, refetches, firstReplies, secondReplies) ==
      Run(stages.result, polled + stages.events);
    CyclesRemote(PollSpec(upload.state, refetches).cycles);
    CallsOfAppend(polled, stages.events);
    StagesCalls(maxRetries, firstReplies, secondReplies, t);
  }

  /** The events and result of the two stages after stage 1 ends with readable text `t`. */
  lemma StagesCalls(maxRetries: int, firstReplies: seq<Reply>, secondReplies: seq<Reply>, t: string)
    requires |firstReplies| >= Attempts(maxRetries) && |secondReplies| >= Attempts(maxRetries)
    requires RetrySpec(First, maxRetries, firstReplies).outcome == Answered(WithText(t))
    ensures CallsOf(StagesSpec(maxRetries, firstReplies, secondReplies).events) ==
      Repeat(FirstRequest, RetrySpec(First, maxRetries, firstReplies).calls) +
      Repeat(SecondRequest(t), RetrySpec(Second, maxRetries, secondReplies).calls)
    ensures StagesSpec(maxRetries, firstReplies, secondReplies).result ==
      StructureSpec(t, maxRetries, secondReplies).result
  {
    var first := RetrySpec(First, maxRetries, firstReplies);
    var second := RetrySpec(Second, maxRetries, secondReplies);
    assert StagesSpec(maxRetries, firstReplies, secondReplies).events ==
      Tried(FirstRequest, first.calls) + Tried(SecondRequest(t), second.calls);
    TriedShape(FirstRequest, first.calls);
    TriedShape(SecondRequest(t), second.calls);
    CallsOfAppend(Tried(FirstRequest, first.calls), Tried(SecondRequest(t), second.calls));
  }

  /**
   * A first stage 1 response whose text cannot be read ends the loop at once:
   * the run has made that one call, with no backoff sleep and no stage 2 call,
   * and raises the unlabelled exception from reading the text.
   */
  lemma FirstTextUnreadable(maxRetries: int, upload: UploadReply, refetches: seq<FileState>,
                            firstReplies: seq<Reply>, secondReplies: seq<Reply>, detail: string)
    requires |refetches| >= MaxPolls
    requires |firstReplies| >= Attempts(maxRetries) && |secondReplies| >= Attempts(maxRetries)
    requires UploadReady(upload, refetches) && maxRetries >= 1
    requires firstReplies[0] == Returned(TextRaises(detail))
    ensures MinutesSpec(maxRetries, upload, refetches, firstReplies, secondReplies) ==
      Run(Err(TextRaised(detail)), Cycles(PollSpec(upload.state, refetches).cycles) + [Generate(FirstRequest)])
  {
    StopsAtFirstSuccess(First, FirstRequest, maxRetries, firstReplies, 0);
    assert StagesSpec(maxRetries, firstReplies, secondReplies) ==
      Run(Err(TextRaised(detail)), [Generate(FirstRequest)]);
  }

  /**
   * A first stage 2 response whose text cannot be read ends stage 2 after one
   * call; the work hands that response on, and reading its text after the
   * success-path deletion raises the unlabelled exception.
   */
  lemma SecondTextUnreadable(maxRetries: int, upload: UploadReply, refetches: seq<FileState>,
                             firstReplies: seq<Reply>, secondReplies: seq<Reply>, t: string, detail: string)
    requires |refetches| >= MaxPolls
    requires |firstReplies| >= Attempts(maxRetries) && |secondReplies| >= Attempts(maxRetries)
    requires UploadReady(upload, refetches) && maxRetries >= 1
    requires RetrySpec(First, maxRetries, firstReplies).outcome == Answered(WithText(t))
    requires secondReplies[0] == Returned(TextRaises(detail))
    ensures RetrySpec(Second, maxRetries, secondReplies).calls == 1
    ensures MinutesSpec(maxRetries, upload, refetches, firstReplies, secondReplies).result ==
      Ok(Some(TextRaises(detail)))
    ensures Finish(MinutesSpec(maxRetries, upload, refetches, firstReplies, secondReplies).result, false) ==
      Err(TextRaised(detail))
  {
    StopsAtFirstSuccess(Second, SecondRequest(t), maxRetries, secondReplies, 0);
    SecondStageUsesTranscript(maxRetries, upload, refetches, firstReplies, secondReplies, t);
  }

  /** Python's `name.split('.')[0]`: the part of `s` before its first '.'. */
  function BeforeFirstDot(s: string): (r: string)
    ensures r <= s
    ensures '.' !in r
    ensures r == s || s[|r|] == '.'
  {
    if s == [] || s[0] == '.' then [] else [s[0]] + BeforeFirstDot(s[1..])
  }

  /**
   * The name offered for downloading the minutes of upload `uploadName`: a fixed
   * prefix and suffix around the part of the upload name before its first '.'.
   */
  function DownloadName(uploadName: string): (d: string)
    ensures |d| >= 7 && d[..4] == "議事録_" && d[|d| - 3..] == ".md"
    ensures var stem := d[4..|d| - 3];
      stem <= uploadName && '.' !in stem && (stem == uploadName || uploadName[|stem|] == '.')
  {
    "議事録_" + BeforeFirstDot(uploadName) + ".md"
  }

  /**
   * The download name keeps exactly the part of the upload name before its
   * first '.': whatever follows (the extension, or more dotted parts) is dropped.
   */
  lemma DownloadNameDropsExtension(stem: string, rest: string)
    requires '.' !in stem
    ensures DownloadName(stem + "." + rest) == "議事録_" + stem + ".md"
    ensures DownloadName(stem) == "議事録_" + stem + ".md"
  {
    StemBeforeDot(stem, rest);
  }

  lemma {:induction false} StemBeforeDot(stem: string, rest: string)
    requires '.' !in stem
    ensures BeforeFirstDot(stem + "." + rest) == stem
    ensures BeforeFirstDot(stem) == stem
  {
    if stem != [] {
      assert (stem + "." + rest)[1..] == stem[1..] + "." + rest;
      StemBeforeDot(stem[1..], rest);
    }
  }

  /** Different upload names get different temporary files; equal names share one. */
  lemma TempPathInjective(a: string, b: string)
    ensures TempPath(a) == TempPath(b) <==> a == b
  {
    if TempPath(a) == TempPath(b) {
      assert a == TempPath(a)[5..];
      assert b == TempPath(b)[5..];
    }
  }
}
