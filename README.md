# AI minutes generator: verified model of the upload, polling and retry control flow

The system takes a recorded meeting and returns meeting minutes written by a
hosted generative-AI service (Gemini). It has two entry points with the same
core, `generate_minutes_with_gemini`:

- the web tool (`app.py`) saves the uploaded audio to a local file
  `temp_<name>`, uploads it, and waits while the service reports the file as
  PROCESSING. It then runs two stages, each retried: stage 1 (第1段階)
  transcribes the audio, and stage 2 (第2段階) turns that transcript into
  structured minutes. It deletes the local file on the success path and in
  the exception handler, each time only if the file exists. It also derives
  the download name `議事録_<stem>.md` from the upload name;
- the command-line tool (`main.py`) uploads the caller's file as it is, waits
  the same way, and runs a single retried stage. That stage writes the minutes
  directly from the audio and returns them. It returns `None` when no attempt
  is made.

This Dafny project models that control flow as a deterministic state machine:

- The remote service is an oracle. Its inputs are the upload's answer, the
  successive states returned by re-fetching the file, and the successive
  answers to generation attempts. An answer is an exception from the call, or
  a response object whose `.text` either gives the text or raises.
- Time is not modelled. Each `time.sleep(n)` becomes an event `Sleep(n)` in a
  trace of observable actions. The trace also records the local file write, the
  upload, each re-fetch, each generation request and each file deletion.
- The local filesystem is the set of existing paths, passed in and returned.
- Exceptions are the `Err` case of a `Result`.

Files: `service.dfy` (vocabulary, trace and errors), `polling.dfy` (the wait
loop), `retry.dfy` (the retry loop), `app.dfy`
(the web tool's function and the download name), `cli.dfy` (the command-line
tool's function). Each loop is an imperative method proved equal to a
specification function (`PollSpec`, `RetrySpec`). The lemmas prove the
properties about those specification functions.

One retry method serves all three call sites, but the call sites differ in
what their `try` block covers, and `Retry.Attempt` states the difference:

- The two stages of the web tool only make the call inside the `try`. Any
  returned response ends the loop, and its text is read afterwards. Stage 1's
  text is read while building the stage 2 prompt (app.py:111), and stage 2's
  text after the success-path deletion (app.py:159). A response whose text
  raises therefore stops the stage after that call, with no backoff, and the
  exception carries no stage label.
- The command-line tool returns `result.text` inside the `try` (main.py:63).
  There a response whose text raises is a failed attempt: it is retried, and
  on the last attempt it feeds the exhaustion message.

The oracle sequences must hold at least as many answers as the loops can ask
for: 60 re-fetched states, since the wait loop never re-fetches more often,
and `max(0, max_retries)` answers per stage. With these lengths every possible
run is covered, and the source places no requirement on its callers.

The model follows the code as written in these places:

- Any state other than PROCESSING and FAILED counts as ready. That includes the
  service's unspecified state, not only the "ready" state. Only PROCESSING and
  FAILED are compared.
- The backoff is linear, `(attempt + 1) * 5`.
- The single-stage mode is a separate function in `main.py`, not a
  configuration of the two-stage pipeline. The model shares the poll and retry
  loops between the two and keeps two orchestration methods.
- In the web tool, `max_retries <= 0` means stage 1 makes no attempt. Reading
  the missing response then raises inside the `try`, which the model records as
  the error `NoResult`, with the usual cleanup. The command-line tool returns
  `None` in that case.
- In the web tool, the work is modelled as ending with the stage 2 response,
  not its text. The text is read in `App.CleanUp`, in the source's order: the
  deletion, then the status display, then the read.

## Model

| member | source | states |
|---|---|---|
| `Polling.AwaitProcessing` | app.py:51-62 | The wait loop ends with the outcome `PollSpec` gives: timed out, failed, or ready on the first non-PROCESSING state. It records exactly the `PollSpec` number of cycles, each a sleep of 5 followed by a re-fetch. |
| `Polling.SettlesAfter` | app.py:53-58 | Suppose the first state and the first k-1 re-fetches are PROCESSING and the k-th observed state is not (k ≤ 60). Then the loop runs exactly k cycles, `wait_time` ends at 5k, and the outcome is FAILED or ready on that state. |
| `Polling.WaitBounded` | app.py:53-55 | At most 60 cycles and at most 300 seconds of sleep. The loop times out exactly when the first state and all 60 re-fetches are PROCESSING, and it has then run all 60 cycles. |
| `Polling.Verdict` | app.py:61-62 | After the loop the stop state is never PROCESSING. FAILED is an error, and any other state is handed on as ready. |
| `Polling.CyclesSleep` | main.py:31-32 | Each cycle sleeps 5 seconds, so k cycles sleep [5, …, 5] and accumulate a wait of 5k. |
| `Polling.CyclesRemote` | main.py:27-34 | Polling only sleeps and re-fetches. It makes no generation call and touches no local file. |
| `Polling.LeadingProcessing` | main.py:27 | The number of leading PROCESSING states. Every state before it is PROCESSING and the state at it is not. |
| `Retry.Attempt` | main.py:60-65 | One pass through a stage's `try` block. A raising call is a failure with its exception everywhere. In the single stage, a response whose text raises is a failure carrying that exception. In the single stage, where the `try` block also reads `.text`, the loop ends exactly on a response with readable text. In the web tool's stages, where it does not (app.py:87-91), it ends on any returned response. |
| `Retry.GenerateWithRetry` | app.py:86-97 | The retry loop ends with the outcome `RetrySpec` gives: the response of the first attempt that ends the loop within `max_retries` attempts, or the stage-labelled error with the last exception, or no attempt. It emits exactly the `RetrySpec` number of calls and the backoff sleeps between them. |
| `Retry.StopsAtFirstSuccess` | app.py:138-148 | Suppose attempts 1..j fail and attempt j+1 ends the loop within the budget. Then the stage ends with that attempt's response after j+1 calls and sleeps exactly 5, 10, …, 5j, in order. |
| `Retry.ExhaustsAllAttempts` | app.py:145-150 | If every attempt fails, the stage makes exactly `max_retries` calls and `max_retries - 1` sleeps, with no sleep after the last call. It raises the stage-labelled message carrying the last attempt's exception. |
| `Retry.AttemptsBounded` | main.py:59-71 | A stage never makes more than `max_retries` calls. It ends with a response exactly when some attempt within the budget ends the loop. It makes no call exactly when `max_retries <= 0`, in both directions, and any positive budget gives at least one call. |
| `Retry.TriedShape` | app.py:92-95 | Over c calls, every call sends the same request, and the sleeps between calls are 5·(i+1) in order. The trace has 2c-1 events: calls at the even positions, and the sleep after failed attempt i between calls i and i+1. It never starts or ends with a sleep. |
| `Retry.TriedLayout` | app.py:86-95 | The events of c attempts alternate: position 2i is call i, and position 2i+1 is the sleep `(i + 1) * 5` after failed attempt i. There are 2c-1 events in all. |
| `Retry.TriedRemote` | main.py:59-69 | A stage only makes generation calls and sleeps. |
| `Retry.ExhaustedMessageIdentifiesStage` | app.py:97 | Equal exhaustion messages have the same stage (第1段階, 第2段階, or the unlabelled single stage) and the same last exception. The message therefore identifies the stage that ran out of attempts. |
| `Service.ReadText` | main.py:63 | Reading `.text` gives the text exactly when the response has readable text. Otherwise it raises that response's exception. |
| `App.TempPath` | app.py:41 | The temporary path is `temp_` followed by the whole upload name. |
| `App.TempPathInjective` | app.py:41 | Two uploads get the same temporary path exactly when their names are equal. |
| `App.SecondPrompt` | app.py:106-111 | The stage 2 prompt contains the stage 1 text verbatim. |
| `App.UploadAndGenerate` | app.py:45-65 | Upload, poll and the two stages end with the result and the remote events of `MinutesSpec`. A rejected upload, a timeout or a FAILED file ends the work before either stage. |
| `App.TranscribeAndStructure` | app.py:67-150 | The two stages end with the result and events of `StagesSpec`. Stage 2 runs only on stage 1's readable text. The work ends with stage 2's response, or `None` if stage 2 made no attempt, or the error raised so far. |
| `App.RemoveIfExists` | app.py:153-154 | The path is gone afterwards and nothing else changes. It is deleted, with one event, exactly when it existed. |
| `App.Finish` | app.py:152-165 | The function returns text exactly when the work ended with a readable stage 2 response and the status display did not raise. The text is that response's text. An error from the work is re-raised unchanged. |
| `App.CleanUp` | app.py:152-165 | Whether the work succeeded or raised, the temporary file is deleted exactly once and no other path changes. The result is `Finish`'s. The body follows the source's order: the deletion, then the status display, then reading the stage 2 text. That order is not observable in the trace, because neither later step emits an event. An exception from either goes to the handler, whose existence check finds nothing to delete. |
| `App.GenerateMinutes` | app.py:35-165 | On every exit path the temporary file `temp_<name>` is gone and no other path changes. The trace is: save, upload, the `MinutesSpec` events, then one deletion, which is the only one. The result is `Finish` of the work's result. |
| `App.NoCallUnlessReady` | app.py:53-62 | A rejected upload, a timeout or a FAILED file raises the matching error without any generation call. |
| `App.FirstStageExhaustedSkipsSecond` | app.py:86-142 | If stage 1 fails on every attempt, the run raises the 第1段階 error with the last exception. It has made exactly `max_retries` stage 1 calls and no stage 2 call. |
| `App.SecondStageUsesTranscript` | app.py:106-159 | After stage 1 ends with readable text t, all later calls are stage 2 calls. Each carries no audio and a prompt that contains t. The work ends with stage 2's response, with `None` if stage 2 made no attempt, or with stage 2's exhaustion error. It is never stage 1's text. |
| `App.StagesCalls` | app.py:86-150 | After stage 1 ends with readable text t, the calls are the stage 1 request repeated once per stage 1 attempt, then the stage 2 request on t repeated once per stage 2 attempt. |
| `App.FirstTextUnreadable` | app.py:86-111 | If stage 1's first response has unreadable text, the run stops after that one call. There is no backoff sleep and no stage 2 call, and it raises the unlabelled exception from reading the text. |
| `App.SecondTextUnreadable` | app.py:138-159 | If stage 2's first response has unreadable text, stage 2 stops after one call. The work hands that response on, and the function raises the unlabelled exception when reading its text after the deletion. |
| `App.BeforeFirstDot` | app.py:253 | `name.split('.')[0]` is a prefix of the name with no '.'. It is either the whole name or is followed by '.'. |
| `App.DownloadName` | app.py:253 | The download name is `議事録_`, then a '.'-free prefix of the upload name that is the whole name or ends at its first '.', then `.md`. |
| `App.DownloadNameDropsExtension` | app.py:253 | For `stem.rest` with no '.' in `stem`, the download name is `議事録_stem.md`. A name without '.' keeps its whole text. |
| `Cli.GenerateMinutes` | main.py:16-71 | The result and trace follow `MinutesSpec`. The caller's path goes straight to the upload. No local file is written or deleted. |
| `Cli.NoCallUnlessReady` | main.py:25-37 | A rejected upload, a timeout or a FAILED file raises the matching error before any generation attempt. |
| `Cli.SingleStage` | main.py:59-71 | Once the file is ready, there are at most `max_retries` calls, each with the audio and the one prompt. In both directions, the result is the text of the first response with readable text within the budget: such a response is returned, and any returned text is one. If no attempt gives readable text, the unlabelled exhaustion error carries the last exception. With `max_retries <= 0` no call is made and the function returns `None`. |
| `Cli.UnreadableRetried` | main.py:59-69 | A response whose text raises is retried. After such a first response and a readable second one, the function returns the second text, after two calls with a 5-second sleep between them. |
| `Cli.UnreadableExhausts` | main.py:59-71 | When no attempt gives readable text and the last response's text raises, the unlabelled exhaustion message carries that exception from reading the text. |

## Left out

- The Streamlit page: configuration, progress bar, status texts, sidebar, uploader, audio player, result display and download button. Only the download-name derivation is kept. Of the status-display calls, only the one after the success-path deletion (app.py:156-157) is modelled as able to raise (`statusFault`). It is the only one that runs after that deletion, so when it raises the handler's guard finds nothing to delete. A raise from any other status or progress call in the `try` block would reach the handler before the deletion, like an error from the work; it is not modelled. Nor are the status calls inside the retry `try` blocks (app.py:88 and 140-141), where a raise would count as a failed attempt without a generation call.
- The Gemini client calls (`upload_file`, `get_file`, `generate_content`). They are foreign network calls, replaced by oracle answers. An exception from `get_file` during polling is not modelled. An exception from the upload is.
- `time.sleep`: only the requested durations are recorded, not elapsed time.
- The bytes of the audio. Writing and deleting the local file are insertion into and removal from a set of paths. A failure while writing the local file is not modelled.
- Loading the API key (`dotenv`, environment variables, Streamlit secrets) and configuring the client. This is process setup before the function runs.
- The model identifier and the wording of the prompts. The prompt texts are placeholders; the model keeps only the fact that stage 2's prompt embeds stage 1's text.
- The file-size display, which is floating point used only for display.
- The `__main__` driver of the command-line tool.
- The command-line tool's `print` progress and error messages are console output and are not modelled as raising. The `print` at main.py:61 runs inside the retry `try`, where a raise would count as a failed attempt without a generation call.
- An exception raised by a status-display call before the temporary path is assigned. In the source the handler would then refer to an unbound variable. The model starts at the file write.
- Concurrency: two simultaneous runs with the same upload name share one temporary path. `App.TempPathInjective` states that collision, and the model runs one invocation at a time.
