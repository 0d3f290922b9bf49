/**
 * Vocabulary shared by both entry points of the minutes generator: what the
 * hosted generative-AI service answers, the requests the client sends it, the
 * errors the client raises, and the trace of observable actions (local file
 * operations, remote calls and sleeps) that one run performs.
 *
 * The remote service is an oracle: every answer it gives is an input of the
 * model. Time is not modelled; a call to `time.sleep(n)` is the event `Sleep(n)`.
 */
module Service {

  /** Processing state of an uploaded file, as the remote service reports it. */
  datatype FileState = StateUnspecified | Processing | Active | Failed

  /** Answer to the upload call: a file handle in some first state, or an exception. */
  datatype UploadReply = Accepted(state: FileState) | Rejected(detail: string)

  /**
   * A response object returned by a generation call. Reading its `.text` gives
   * the generated text, or raises (for instance when the answer was blocked).
   */
  datatype Response = WithText(text: string) | TextRaises(detail: string)

  /** Answer to one generation call: a response object, or an exception from the call itself. */
  datatype Reply = Returned(response: Response) | Raised(detail: string)

  /** A call that returned a response whose text can be read. */
  predicate Readable(r: Reply)
  {
    r.Returned? && r.response.WithText?
  }

  /** One part of a generation request: the uploaded audio handle or a text prompt. */
  datatype Part = AudioFile | Prompt(text: string)

  type Request = seq<Part>

  /** One observable action of a run, in the order it happens. */
  datatype Event =
    | SaveTemp(path: string)        // the local copy of the audio is written
    | Upload(path: string)          // the file at `path` is sent to the service
    | Sleep(seconds: nat)           // the client blocks for `seconds`
    | GetFile                       // the handle is fetched again by its name
    | Generate(request: Request)    // one generation call
    | Remove(path: string)          // the local file at `path` is deleted

  /** The exceptions a run can end with. */
  datatype Error =
    | UploadRaised(detail: string)  // the upload call itself raised
    | Timeout                       // the file was still processing at the wait ceiling
    | ProcessingFailed              // the service reported the file as failed
    | RetriesExhausted(message: string)  // every generation attempt of a stage raised
    | NoResult                      // a stage made no attempt, so it has no response to read
    | TextRaised(detail: string)    // reading the text of a returned response raised
    | StatusDisplayRaised           // a status display call raised after the work was done

  datatype Option<T> = None | Some(value: T)

  datatype Result<T> = Ok(value: T) | Err(error: Error)

  /** Reading the `.text` of a response. */
  function ReadText(response: Response): (r: Result<string>)
    ensures r.Ok? <==> response.WithText?
    ensures r.Ok? ==> r.value == response.text
    ensures r.Err? ==> r.error == TextRaised(response.detail)
  {
    match response
    case WithText(text) => Ok(text)
    case TextRaises(detail) => Err(TextRaised(detail))
  }

  /** `n` copies of `x`. */
  function Repeat<T>(x: T, n: nat): (r: seq<T>)
    ensures |r| == n
    ensures forall i :: 0 <= i < n ==> r[i] == x
  {
    if n == 0 then [] else Repeat(x, n - 1) + [x]
  }

  function SleepOf(e: Event): seq<nat>
  {
    if e.Sleep? then [e.seconds] else []
  }

  function CallOf(e: Event): seq<Request>
  {
    if e.Generate? then [e.request] else []
  }

  /** The durations of the sleeps of a trace, in order. */
  function SleepsOf(t: seq<Event>): seq<nat>
  {
    if t == [] then [] else SleepOf(t[0]) + SleepsOf(t[1..])
  }

  /** The generation requests of a trace, in order. */
  function CallsOf(t: seq<Event>): seq<Request>
  {
    if t == [] then [] else CallOf(t[0]) + CallsOf(t[1..])
  }

  /** Total of a list of durations. */
  function Sum(s: seq<nat>): nat
  {
    if s == [] then 0 else Sum(s[..|s| - 1]) + s[|s| - 1]
  }

  /** A trace that touches no local file: only remote calls, re-fetches and sleeps. */
  predicate RemoteOnly(t: seq<Event>)
  {
    forall e :: e in t ==> e.Sleep? || e.GetFile? || e.Generate?
  }

  lemma {:induction false} SleepsOfAppend(a: seq<Event>, b: seq<Event>)
    ensures SleepsOf(a + b) == SleepsOf(a) + SleepsOf(b)
  {
    if a == [] {
      assert a + b == b;
    } else {
      var ab := a + b;
      assert ab != [] && ab[0] == a[0] && ab[1..] == a[1..] + b;
      SleepsOfAppend(a[1..], b);
      calc {
        SleepsOf(ab);
        SleepOf(a[0]) + SleepsOf(a[1..] + b);
        SleepOf(a[0]) + (SleepsOf(a[1..]) + SleepsOf(b));
        (SleepOf(a[0]) + SleepsOf(a[1..])) + SleepsOf(b);
      }
    }
  }

  lemma {:induction false} CallsOfAppend(a: seq<Event>, b: seq<Event>)
    ensures CallsOf(a + b) == CallsOf(a) + CallsOf(b)
  {
    if a == [] {
      assert a + b == b;
    } else {
      var ab := a + b;
      assert ab != [] && ab[0] == a[0] && ab[1..] == a[1..] + b;
      CallsOfAppend(a[1..], b);
      calc {
        CallsOf(ab);
        CallOf(a[0]) + CallsOf(a[1..] + b);
        CallOf(a[0]) + (CallsOf(a[1..]) + CallsOf(b));
        (CallOf(a[0]) + CallsOf(a[1..])) + CallsOf(b);
      }
    }
  }

  /** A trace without generation events issues no generation call. */
  lemma {:induction false} NoCallsWithoutGenerate(t: seq<Event>)
    requires forall e :: e in t ==> !e.Generate?
    ensures CallsOf(t) == []
  {
    if t != [] {
      assert t[0] in t;
      NoCallsWithoutGenerate(t[1..]);
    }
  }

  lemma {:induction false} SumRepeat(x: nat, n: nat)
    ensures Sum(Repeat(x, n)) == x * n
  {
    if n > 0 {
      var r := Repeat(x, n);
      assert r == Repeat(x, n - 1) + [x];
      assert r[..n - 1] == Repeat(x, n - 1);
      SumRepeat(x, n - 1);
      assert Sum(r) == Sum(r[..n - 1]) + r[n - 1];
    }
  }
}
