/**
 * The upload-status polling loop: while the uploaded file is PROCESSING, check
 * the wait ceiling, sleep 5 seconds, add 5 to the accumulated wait and fetch
 * the file's state again; afterwards a FAILED file is an error and any other
 * state counts as ready.
 *
 * The service's answers are the first state (from the upload) followed by the
 * states returned by successive re-fetches.
 */
module Polling {
  import opened Service

  const PollInterval: nat := 5
  const MaxWaitTime: nat := 300
  /** Number of re-fetches after which the accumulated wait reaches the ceiling. */
  const MaxPolls: nat := 60

  datatype PollOutcome = Ready(state: FileState) | TimedOut | FailedState

  /** What a poll does: how it ends and how many sleep/re-fetch cycles it ran. */
  datatype PollRun = PollRun(outcome: PollOutcome, cycles: nat)

  /** Length of the longest prefix of `states` that is all PROCESSING. */
  function LeadingProcessing(states: seq<FileState>): (k: nat)
    ensures k <= |states|
    ensures forall i :: 0 <= i < k ==> states[i] == Processing
    ensures k < |states| ==> states[k] != Processing
  {
    if states == [] || states[0] != Processing then 0
    else 1 + LeadingProcessing(states[1..])
  }

  /** The states the loop can observe: the first one, then one per re-fetch. */
  function Observed(initial: FileState, refetches: seq<FileState>): seq<FileState>
  {
    [initial] + refetches
  }

  /**
   * Specification of the poll: the loop runs one cycle per leading PROCESSING
   * state, and gives up once MaxPolls cycles have not settled the file.
   */
  function PollSpec(initial: FileState, refetches: seq<FileState>): PollRun
    requires |refetches| >= MaxPolls
  {
    var states := Observed(initial, refetches);
    var k := LeadingProcessing(states[..MaxPolls + 1]);
    if k > MaxPolls then PollRun(TimedOut, MaxPolls)
    else if states[k] == Failed then PollRun(FailedState, k)
    else PollRun(Ready(states[k]), k)
  }

  /** The upload succeeded and polling left the file usable. */
  predicate UploadReady(upload: UploadReply, refetches: seq<FileState>)
    requires |refetches| >= MaxPolls
  {
    upload.Accepted? && PollSpec(upload.state, refetches).outcome.Ready?
  }

  /** One pass of the loop body: a sleep of 5, then a re-fetch. */
  const Cycle: seq<Event> := [Sleep(PollInterval), GetFile]

  /** The events of `k` cycles of the loop. */
  function Cycles(k: nat): seq<Event>
  {
    if k == 0 then [] else Cycles(k - 1) + Cycle
  }

  lemma LeadingProcessingIs(states: seq<FileState>, k: nat)
    requires k <= |states|
    requires forall i :: 0 <= i < k ==> states[i] == Processing
    requires k < |states| ==> states[k] != Processing
    ensures LeadingProcessing(states) == k
  {
  }

  /** `k` cycles sleep 5 seconds each, so the accumulated wait is 5k. */
  lemma {:induction false} CyclesSleep(k: nat)
    ensures SleepsOf(Cycles(k)) == Repeat(PollInterval, k)
    ensures Sum(SleepsOf(Cycles(k))) == PollInterval * k
  {
    if k > 0 {
      CyclesSleep(k - 1);
      SleepsOfAppend(Cycles(k - 1), Cycle);
      CycleSleeps();
      assert Repeat(PollInterval, k) == Repeat(PollInterval, k - 1) + [PollInterval];
    }
    SumRepeat(PollInterval, k);
  }

  lemma CycleSleeps()
    ensures SleepsOf(Cycle) == [PollInterval]
  {
    assert Cycle[1..] == [GetFile];
    assert SleepsOf([GetFile]) == SleepOf(GetFile) + SleepsOf([]);
  }

  /** Polling only sleeps and re-fetches: it never calls the generation API. */
  lemma {:induction false} CyclesRemote(k: nat)
    ensures forall e :: e in Cycles(k) ==> e == Sleep(PollInterval) || e == GetFile
    ensures RemoteOnly(Cycles(k))
    ensures CallsOf(Cycles(k)) == []
  {
    if k > 0 {
      CyclesRemote(k - 1);
    }
    NoCallsWithoutGenerate(Cycles(k));
  }

  /** The loop as written: `wait_time` and `myfile` are updated in place. */
  method AwaitProcessing(initial: FileState, refetches: seq<FileState>)
    returns (outcome: PollOutcome, trace: seq<Event>)
    requires |refetches| >= MaxPolls
    ensures outcome == PollSpec(initial, refetches).outcome
    ensures trace == Cycles(PollSpec(initial, refetches).cycles)
  {
    ghost var states := Observed(initial, refetches);
    var state := initial;
    var waitTime: nat := 0;
    var fetched := 0;
    trace := [];
    while state == Processing
      invariant 0 <= fetched <= MaxPolls
      invariant waitTime == PollInterval * fetched
      invariant state == states[fetched]
      invariant forall i :: 0 <= i < fetched ==> states[i] == Processing
      invariant trace == Cycles(fetched)
      decreases MaxPolls - fetched
    {
      if waitTime >= MaxWaitTime {
        LeadingProcessingIs(states[..MaxPolls + 1], MaxPolls + 1);
        outcome := TimedOut;
        return;
      }
      trace := trace + Cycle;
      waitTime := waitTime + PollInterval;
      state := refetches[fetched];
      fetched := fetched + 1;
    }
    LeadingProcessingIs(states[..MaxPolls + 1], fetched);
    if state == Failed {
      outcome := FailedState;
      return;
    }
    outcome := Ready(state);
  }

  /**
   * If the first state and the first k-1 re-fetched states are PROCESSING and
   * the k-th observed state is not, the loop runs exactly k cycles, waits 5k in
   * all, and ends on that state: an error when it is FAILED, ready otherwise.
   */
  lemma SettlesAfter(initial: FileState, refetches: seq<FileState>, k: nat)
    requires |refetches| >= MaxPolls && k <= MaxPolls
    requires forall i :: 0 <= i < k ==> Observed(initial, refetches)[i] == Processing
    requires Observed(initial, refetches)[k] != Processing
    ensures PollSpec(initial, refetches).cycles == k
    ensures Sum(SleepsOf(Cycles(PollSpec(initial, refetches).cycles))) == PollInterval * k
    ensures PollSpec(initial, refetches).outcome ==
      if Observed(initial, refetches)[k] == Failed then FailedState
      else Ready(Observed(initial, refetches)[k])
  {
    LeadingProcessingIs(Observed(initial, refetches)[..MaxPolls + 1], k);
    CyclesSleep(k);
  }

  /**
   * The loop never runs more than 60 cycles nor waits more than 300 seconds,
   * and it times out exactly when the first state and all 60 re-fetches are
   * PROCESSING; it then has run all 60 cycles.
   */
  lemma WaitBounded(initial: FileState, refetches: seq<FileState>)
    requires |refetches| >= MaxPolls
    ensures PollSpec(initial, refetches).cycles <= MaxPolls
    ensures Sum(SleepsOf(Cycles(PollSpec(initial, refetches).cycles))) <= MaxWaitTime
    ensures PollSpec(initial, refetches).outcome == TimedOut <==>
      forall i :: 0 <= i <= MaxPolls ==> Observed(initial, refetches)[i] == Processing
    ensures PollSpec(initial, refetches).outcome == TimedOut ==>
      PollSpec(initial, refetches).cycles == MaxPolls
  {
    var states := Observed(initial, refetches);
    var prefix := states[..MaxPolls + 1];
    var k := LeadingProcessing(prefix);
    CyclesSleep(PollSpec(initial, refetches).cycles);
    if k <= MaxPolls {
      assert prefix[k] == states[k];
    } else {
      assert forall i :: 0 <= i <= MaxPolls ==> prefix[i] == states[i];
    }
  }

  /**
   * After polling, the run is ready exactly when the state it stopped on is
   * neither PROCESSING nor FAILED, and that state is the one handed on.
   */
  lemma Verdict(initial: FileState, refetches: seq<FileState>)
    requires |refetches| >= MaxPolls
    ensures PollSpec(initial, refetches).outcome.FailedState? ==>
      Observed(initial, refetches)[PollSpec(initial, refetches).cycles] == Failed
    ensures PollSpec(initial, refetches).outcome.Ready? ==>
      var s := PollSpec(initial, refetches).outcome.state;
      s == Observed(initial, refetches)[PollSpec(initial, refetches).cycles] &&
      s != Processing && s != Failed
    ensures !PollSpec(initial, refetches).outcome.TimedOut? ==>
      Observed(initial, refetches)[PollSpec(initial, refetches).cycles] != Processing
  {
    var states := Observed(initial, refetches);
    var k := LeadingProcessing(states[..MaxPolls + 1]);
    if k <= MaxPolls {
      assert states[..MaxPolls + 1][k] == states[k];
    }
  }
}
