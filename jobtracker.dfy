/**
 * Following an asynchronous upload job in the browser: the progress
 * stream, the fallback polling loop it hands over to on a transport error,
 * and the outcome each status message leads to.
 *
 * Inputs are the events the handlers react to: a message on the stream, a
 * transport error on the stream, or one run of the polling function
 * together with what its fetch produced.
 */
module JobTracking {
  import opened Values
  import Storage
  import Worker

  const MaxAttempts: nat := 120

  /** How tracking ended. The alerts read "Processing error: <detail>",
      "Processing failed: <detail>" and "Processing timeout. Please try
      again."; a completed job also refreshes the history list. */
  datatype Outcome =
    | Rendered(data: Value, analysisId: Option<Value>)
    | LoadById(id: Value)
    | CompletedEmpty
    | ProcessingError(detail: Value)
    | ProcessingFailed(detail: Value)
    | TimedOut

  datatype Reaction = Continue | Finish(outcome: Outcome)

  /** What a status message (from the stream or a poll) leads to. The
      `error` field is looked at before `status`. */
  function React(msg: Row): (r: Reaction)
    ensures Truthy(Get(msg, "error")) ==> r == Finish(ProcessingError(Get(msg, "error").value))
    ensures r.Continue? <==>
      !Truthy(Get(msg, "error")) && Get(msg, "status") != Some(Str("completed")) && Get(msg, "status") != Some(Str("failed"))
  {
    if Truthy(Get(msg, "error")) then Finish(ProcessingError(Get(msg, "error").value))
    else if Get(msg, "status") == Some(Str("completed")) then
      if Truthy(Get(msg, "data")) then Finish(Rendered(Get(msg, "data").value, Get(msg, "analysis_id")))
      else if Truthy(Get(msg, "analysis_id")) then Finish(LoadById(Get(msg, "analysis_id").value))
      else Finish(CompletedEmpty)
    else if Get(msg, "status") == Some(Str("failed")) then
      Finish(ProcessingFailed(OrElse(Get(msg, "error"), Str("Unknown error"))))
    else Continue
  }

  datatype Phase = Streaming | Polling | Finished

  datatype PollResult = Answered(msg: Row) | Thrown

  datatype Input = StreamMessage(msg: Row) | StreamError | PollRun(result: PollResult)

  /** The tracking state: which channel is live, the polling counter, the
      last progress value shown (None is `undefined`) and the outcome. */
  datatype Tracker = Tracker(phase: Phase, attempts: nat, progress: Option<Value>, outcome: Option<Outcome>)

  const Start := Tracker(Streaming, 0, None, None)

  predicate Consistent(t: Tracker) {
    t.attempts <= MaxAttempts
    && (t.phase == Finished <==> t.outcome.Some?)
    && (t.phase == Streaming ==> t.attempts == 0)
  }

  /** A status message read on a live channel. */
  function Receive(t: Tracker, msg: Row): Tracker {
    var shown := if Truthy(Get(msg, "error")) then t.progress else Get(msg, "progress");
    match React(msg)
    case Continue => t.(progress := shown)
    case Finish(o) => t.(phase := Finished, progress := shown, outcome := Some(o))
  }

  function Step(t: Tracker, input: Input): Tracker {
    match input
    case StreamMessage(msg) =>
      if t.phase == Streaming then Receive(t, msg) else t
    case StreamError =>
      if t.phase == Streaming then t.(phase := Polling) else t
    case PollRun(result) =>
      if t.phase != Polling then t
      else if t.attempts >= MaxAttempts then t.(phase := Finished, outcome := Some(TimedOut))
      else
        var counted := t.(attempts := t.attempts + 1);
        match result
        case Thrown => counted
        case Answered(msg) => Receive(counted, msg)
  }

  function Run(t: Tracker, inputs: seq<Input>): Tracker
    decreases |inputs|
  {
    if inputs == [] then t else Run(Step(t, inputs[0]), inputs[1..])
  }

  /** Every step keeps the counter within 120 and the phase in step with
      the outcome. */
  lemma StepConsistent(t: Tracker, input: Input)
    requires Consistent(t)
    ensures Consistent(Step(t, input))
    ensures Step(t, input).attempts <= t.attempts + 1
  {
  }

  /** So at most 120 fetches are ever made, whatever the stream and the
      server send. */
  lemma {:induction false} RunConsistent(t: Tracker, inputs: seq<Input>)
    requires Consistent(t)
    ensures Consistent(Run(t, inputs))
    ensures Run(t, inputs).attempts <= MaxAttempts
    decreases |inputs|
  {
    if inputs != [] {
      StepConsistent(t, inputs[0]);
      RunConsistent(Step(t, inputs[0]), inputs[1..]);
    }
  }

  /** A finished tracking ignores everything that follows. */
  lemma {:induction false} FinishedIsFinal(t: Tracker, inputs: seq<Input>)
    requires t.phase == Finished
    ensures Run(t, inputs) == t
    decreases |inputs|
  {
    if inputs != [] {
      FinishedIsFinal(Step(t, inputs[0]), inputs[1..]);
    }
  }

  /** Once the stream is closed it is never reopened. */
  lemma {:induction false} StreamNeverReopens(t: Tracker, inputs: seq<Input>)
    requires t.phase != Streaming
    ensures Run(t, inputs).phase != Streaming
    decreases |inputs|
  {
    if inputs != [] {
      StreamNeverReopens(Step(t, inputs[0]), inputs[1..]);
    }
  }

  /** A transport error hands the same job over to polling with a fresh
      counter; polling never runs while the stream is live. */
  lemma StreamErrorStartsPolling(t: Tracker, r: PollResult)
    requires Consistent(t) && t.phase == Streaming
    ensures Step(t, StreamError) == t.(phase := Polling)
    ensures Step(t, StreamError).attempts == 0
    ensures Step(t, PollRun(r)) == t
  {
  }

  /** The `error` field wins over any status; "failed" without an error
      reports "Unknown error", so a failure's own message only ever reaches
      the user through the `error` check. */
  lemma ReactOutcomes(msg: Row)
    ensures Truthy(Get(msg, "error")) ==> React(msg) == Finish(ProcessingError(Get(msg, "error").value))
    ensures !Truthy(Get(msg, "error")) && Get(msg, "status") == Some(Str("failed"))
      ==> React(msg) == Finish(ProcessingFailed(Str("Unknown error")))
    ensures forall d :: React(msg) == Finish(ProcessingFailed(d)) ==> d == Str("Unknown error")
  {
  }

  /** What the client makes of the last entry the worker writes for a job.
      The data of a completed job is never falsy (a falsy processing result
      fails the job instead), so it is rendered inline with the job's
      analysis id, and neither the load by id nor the bare history refresh
      is reached. A failed job's message comes back as a processing error,
      or, when the message is empty, as a failure with "Unknown error". */
  lemma FinalEntryOutcome(t: Option<Storage.Tables>, id: string, filename: string, read: Worker.Call<seq<Value>>,
                          process: Worker.ProcessFunc, analysisId: string, saveError: string)
    ensures var o := Worker.JobOutcome(t, id, filename, read, process, analysisId, saveError);
            var r := React(Worker.Final(o));
            (o.Completed? ==> r == Finish(Rendered(o.data, Some(Str(analysisId)))))
            && (!o.Completed? && o.message != "" ==> r == Finish(ProcessingError(Str(o.message))))
            && (!o.Completed? && o.message == "" ==> r == Finish(ProcessingFailed(Str("Unknown error"))))
  {
    var o := Worker.JobOutcome(t, id, filename, read, process, analysisId, saveError);
    if o.Completed? {
      assert o.analysisId == analysisId && PyTruthy(o.data);
      CompletedReaction(analysisId, o.data);
    } else {
      FailedReaction(o.message);
    }
  }

  lemma CompletedReaction(analysisId: string, data: Value)
    requires PyTruthy(data)
    ensures React(Worker.CompletedEntry(analysisId, data)) == Finish(Rendered(data, Some(Str(analysisId))))
  {
    var e := Worker.CompletedEntry(analysisId, data);
    assert "status"[0] != "data"[0] && "progress"[0] != "data"[0] && "analysis_id"[0] != "data"[0];
    assert "status"[0] != "analysis_id"[0] && "progress"[0] != "analysis_id"[0];
    assert Get(e[1..][1..][1..], "data") == Some(data);
    assert Get(e[1..][1..], "data") == Some(data);
    assert Get(e[1..][1..], "analysis_id") == Some(Str(analysisId));
    assert Get(e, "error") == None;
    Worker.CompletedFields(analysisId, data);
  }

  lemma FailedReaction(message: string)
    ensures message != "" ==> React(Worker.FailedEntry(message)) == Finish(ProcessingError(Str(message)))
    ensures message == "" ==> React(Worker.FailedEntry(message)) == Finish(ProcessingFailed(Str("Unknown error")))
  {
    var e := Worker.FailedEntry(message);
    assert "status"[0] != "error"[0] && "progress"[0] != "error"[0];
    assert Get(e[1..][1..], "error") == Some(Str(message));
    assert Get(e, "error") == Some(Str(message));
    Worker.FailedFields(message);
  }

  /** A poll that does not finish the job: a thrown fetch, or an answer
      with neither error nor terminal status. */
  predicate NonTerminal(r: PollResult) {
    r.Thrown? || React(r.msg).Continue?
  }

  function PollRuns(rs: seq<PollResult>): (inputs: seq<Input>)
    ensures |inputs| == |rs|
    ensures forall i :: 0 <= i < |rs| ==> inputs[i] == PollRun(rs[i])
  {
    if rs == [] then [] else [PollRun(rs[0])] + PollRuns(rs[1..])
  }

  /** Each non-terminal poll uses up one attempt and polling goes on. */
  lemma {:induction false} NonTerminalPolls(t: Tracker, rs: seq<PollResult>)
    requires t.phase == Polling && t.attempts + |rs| <= MaxAttempts
    requires forall i :: 0 <= i < |rs| ==> NonTerminal(rs[i])
    ensures Run(t, PollRuns(rs)).phase == Polling
    ensures Run(t, PollRuns(rs)).attempts == t.attempts + |rs|
    decreases |rs|
  {
    if rs != [] {
      assert PollRuns(rs)[1..] == PollRuns(rs[1..]);
      NonTerminalPolls(Step(t, PollRun(rs[0])), rs[1..]);
    }
  }

  /** After a transport error, 120 non-terminal polls are fetched; the run
      after them reports the timeout without fetching, whatever it would
      have received. */
  lemma TimeoutAfterMaxAttempts(t: Tracker, rs: seq<PollResult>, last: PollResult)
    requires t.phase == Streaming && t.attempts == 0
    requires |rs| == MaxAttempts && forall i :: 0 <= i < |rs| ==> NonTerminal(rs[i])
    ensures var after := Run(t, [StreamError] + PollRuns(rs));
      after.phase == Polling && after.attempts == MaxAttempts
      && Step(after, PollRun(last)) == after.(phase := Finished, outcome := Some(TimedOut))
  {
    var polling := Step(t, StreamError);
    assert ([StreamError] + PollRuns(rs))[1..] == PollRuns(rs);
    NonTerminalPolls(polling, rs);
  }

  /** The handlers' shared state for one job. */
  class JobTracker {
    const jobId: Value
    var state: Tracker

    constructor (id: Value)
      ensures jobId == id && state == Start
    {
      jobId := id;
      state := Start;
    }

    /** `eventSource.onmessage`. */
    method OnStreamMessage(msg: Row)
      modifies this
      ensures state == Step(old(state), StreamMessage(msg))
    {
      if state.phase != Streaming {
        return;
      }
      var shown := if Truthy(Get(msg, "error")) then state.progress else Get(msg, "progress");
      var reaction := React(msg);
      if reaction.Finish? {
        state := state.(phase := Finished, progress := shown, outcome := Some(reaction.outcome));
      } else {
        state := state.(progress := shown);
      }
    }

    /** `eventSource.onerror`: close the stream and start polling. */
    method OnStreamError()
      modifies this
      ensures state == Step(old(state), StreamError)
    {
      if state.phase == Streaming {
        state := state.(phase := Polling);
      }
    }

    /** One run of `poll`: give up after 120 attempts, else count the
        attempt and act on what the fetch produced. */
    method Poll(result: PollResult)
      modifies this
      ensures state == Step(old(state), PollRun(result))
    {
      if state.phase != Polling {
        return;
      }
      if state.attempts >= MaxAttempts {
        state := state.(phase := Finished, outcome := Some(TimedOut));
        return;
      }
      state := state.(attempts := state.attempts + 1);
      if result.Answered? {
        var msg := result.msg;
        var shown := if Truthy(Get(msg, "error")) then state.progress else Get(msg, "progress");
        match React(msg)
        case Continue =>
          state := state.(progress := shown);
        case Finish(o) =>
          state := state.(phase := Finished, progress := shown, outcome := Some(o));
      }
    }

    /** Feed the events in order. */
    method Track(inputs: seq<Input>)
      modifies this
      ensures state == Run(old(state), inputs)
    {
      ghost var start := state;
      for i := 0 to |inputs|
        invariant Run(start, inputs) == Run(state, inputs[i..])
      {
        assert inputs[i..][1..] == inputs[i + 1..];
        match inputs[i]
        case StreamMessage(msg) => OnStreamMessage(msg);
        case StreamError => OnStreamError();
        case PollRun(result) => Poll(result);
      }
    }
  }
}
