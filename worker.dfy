/**
 * The background worker: the in-memory job table, the stages one job goes
 * through (each written to the table and to the job record), the status
 * lookup, the progress-event generator that follows a job, and the size
 * threshold above which an upload is processed in the background.
 *
 * Reading the uploaded file, calling the processing function and the
 * exceptions they raise are inputs: a `Call` either returns a value or
 * raises with a message. The job id and the analysis id (`uuid4`) and the
 * database's timestamps are inputs too.
 */
module Worker {
  import opened Values
  import opened Storage

  /** The outcome of a call that may raise. */
  datatype Call<T> = Returned(value: T) | Raised(message: string)

  /** `process_func(logs_data, filename)`: None is returned as Null. */
  type ProcessFunc = (seq<Value>, string) -> Call<Value>

  const LargeFileThreshold: int := 10 * 1024 * 1024

  /** `should_process_async`. */
  function ShouldProcessAsync(fileSize: int): bool {
    fileSize > LargeFileThreshold
  }

  /** Only uploads of more than 10 MiB go to the background. */
  lemma AsyncThreshold(fileSize: int)
    ensures ShouldProcessAsync(fileSize) <==> fileSize > 10485760
    ensures ShouldProcessAsync(10485760 + 1) && !ShouldProcessAsync(10485760)
  {
  }

  // ---------------------------------------------------------------------
  // Entries of the in-memory job table

  /** An entry with only status and progress. */
  function Snapshot(status: string, progress: int): Row {
    [("status", Str(status)), ("progress", Num(progress as real))]
  }

  function CompletedEntry(analysisId: string, data: Value): Row {
    [("status", Str("completed")), ("progress", Num(100.0)), ("analysis_id", Str(analysisId)), ("data", data)]
  }

  function FailedEntry(message: string): Row {
    [("status", Str("failed")), ("progress", Num(0.0)), ("error", Str(message))]
  }

  lemma SnapshotFields(status: string, progress: int)
    ensures Get(Snapshot(status, progress), "status") == Some(Str(status))
    ensures Get(Snapshot(status, progress), "progress") == Some(Num(progress as real))
  {
    assert Snapshot(status, progress)[1..] == [("progress", Num(progress as real))];
  }

  lemma CompletedFields(analysisId: string, data: Value)
    ensures Get(CompletedEntry(analysisId, data), "status") == Some(Str("completed"))
    ensures Get(CompletedEntry(analysisId, data), "progress") == Some(Num(100.0))
  {
    assert CompletedEntry(analysisId, data)[1..][0] == ("progress", Num(100.0));
  }

  lemma FailedFields(message: string)
    ensures Get(FailedEntry(message), "status") == Some(Str("failed"))
    ensures Get(FailedEntry(message), "progress") == Some(Num(0.0))
  {
    assert FailedEntry(message)[1..][0] == ("progress", Num(0.0));
  }

  const NoTelemetry: string := "No valid telemetry data found"

  /** The progress `_process_job` reports before each stage: reading the
      file, running the processing function, saving, completing. */
  const Stages: seq<int> := [10, 30, 70, 90]

  /** Where a job's processing ended: the stage whose call raised and the
      message it raised with, or completion. */
  datatype Outcome =
    | ReadFailed(message: string)
    | ProcessFailed(message: string)
    | SaveFailed(message: string)
    | Completed(analysisId: string, data: Value)

  /** How many progress reports were made before the outcome. */
  function Reached(o: Outcome): nat {
    match o
    case ReadFailed(_) => 1
    case ProcessFailed(_) => 2
    case SaveFailed(_) => 3
    case Completed(_, _) => 4
  }

  /** The entry the job table keeps at the end. */
  function Final(o: Outcome): Row {
    if o.Completed? then CompletedEntry(o.analysisId, o.data) else FailedEntry(o.message)
  }

  /** Every entry written to the job table for the job, in order. */
  function Entries(o: Outcome): seq<Row> {
    var s10, s30, s70, s90 := Snapshot("processing", 10), Snapshot("processing", 30),
                              Snapshot("processing", 70), Snapshot("processing", 90);
    match o
    case ReadFailed(_) => [s10, Final(o)]
    case ProcessFailed(_) => [s10, s30, Final(o)]
    case SaveFailed(_) => [s10, s30, s70, Final(o)]
    case Completed(_, _) => [s10, s30, s70, s90, Final(o)]
  }

  /** The save as `save_analysis` does it; a result that is not a dict
      raises when its parts are read. */
  function SaveResult(t: Tables, analysisId: string, result: Value): Option<Tables> {
    if result.Obj? then Save(t, analysisId, result.fields) else None
  }

  /** The job record after the progress reports of the first `stages`
      stages. */
  function Progressed(t: Tables, id: string, stages: nat): Tables {
    var r10 := UpdateJobProgress(t, id, 10, "processing");
    var r30 := UpdateJobProgress(r10, id, 30, "processing");
    var r70 := UpdateJobProgress(r30, id, 70, "processing");
    if stages == 1 then r10 else if stages == 2 then r30 else r70
  }

  /** `_process_job`'s course: a raising read, a raising or falsy
      processing result ("No valid telemetry data found"), a raising save
      (only with a database), or completion with the analysis id. */
  function JobOutcome(t: Option<Tables>, id: string, filename: string, read: Call<seq<Value>>, process: ProcessFunc,
                      analysisId: string, saveError: string): Outcome
  {
    if read.Raised? then ReadFailed(read.message)
    else AfterRead(t, id, process(read.value, filename), analysisId, saveError)
  }

  /** The course from the processing function's outcome on. */
  function AfterRead(t: Option<Tables>, id: string, result: Call<Value>, analysisId: string, saveError: string): Outcome {
    if result.Raised? then ProcessFailed(result.message)
    else if !PyTruthy(result.value) then ProcessFailed(NoTelemetry)
    else AfterProcessing(t, id, result.value, analysisId, saveError)
  }

  /** The course from a truthy result on: the save, made after the reports
      at 10, 30 and 70, raises or the job completes. */
  function AfterProcessing(t: Option<Tables>, id: string, data: Value, analysisId: string, saveError: string): Outcome {
    if t.Some? && SaveResult(Progressed(t.value, id, 3), analysisId, data).None? then SaveFailed(saveError)
    else Completed(analysisId, data)
  }

  /** The database after the job: the progress reports, then the record
      failed with the message, or the analysis saved, progress 90 and the
      record completed. A save that raises rolls back and so writes
      nothing; only a completed job saved anything. */
  function DbAfter(t: Tables, id: string, o: Outcome, now: string): Tables {
    if o.Completed? then Finished(Progressed(t, id, 3), id, o.analysisId, o.data, now)
    else FailJob(Progressed(t, id, Reached(o)), id, o.message, now)
  }

  /** From the reports at 10, 30 and 70 on, for a completed job: the save
      (which went through when there is a database), progress 90 and the
      record completed. */
  function Finished(before: Tables, id: string, analysisId: string, data: Value, now: string): Tables {
    var stored := SaveResult(before, analysisId, data);
    CompleteJob(UpdateJobProgress(if stored.Some? then stored.value else before, id, 90, "processing"), id, analysisId, now)
  }

  datatype JobFields = JobFields(status: string, progress: int, result: Option<Value>, error: Option<string>, analysisId: Option<string>)

  /** The job object's fields after the job: a failed job keeps the last
      progress it reported and gets the message as its error. */
  function JobAfter(j: JobFields, o: Outcome): JobFields {
    if o.Completed? then j.(status := "completed", progress := 100, result := Some(o.data), analysisId := Some(o.analysisId))
    else j.(status := "failed", progress := Stages[Reached(o) - 1], error := Some(o.message))
  }

  function Status(entry: Row): Value {
    PyGet(entry, "status")
  }

  /** `status.get('progress', 0)`. */
  function Reported(status: Row): Value {
    if Get(status, "progress").Some? then Get(status, "progress").value else Num(0.0)
  }

  predicate Terminal(entry: Row) {
    Status(entry) == Str("completed") || Status(entry) == Str("failed")
  }

  /** The course of an entry as a client polling it sees it: every entry
      reports a progress other than the one before it (`last` for the
      first), and only the last entry is terminal. */
  predicate Stream(entries: seq<Row>, last: Value)
    decreases |entries|
  {
    entries != [] && entries[0] != [] && Reported(entries[0]) != last
    && if |entries| == 1 then Terminal(entries[0])
       else !Terminal(entries[0]) && Stream(entries[1..], Reported(entries[0]))
  }

  /** One more non-terminal entry in front of a stream. */
  lemma StreamCons(status: string, progress: int, rest: seq<Row>, last: Value)
    requires status != "completed" && status != "failed" && Num(progress as real) != last
    requires Stream(rest, Num(progress as real))
    ensures Stream([Snapshot(status, progress)] + rest, last)
  {
    SnapshotFields(status, progress);
    assert ([Snapshot(status, progress)] + rest)[1..] == rest;
  }

  /** The table goes through "processing" at 10, 30, 70, 90 for as far as
      the job got, then one terminal entry: completed at 100 with the
      analysis id and the data, or failed at 0 with the message. Each
      entry reports a progress other than the one before and only the last
      is terminal. */
  lemma EntriesShape(o: Outcome)
    ensures var e := Entries(o);
      |e| == Reached(o) + 1
      && (forall i :: 0 <= i < Reached(o) ==> e[i] == Snapshot("processing", Stages[i]))
      && e[Reached(o)] == Final(o)
      && Reported(Final(o)) == (if o.Completed? then Num(100.0) else Num(0.0))
      && Stream(e, Num(-1.0))
  {
    EntriesLayout(o);
    EntriesStream(o);
  }

  lemma EntriesLayout(o: Outcome)
    ensures var e := Entries(o);
      |e| == Reached(o) + 1
      && (forall i :: 0 <= i < Reached(o) ==> e[i] == Snapshot("processing", Stages[i]))
      && e[Reached(o)] == Final(o)
      && Reported(Final(o)) == (if o.Completed? then Num(100.0) else Num(0.0))
  {
    if o.Completed? {
      CompletedFields(o.analysisId, o.data);
    } else {
      FailedFields(o.message);
    }
  }

  lemma {:induction false} EntriesStream(o: Outcome)
    ensures Stream(Entries(o), Num(-1.0))
  {
    var f := Final(o);
    if o.Completed? {
      CompletedFields(o.analysisId, o.data);
    } else {
      FailedFields(o.message);
    }
    assert Stream([f], Num(90.0)) && Stream([f], Num(70.0)) && Stream([f], Num(30.0)) && Stream([f], Num(10.0));
    match o
    case ReadFailed(_) =>
      StreamCons("processing", 10, [f], Num(-1.0));
    case ProcessFailed(_) =>
      StreamCons("processing", 30, [f], Num(10.0));
      StreamCons("processing", 10, [Snapshot("processing", 30), f], Num(-1.0));
    case SaveFailed(_) =>
      StreamCons("processing", 70, [f], Num(30.0));
      StreamCons("processing", 30, [Snapshot("processing", 70), f], Num(10.0));
      StreamCons("processing", 10, [Snapshot("processing", 30), Snapshot("processing", 70), f], Num(-1.0));
    case Completed(_, _) =>
      StreamCons("processing", 90, [f], Num(70.0));
      StreamCons("processing", 70, [Snapshot("processing", 90), f], Num(30.0));
      StreamCons("processing", 30, [Snapshot("processing", 70), Snapshot("processing", 90), f], Num(10.0));
      StreamCons("processing", 10, [Snapshot("processing", 30), Snapshot("processing", 70), Snapshot("processing", 90), f],
                 Num(-1.0));
  }

  /** The progress reports change only the job's record: its progress and
      status. */
  lemma ProgressedRecord(t: Tables, id: string, stages: nat)
    requires id in t.jobs && 1 <= stages <= 3
    ensures var after := Progressed(t, id, stages);
      after.analyses == t.analyses && id in after.jobs
      && after.jobs[id] == t.jobs[id].(progress := Num(Stages[stages - 1] as real), status := "processing")
      && after.jobs.Keys == t.jobs.Keys
      && forall other :: other in t.jobs && other != id ==> after.jobs[other] == t.jobs[other]
  {
  }

  /** The save leaves the job records alone and adds the analysis under a
      new id. */
  lemma SavedAnalysis(t: Tables, analysisId: string, data: Value)
    requires SaveResult(t, analysisId, data).Some?
    ensures analysisId !in t.analyses
    ensures analysisId in SaveResult(t, analysisId, data).value.analyses
    ensures SaveResult(t, analysisId, data).value.jobs == t.jobs
  {
    SaveConsistent(t, analysisId, data.fields);
  }

  /** A completed job has its analysis stored under the analysis id, which
      was new, and its record is completed with that id but keeps progress
      90, the last progress written to it. */
  lemma CompletedRecord(t: Tables, id: string, analysisId: string, data: Value, now: string)
    requires id in t.jobs
    requires SaveResult(Progressed(t, id, 3), analysisId, data).Some?
    ensures var after := DbAfter(t, id, Completed(analysisId, data), now);
      analysisId !in t.analyses && analysisId in after.analyses
      && JobStatus(after, id) == Some(("completed", Num(90.0)))
      && after.jobs[id].analysisId == Some(analysisId)
  {
    var before := Progressed(t, id, 3);
    ProgressedRecord(t, id, 3);
    SavedAnalysis(before, analysisId, data);
  }

  /** A job that fails stores no analysis; its record is failed with the
      message and keeps the last progress written to it. */
  lemma FailedRecord(t: Tables, id: string, o: Outcome, now: string)
    requires id in t.jobs && !o.Completed?
    ensures var after := DbAfter(t, id, o, now);
      after.analyses == t.analyses
      && JobStatus(after, id) == Some(("failed", Num(Stages[Reached(o) - 1] as real)))
      && after.jobs[id].errorMessage == Some(o.message)
  {
    ProgressedRecord(t, id, Reached(o));
  }

  /** Processing a job writes no other job's record. */
  lemma OtherJobsUntouched(t: Tables, id: string, o: Outcome, now: string, other: string)
    requires other in t.jobs && other != id
    ensures other in DbAfter(t, id, o, now).jobs && DbAfter(t, id, o, now).jobs[other] == t.jobs[other]
  {
    var k := if o.Completed? then 3 else Reached(o);
    ProgressedOthers(t, id, k, other);
    if o.Completed? {
      FinishedOthers(Progressed(t, id, 3), id, o.analysisId, o.data, now, other);
    }
  }

  lemma ProgressedOthers(t: Tables, id: string, stages: nat, other: string)
    requires other in t.jobs && other != id
    ensures other in Progressed(t, id, stages).jobs && Progressed(t, id, stages).jobs[other] == t.jobs[other]
  {
    if id in t.jobs && 1 <= stages {
      ProgressedRecord(t, id, if stages <= 3 then stages else 3);
    }
  }

  lemma FinishedOthers(before: Tables, id: string, analysisId: string, data: Value, now: string, other: string)
    requires other in before.jobs && other != id
    ensures other in Finished(before, id, analysisId, data, now).jobs
    ensures Finished(before, id, analysisId, data, now).jobs[other] == before.jobs[other]
  {
    if SaveResult(before, analysisId, data).Some? {
      SavedAnalysis(before, analysisId, data);
    }
  }

  // ---------------------------------------------------------------------
  // Looking a job up and following it

  /** `get_job_status`: a copy of the in-memory entry, else the database
      record, else None. */
  function LookupStatus(results: map<string, Row>, t: Option<Tables>, id: string): (r: Option<Row>)
    ensures id in results ==> r == Some(results[id])
    ensures id !in results ==> (r.Some? <==> t.Some? && id in t.value.jobs)
  {
    if id in results then Some(results[id])
    else if t.Some? then GetJob(t.value, id)
    else None
  }

  /** Once a job is processed, its status is the final entry: completed
      with the analysis id and the data, or failed with the message. */
  lemma StatusAfterJob(results0: map<string, Row>, t: Option<Tables>, id: string, o: Outcome)
    ensures var e := Entries(o);
      LookupStatus(results0[id := e[|e| - 1]], t, id) == Some(Final(o))
  {
    EntriesShape(o);
  }

  const NotFound: Row := [("error", Str("Job not found"))]

  /** The events `generate_progress_events` yields for the statuses its
      successive lookups return, starting from the last progress emitted;
      `stopped` when it has returned. */
  function Events(looks: seq<Option<Row>>, last: Value): (r: (seq<Row>, bool))
    decreases |looks|
  {
    if looks == [] then ([], false)
    else if looks[0].None? || looks[0].value == [] then ([NotFound], true)
    else
      var status := looks[0].value;
      var current := Reported(status);
      var emitted := if current != last then [status] else [];
      if Terminal(status) then (emitted, true)
      else
        var rest := Events(looks[1..], if current != last then current else last);
        (emitted + rest.0, rest.1)
  }

  /** Index of the first lookup that stops the generator, if any. */
  predicate StopsAt(looks: seq<Option<Row>>, k: int) {
    0 <= k < |looks|
    && (looks[k].None? || looks[k].value == [] || Terminal(looks[k].value))
    && forall i :: 0 <= i < k ==> looks[i].Some? && looks[i].value != [] && !Terminal(looks[i].value)
  }

  /** An unknown job yields the single error event. */
  lemma UnknownJobEvents(looks: seq<Option<Row>>, last: Value)
    requires looks != [] && looks[0].None?
    ensures Events(looks, last) == ([NotFound], true)
  {
  }

  /** The generator stops exactly at the first missing or terminal status;
      lookups after it are never made. */
  lemma {:induction false} EventsStop(looks: seq<Option<Row>>, last: Value, k: int, more: seq<Option<Row>>)
    requires StopsAt(looks, k)
    ensures Events(looks, last).1
    ensures Events(looks[..k + 1] + more, last) == Events(looks, last)
    decreases |looks|
  {
    if k > 0 {
      var status := looks[0].value;
      var current := Reported(status);
      var next := if current != last then current else last;
      assert StopsAt(looks[1..], k - 1) by {
        forall i | 0 <= i < k - 1
          ensures looks[1..][i].Some? && looks[1..][i].value != [] && !Terminal(looks[1..][i].value)
        {
          assert looks[1..][i] == looks[i + 1];
        }
      }
      EventsStop(looks[1..], next, k - 1, more);
      var s := looks[..k + 1] + more;
      assert s[0] == looks[0];
      assert s[1..] == looks[1..][..k] + more;
    } else {
      assert (looks[..1] + more)[0] == looks[0];
    }
  }

  /** Each emitted event is a status the lookups returned, in order, and no
      two consecutive ones report the same progress. */
  lemma {:induction false} EventsChangeProgress(looks: seq<Option<Row>>, last: Value)
    requires forall i :: 0 <= i < |looks| ==> looks[i].Some? && looks[i].value != []
    ensures var ev := Events(looks, last).0;
      (forall i :: 0 <= i < |ev| ==> Some(ev[i]) in looks)
      && (ev != [] ==> Reported(ev[0]) != last)
      && (forall i :: 0 < i < |ev| ==> Reported(ev[i]) != Reported(ev[i - 1]))
    decreases |looks|
  {
    if looks != [] {
      var status := looks[0].value;
      var current := Reported(status);
      if !Terminal(status) {
        var next := if current != last then current else last;
        assert forall i :: 0 <= i < |looks[1..]| ==> looks[1..][i] == looks[i + 1];
        EventsChangeProgress(looks[1..], next);
        var ev := Events(looks, last).0;
        var rest := Events(looks[1..], next).0;
        forall i | 0 <= i < |ev|
          ensures Some(ev[i]) in looks
        {
          if current != last && i > 0 {
            assert ev[i] == rest[i - 1];
            assert Some(ev[i]) in looks[1..];
          } else if current == last {
            assert ev[i] == rest[i];
            assert Some(ev[i]) in looks[1..];
          }
        }
      }
    }
  }

  /** Following a job whose every stage is looked up once, the client
      receives every entry the job table went through, then the generator
      stops. */
  lemma {:induction false} FollowingAllStages(entries: seq<Row>, last: Value)
    requires Stream(entries, last)
    ensures Events(Looked(entries), last) == (entries, true)
    decreases |entries|
  {
    if |entries| > 1 {
      var rest := entries[1..];
      assert Looked(entries)[1..] == Looked(rest);
      FollowingAllStages(rest, Reported(entries[0]));
      assert [entries[0]] + rest == entries;
    } else {
      assert [entries[0]] == entries;
    }
  }

  /** Each entry as a lookup result. */
  function Looked(entries: seq<Row>): (looks: seq<Option<Row>>)
    ensures |looks| == |entries|
    ensures forall i :: 0 <= i < |entries| ==> looks[i] == Some(entries[i])
  {
    if entries == [] then [] else [Some(entries[0])] + Looked(entries[1..])
  }

  /** So a client that sees every stage of a job gets one event per stage,
      ending with the completed or failed entry. */
  lemma FollowingAJob(o: Outcome)
    ensures Events(Looked(Entries(o)), Num(-1.0)) == (Entries(o), true)
  {
    EntriesShape(o);
    FollowingAllStages(Entries(o), Num(-1.0));
  }

  // ---------------------------------------------------------------------
  // The objects

  class ProcessingJob {
    const jobId: string
    const filePath: string
    const filename: string
    var status: string
    var progress: int
    var result: Option<Value>
    var error: Option<string>
    var analysisId: Option<string>

    constructor (id: string, path: string, name: string)
      ensures jobId == id && filePath == path && filename == name
      ensures Fields() == JobFields("pending", 0, None, None, None)
    {
      jobId, filePath, filename := id, path, name;
      status, progress, result, error, analysisId := "pending", 0, None, None, None;
    }

    function Fields(): JobFields
      reads this
    {
      JobFields(status, progress, result, error, analysisId)
    }
  }

  /** The module's job table and queue together with one worker's
      processing function and optional database. */
  class BackgroundWorker {
    const processFunc: ProcessFunc
    const db: Database?
    var jobResults: map<string, Row>
    var queue: seq<ProcessingJob>
    /** Every write to the job table, in order. */
    ghost var trace: seq<(string, Row)>

    ghost predicate Valid()
      reads this, db
    {
      db != null ==> db.Valid()
    }

    ghost function DbTables(): Option<Tables>
      reads this, db
    {
      if db == null then None else Some(db.tables)
    }

    constructor (f: ProcessFunc, database: Database?)
      requires database != null ==> database.Valid()
      ensures Valid()
      ensures processFunc == f && db == database
      ensures jobResults == map[] && queue == [] && trace == []
    {
      processFunc, db := f, database;
      jobResults, queue, trace := map[], [], [];
    }

    /** `submit_job`: the job record (which raises on a taken id, leaving
        nothing else changed), the pending entry, and the queued job. */
    method SubmitJob(jobId: string, filePath: string, filename: string, now: string) returns (submitted: bool)
      requires Valid()
      modifies this, db
      ensures Valid()
      ensures submitted <==> old(DbTables()).None? || jobId !in old(DbTables()).value.jobs
      ensures db != null ==> db.tables == if submitted then CreateJob(old(db.tables), jobId, filename, now).value else old(db.tables)
      ensures submitted ==>
        (jobResults == old(jobResults)[jobId := Snapshot("pending", 0)]
         && trace == old(trace) + [(jobId, Snapshot("pending", 0))]
         && |queue| == |old(queue)| + 1 && queue[..|old(queue)|] == old(queue) && fresh(queue[|old(queue)|])
         && queue[|old(queue)|].jobId == jobId && queue[|old(queue)|].filePath == filePath
         && queue[|old(queue)|].filename == filename
         && queue[|old(queue)|].Fields() == JobFields("pending", 0, None, None, None))
      ensures !submitted ==> jobResults == old(jobResults) && queue == old(queue) && trace == old(trace)
    {
      if db != null {
        var ok := db.CreateJobRecord(jobId, filename, now);
        if !ok {
          return false;
        }
      }
      jobResults := jobResults[jobId := Snapshot("pending", 0)];
      trace := trace + [(jobId, Snapshot("pending", 0))];
      var job := new ProcessingJob(jobId, filePath, filename);
      queue := queue + [job];
      return true;
    }

    /** `get_job_status`. */
    method GetJobStatus(jobId: string) returns (status: Option<Row>)
      requires Valid()
      ensures status == LookupStatus(jobResults, DbTables(), jobId)
    {
      if jobId in jobResults {
        return Some(jobResults[jobId]);
      }
      if db != null {
        return GetJob(db.tables, jobId);
      }
      return None;
    }

    /** `_update_job_status`: the job object, the whole table entry, and
        the job record. */
    method UpdateJobStatus(job: ProcessingJob, status: string, progress: int)
      requires Valid()
      modifies this, job, db
      ensures Valid()
      ensures job.Fields() == old(job.Fields()).(status := status, progress := progress)
      ensures jobResults == old(jobResults)[job.jobId := Snapshot(status, progress)]
      ensures trace == old(trace) + [(job.jobId, Snapshot(status, progress))]
      ensures queue == old(queue)
      ensures db != null ==> db.tables == UpdateJobProgress(old(db.tables), job.jobId, progress, status)
    {
      job.status := status;
      job.progress := progress;
      jobResults := jobResults[job.jobId := Snapshot(status, progress)];
      trace := trace + [(job.jobId, Snapshot(status, progress))];
      if db != null {
        db.UpdateJobRecord(job.jobId, progress, status);
      }
    }

    /** The `except` branch of `_process_job`. */
    method Fail(job: ProcessingJob, message: string, now: string)
      requires Valid()
      modifies this, job, db
      ensures Valid()
      ensures job.Fields() == old(job.Fields()).(status := "failed", error := Some(message))
      ensures jobResults == old(jobResults)[job.jobId := FailedEntry(message)]
      ensures trace == old(trace) + [(job.jobId, FailedEntry(message))]
      ensures queue == old(queue)
      ensures db != null ==> db.tables == Storage.FailJob(old(db.tables), job.jobId, message, now)
    {
      job.status := "failed";
      job.error := Some(message);
      jobResults := jobResults[job.jobId := FailedEntry(message)];
      trace := trace + [(job.jobId, FailedEntry(message))];
      if db != null {
        db.FailJobRecord(job.jobId, message, now);
      }
    }

    /** The end of `_process_job` when every stage succeeded. */
    method Complete(job: ProcessingJob, data: Value, analysisId: string, now: string)
      requires Valid()
      modifies this, job, db
      ensures Valid()
      ensures job.Fields() == old(job.Fields()).(status := "completed", progress := 100, result := Some(data),
                                                  analysisId := Some(analysisId))
      ensures jobResults == old(jobResults)[job.jobId := CompletedEntry(analysisId, data)]
      ensures trace == old(trace) + [(job.jobId, CompletedEntry(analysisId, data))]
      ensures queue == old(queue)
      ensures db != null ==> db.tables == CompleteJob(old(db.tables), job.jobId, analysisId, now)
    {
      job.status, job.progress, job.result, job.analysisId := "completed", 100, Some(data), Some(analysisId);
      jobResults := jobResults[job.jobId := CompletedEntry(analysisId, data)];
      trace := trace + [(job.jobId, CompletedEntry(analysisId, data))];
      if db != null {
        db.CompleteJobRecord(job.jobId, analysisId, now);
      }
    }

    /** `_process_job` on a job whose file reads as `read`, with the
        analysis id `uuid4` gives and the message a raising save carries. */
    method ProcessJob(job: ProcessingJob, read: Call<seq<Value>>, analysisId: string, saveError: string, now: string)
      returns (ghost o: Outcome)
      requires Valid()
      modifies this, job, db
      ensures o == JobOutcome(old(DbTables()), job.jobId, job.filename, read, processFunc, analysisId, saveError)
      ensures Tracked(job.jobId, DbAfter(old(StartTables()), job.jobId, o, now), old(jobResults), old(trace), Entries(o))
      ensures job.Fields() == JobAfter(old(job.Fields()), o) && queue == old(queue)
    {
      ghost var t0 := StartTables();
      ghost var results0, trace0 := jobResults, trace;
      Progress(job, 10, t0, results0, trace0, []);
      if read.Raised? {
        o := ReadFailure(job, read.message, now, t0, results0, trace0);
      } else {
        o := ProcessRead(job, read.value, analysisId, saveError, now, t0, results0, trace0);
      }
    }

    /** `_process_job` when reading the file raised: the job fails at 10. */
    method ReadFailure(job: ProcessingJob, message: string, now: string,
                       ghost t0: Tables, ghost results0: map<string, Row>, ghost trace0: seq<(string, Row)>)
      returns (ghost o: Outcome)
      requires Tracked(job.jobId, Progressed(t0, job.jobId, 1), results0, trace0, [Snapshot("processing", 10)])
      requires job.progress == 10
      modifies this, job, db
      ensures o == ReadFailed(message)
      ensures Tracked(job.jobId, DbAfter(t0, job.jobId, o, now), results0, trace0, Entries(o))
      ensures job.Fields() == JobAfter(old(job.Fields()), o) && queue == old(queue)
    {
      o := ReadFailed(message);
      Failure(job, message, now, Progressed(t0, job.jobId, 1), results0, trace0, [Snapshot("processing", 10)]);
      Concluded(o, [Snapshot("processing", 10), FailedEntry(message)]);
    }

    /** `_process_job` from progress 30 on: run the processing function on
        what was read. */
    method ProcessRead(job: ProcessingJob, logs: seq<Value>, analysisId: string, saveError: string, now: string,
                       ghost t0: Tables, ghost results0: map<string, Row>, ghost trace0: seq<(string, Row)>)
      returns (ghost o: Outcome)
      requires Tracked(job.jobId, Progressed(t0, job.jobId, 1), results0, trace0, [Snapshot("processing", 10)])
      modifies this, job, db
      ensures o == AfterRead(if db != null then Some(t0) else None, job.jobId, processFunc(logs, job.filename), analysisId, saveError)
      ensures Tracked(job.jobId, DbAfter(t0, job.jobId, o, now), results0, trace0, Entries(o))
      ensures job.Fields() == JobAfter(old(job.Fields()), o) && queue == old(queue)
    {
      ghost var written := [Snapshot("processing", 10)];
      Progress(job, 30, Progressed(t0, job.jobId, 1), results0, trace0, written);
      assert written + [Snapshot("processing", 30)] == [Snapshot("processing", 10), Snapshot("processing", 30)];
      var result := processFunc(logs, job.filename);
      o := ProcessResult(job, result, analysisId, saveError, now, t0, results0, trace0);
    }

    /** `_process_job` once the processing function has returned or
        raised. */
    method ProcessResult(job: ProcessingJob, result: Call<Value>, analysisId: string, saveError: string, now: string,
                         ghost t0: Tables, ghost results0: map<string, Row>, ghost trace0: seq<(string, Row)>)
      returns (ghost o: Outcome)
      requires Tracked(job.jobId, Progressed(t0, job.jobId, 2), results0, trace0,
                       [Snapshot("processing", 10), Snapshot("processing", 30)])
      requires job.progress == 30
      modifies this, job, db
      ensures o == AfterRead(if db != null then Some(t0) else None, job.jobId, result, analysisId, saveError)
      ensures Tracked(job.jobId, DbAfter(t0, job.jobId, o, now), results0, trace0, Entries(o))
      ensures job.Fields() == JobAfter(old(job.Fields()), o) && queue == old(queue)
    {
      ghost var written := [Snapshot("processing", 10), Snapshot("processing", 30)];
      var message := if result.Raised? then result.message else NoTelemetry;
      if result.Raised? || !PyTruthy(result.value) {
        Failure(job, message, now, Progressed(t0, job.jobId, 2), results0, trace0, written);
        o := ProcessFailed(message);
        Concluded(o, written + [FailedEntry(message)]);
        return;
      }
      var saved := SaveAndComplete(job, result.value, analysisId, saveError, now, t0, results0, trace0);
      if saved {
        o := Completed(analysisId, result.value);
        assert DbAfter(t0, job.jobId, o, now) == Finished(Progressed(t0, job.jobId, 3), job.jobId, analysisId, result.value, now);
      } else {
        o := SaveFailed(saveError);
        assert DbAfter(t0, job.jobId, o, now) == FailJob(Progressed(t0, job.jobId, 3), job.jobId, saveError, now);
      }
    }

    /** `_process_job` from progress 70 on, for a truthy result: the job
        fails when the save raises and completes otherwise. */
    method SaveAndComplete(job: ProcessingJob, data: Value, analysisId: string, saveError: string, now: string,
                           ghost t0: Tables, ghost results0: map<string, Row>, ghost trace0: seq<(string, Row)>)
      returns (saved: bool)
      requires Tracked(job.jobId, Progressed(t0, job.jobId, 2), results0, trace0,
                       [Snapshot("processing", 10), Snapshot("processing", 30)])
      modifies this, job, db
      ensures saved <==> db == null || SaveResult(Progressed(t0, job.jobId, 3), analysisId, data).Some?
      ensures saved ==>
        Tracked(job.jobId, Finished(Progressed(t0, job.jobId, 3), job.jobId, analysisId, data, now), results0, trace0,
                Entries(Completed(analysisId, data)))
        && job.Fields() == JobAfter(old(job.Fields()), Completed(analysisId, data))
      ensures !saved ==>
        Tracked(job.jobId, FailJob(Progressed(t0, job.jobId, 3), job.jobId, saveError, now), results0, trace0,
                Entries(SaveFailed(saveError)))
        && job.Fields() == JobAfter(old(job.Fields()), SaveFailed(saveError))
      ensures queue == old(queue)
    {
      ghost var written := [Snapshot("processing", 10), Snapshot("processing", 30)];
      Progress(job, 70, Progressed(t0, job.jobId, 2), results0, trace0, written);
      assert written + [Snapshot("processing", 70)]
          == [Snapshot("processing", 10), Snapshot("processing", 30), Snapshot("processing", 70)];
      saved := SaveOrFail(job, data, analysisId, saveError, now, Progressed(t0, job.jobId, 3), results0, trace0);
    }

    /** `_process_job` at progress 70: the save, then the failure or the
        rest of the completion. */
    method SaveOrFail(job: ProcessingJob, data: Value, analysisId: string, saveError: string, now: string,
                      ghost before: Tables, ghost results0: map<string, Row>, ghost trace0: seq<(string, Row)>)
      returns (saved: bool)
      requires Tracked(job.jobId, before, results0, trace0,
                       [Snapshot("processing", 10), Snapshot("processing", 30), Snapshot("processing", 70)])
      requires job.progress == 70
      modifies this, job, db
      ensures saved <==> db == null || SaveResult(before, analysisId, data).Some?
      ensures saved ==>
        Tracked(job.jobId, Finished(before, job.jobId, analysisId, data, now), results0, trace0,
                Entries(Completed(analysisId, data)))
        && job.Fields() == JobAfter(old(job.Fields()), Completed(analysisId, data))
      ensures !saved ==>
        Tracked(job.jobId, FailJob(before, job.jobId, saveError, now), results0, trace0, Entries(SaveFailed(saveError)))
        && job.Fields() == JobAfter(old(job.Fields()), SaveFailed(saveError))
      ensures queue == old(queue)
    {
      saved := TrySave(data, analysisId, before);
      if !saved {
        ghost var written := [Snapshot("processing", 10), Snapshot("processing", 30), Snapshot("processing", 70)];
        Failure(job, saveError, now, before, results0, trace0, written);
        Concluded(SaveFailed(saveError), written + [FailedEntry(saveError)]);
        return;
      }
      CompleteSaved(job, data, analysisId, now, before, results0, trace0);
    }

    /** `_process_job` after a save that went through: progress 90, then
        the completion. */
    method CompleteSaved(job: ProcessingJob, data: Value, analysisId: string, now: string, ghost before: Tables,
                         ghost results0: map<string, Row>, ghost trace0: seq<(string, Row)>)
      requires var stored := SaveResult(before, analysisId, data);
        Tracked(job.jobId, if stored.Some? then stored.value else before, results0, trace0,
                [Snapshot("processing", 10), Snapshot("processing", 30), Snapshot("processing", 70)])
      modifies this, job, db
      ensures Tracked(job.jobId, Finished(before, job.jobId, analysisId, data, now), results0, trace0,
                      Entries(Completed(analysisId, data)))
      ensures job.Fields() == JobAfter(old(job.Fields()), Completed(analysisId, data))
      ensures queue == old(queue)
    {
      ghost var stored := if SaveResult(before, analysisId, data).Some? then SaveResult(before, analysisId, data).value else before;
      ghost var written := [Snapshot("processing", 10), Snapshot("processing", 30), Snapshot("processing", 70)];
      Progress(job, 90, stored, results0, trace0, written);
      written := written + [Snapshot("processing", 90)];
      Completion(job, data, analysisId, now, UpdateJobProgress(stored, job.jobId, 90, "processing"), results0, trace0, written);
      Concluded(Completed(analysisId, data), written + [CompletedEntry(analysisId, data)]);
    }

    /** `self.db.save_analysis(analysis_id, result)` when there is a
        database; `saved` is false when it raises. */
    method TrySave(data: Value, analysisId: string, ghost tables: Tables)
      returns (saved: bool)
      requires Valid() && (db != null ==> db.tables == tables)
      modifies db
      ensures Valid()
      ensures saved <==> db == null || SaveResult(tables, analysisId, data).Some?
      ensures db != null ==> db.tables == if saved then SaveResult(tables, analysisId, data).value else tables
    {
      if db == null {
        return true;
      }
      saved := false;
      if data.Obj? {
        saved := db.SaveAnalysis(analysisId, data.fields);
      }
    }

    ghost function StartTables(): Tables
      reads this, db
    {
      if db != null then db.tables else NoTables
    }

    /** How far `_process_job` has got: the database (when there is one)
        holds `tables`, the job table went through the entries `written`
        after the writes `trace0`, and the job's entry in it is the last one
        written. */
    ghost predicate Tracked(id: string, tables: Tables, results0: map<string, Row>, trace0: seq<(string, Row)>,
                            written: seq<Row>)
      reads this, db
    {
      Valid()
      && (db != null ==> db.tables == tables)
      && trace == trace0 + Tagged(id, written)
      && jobResults == if written == [] then results0 else results0[id := written[|written| - 1]]
    }

    /** `_update_job_status(job, 'processing', progress)` as one more step. */
    method Progress(job: ProcessingJob, progress: int, ghost tables: Tables, ghost results0: map<string, Row>,
                    ghost trace0: seq<(string, Row)>, ghost written: seq<Row>)
      requires Tracked(job.jobId, tables, results0, trace0, written)
      modifies this, job, db
      ensures Tracked(job.jobId, UpdateJobProgress(tables, job.jobId, progress, "processing"), results0, trace0,
                      written + [Snapshot("processing", progress)])
      ensures job.Fields() == old(job.Fields()).(status := "processing", progress := progress)
      ensures queue == old(queue)
    {
      UpdateJobStatus(job, "processing", progress);
      TaggedOneMore(job.jobId, written, Snapshot("processing", progress));
      if written != [] {
        Overwritten(results0, job.jobId, written[|written| - 1], Snapshot("processing", progress));
      }
    }

    /** The `except` branch of `_process_job` as the last step. */
    method Failure(job: ProcessingJob, message: string, now: string, ghost tables: Tables,
                   ghost results0: map<string, Row>, ghost trace0: seq<(string, Row)>, ghost written: seq<Row>)
      requires Tracked(job.jobId, tables, results0, trace0, written)
      modifies this, job, db
      ensures Tracked(job.jobId, FailJob(tables, job.jobId, message, now), results0, trace0, written + [FailedEntry(message)])
      ensures job.Fields() == old(job.Fields()).(status := "failed", error := Some(message))
      ensures queue == old(queue)
    {
      Fail(job, message, now);
      TaggedOneMore(job.jobId, written, FailedEntry(message));
      if written != [] {
        Overwritten(results0, job.jobId, written[|written| - 1], FailedEntry(message));
      }
    }

    /** The completion of `_process_job` as the last step. */
    method Completion(job: ProcessingJob, data: Value, analysisId: string, now: string, ghost tables: Tables,
                      ghost results0: map<string, Row>, ghost trace0: seq<(string, Row)>, ghost written: seq<Row>)
      requires Tracked(job.jobId, tables, results0, trace0, written)
      modifies this, job, db
      ensures Tracked(job.jobId, CompleteJob(tables, job.jobId, analysisId, now), results0, trace0,
                      written + [CompletedEntry(analysisId, data)])
      ensures job.Fields() == old(job.Fields()).(status := "completed", progress := 100, result := Some(data),
                                                  analysisId := Some(analysisId))
      ensures queue == old(queue)
    {
      Complete(job, data, analysisId, now);
      TaggedOneMore(job.jobId, written, CompletedEntry(analysisId, data));
      if written != [] {
        Overwritten(results0, job.jobId, written[|written| - 1], CompletedEntry(analysisId, data));
      }
    }
  }

  lemma Overwritten<K, V>(m: map<K, V>, k: K, a: V, b: V)
    ensures m[k := a][k := b] == m[k := b]
  {
  }

  /** The writes `_process_job` made are those of its outcome. */
  lemma Concluded(o: Outcome, written: seq<Row>)
    requires var s10, s30, s70, s90 := Snapshot("processing", 10), Snapshot("processing", 30),
                                       Snapshot("processing", 70), Snapshot("processing", 90);
      match o
      case ReadFailed(m) => written == [s10, FailedEntry(m)]
      case ProcessFailed(m) => written == [s10, s30, FailedEntry(m)]
      case SaveFailed(m) => written == [s10, s30, s70, FailedEntry(m)]
      case Completed(aid, data) => written == [s10, s30, s70, s90, CompletedEntry(aid, data)]
    ensures written == Entries(o)
  {
  }

  /** Table writes for one job, in order. */
  function Tagged(id: string, entries: seq<Row>): seq<(string, Row)>
  {
    if entries == [] then [] else Tagged(id, entries[..|entries| - 1]) + [(id, entries[|entries| - 1])]
  }

  lemma TaggedOneMore(id: string, entries: seq<Row>, e: Row)
    ensures Tagged(id, entries + [e]) == Tagged(id, entries) + [(id, e)]
  {
    assert (entries + [e])[..|entries|] == entries;
  }

  /** The loop invariant: the generator's whole output is what it has
      yielded so far followed by what the lookups from `i` on yield. */
  ghost predicate EventsRemain(goal: (seq<Row>, bool), events: seq<Row>, looks: seq<Option<Row>>, i: nat, last: Value)
    requires i <= |looks|
  {
    var rest := Events(looks[i..], last);
    goal == (events + rest.0, rest.1)
  }

  /** One lookup of the loop: a missing job or a terminal status ends the
      output, any other status continues it from the next lookup. */
  lemma EventsAdvance(goal: (seq<Row>, bool), events: seq<Row>, looks: seq<Option<Row>>, i: nat, last: Value)
    requires i < |looks| && EventsRemain(goal, events, looks, i, last)
    ensures looks[i].None? || looks[i].value == [] ==> goal == (events + [NotFound], true)
    ensures looks[i].Some? && looks[i].value != [] ==>
      var current := Reported(looks[i].value);
      var emitted := if current != last then [looks[i].value] else [];
      (Terminal(looks[i].value) ==> goal == (events + emitted, true))
      && (!Terminal(looks[i].value) ==> EventsRemain(goal, events + emitted, looks, i + 1, if current != last then current else last))
  {
    assert looks[i..][0] == looks[i];
    assert looks[i..][1..] == looks[i + 1..];
    if looks[i].Some? && looks[i].value != [] && !Terminal(looks[i].value) {
      var current := Reported(looks[i].value);
      var emitted := if current != last then [looks[i].value] else [];
      var rest := Events(looks[i + 1..], if current != last then current else last);
      assert (events + emitted) + rest.0 == events + (emitted + rest.0);
    }
  }

  /** `generate_progress_events` over the statuses its successive lookups
      return: the events it yields and whether it returned. */
  method GenerateProgressEvents(looks: seq<Option<Row>>) returns (events: seq<Row>, stopped: bool)
    ensures (events, stopped) == Events(looks, Num(-1.0))
  {
    ghost var goal := Events(looks, Num(-1.0));
    var lastProgress := Num(-1.0);
    events, stopped := [], false;
    var i := 0;
    assert looks[0..] == looks;
    assert events + goal.0 == goal.0;
    while i < |looks|
      invariant 0 <= i <= |looks|
      invariant EventsRemain(goal, events, looks, i, lastProgress)
      decreases |looks| - i
    {
      EventsAdvance(goal, events, looks, i, lastProgress);
      var status := looks[i];
      if status.None? || status.value == [] {
        events := events + [NotFound];
        return events, true;
      }
      var current := Reported(status.value);
      if current != lastProgress {
        events := events + [status.value];
        lastProgress := current;
      } else {
        assert events + [] == events;
      }
      if Terminal(status.value) {
        return events, true;
      }
      i := i + 1;
    }
    assert looks[i..] == [];
    assert events + [] == events;
  }
}
