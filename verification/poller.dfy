/** The poller (dify-batch-processor/poller/main.py): reconciliation of the
    PROCESSING jobs. A job that has sat in PROCESSING longer than the timeout
    is settled from whether its result object exists in the bucket; any
    other job that carries a run id and a workflow id is settled from the
    engine's run status, a failure there marking it FAILED. */
module Poller {
  import opened Basics
  import opened Text
  import opened Shared

  /** The default of `PROCESSING_TIMEOUT_MINUTES`. */
  const DefaultProcessingTimeoutMinutes := 20

  const MicrosPerMinute := 60_000_000

  /** The poller's settings: the timeout in minutes, the result bucket, and
      the two workflow ids the fallback path distinguishes (None when unset). */
  datatype PollerConfig = PollerConfig(timeoutMinutes: int, bucket: string,
                                       passageAnalysisWorkflowId: Option<string>,
                                       passageWorkbookWorkflowId: Option<string>)

  /** What asking the engine for a run's status gives: a raised error (the
      request, `raise_for_status`, decoding or reading the body) with its
      text, or the decoded run with its `status`, its `error` (None when
      missing) and its `str()` rendering. */
  datatype RunStatusReply =
    | StatusError(text: string)
    | RunReply(status: Option<string>, error: Option<string>, rendered: string)

  /** What the status path decides for a job. */
  datatype Decision = Resolve(status: Status, patch: Patch) | Unchanged

  /** The loop's state between jobs: the store, the last fallback object
      name bound (a Python local that survives iterations), and whether an
      uncaught error ended the cycle. */
  datatype Step = Step(store: Store, objectName: Option<string>, aborted: bool)

  /** A poll cycle's effect: the store after and the reply. */
  datatype PollOutcome = PollOutcome(store: Store, reply: Reply)

  /** A stored timestamp as UTC microseconds: a naive one is read as UTC. */
  function ToUtc(t: Stamp): int {
    match t.offsetMinutes
    case None => t.micros
    case Some(offset) => t.micros - offset * MicrosPerMinute
  }

  /** A naive timestamp names the same instant as the aware UTC one, and a
      wall clock at any offset is moved back to UTC by that offset. */
  lemma NaiveIsUtc(micros: int, offset: int)
    ensures ToUtc(Stamp(micros, None)) == ToUtc(Stamp(micros, Some(0))) == micros
    ensures ToUtc(Stamp(micros + offset * MicrosPerMinute, Some(offset))) == micros
  {
  }

  /** The strict timeout test: more than `timeoutMinutes` since the stored
      timestamp; a job without one never times out. */
  predicate TimedOut(r: Record, now: int, timeoutMinutes: int) {
    r.timestamp.Some? && now - ToUtc(r.timestamp.value) > timeoutMinutes * MicrosPerMinute
  }

  /** The test is strict: exactly the timeout has not timed out, one
      microsecond more has. */
  lemma TimeoutStrict(r: Record, timeoutMinutes: int)
    requires r.timestamp.Some?
    ensures !TimedOut(r, ToUtc(r.timestamp.value) + timeoutMinutes * MicrosPerMinute, timeoutMinutes)
    ensures TimedOut(r, ToUtc(r.timestamp.value) + timeoutMinutes * MicrosPerMinute + 1, timeoutMinutes)
  {
  }

  /** An f-string field of the job's payload: `job_data.get(name)`, where the
      payload of a job without `data` is the empty object. */
  function PayloadField(data: Option<Inputs>, name: string): (v: string)
    ensures data.None? || name !in data.value ==> v == "None"
  {
    if data.Some? && name in data.value then Render(data.value[name]) else "None"
  }

  function AnalysisPath(data: Option<Inputs>): string {
    "passage_analysis/" + PayloadField(data, "passageGroupId") + "/result.json"
  }

  function WorkbookPath(data: Option<Inputs>): string {
    "passage-workbook/" + PayloadField(data, "passageGroupId") + "/" + PayloadField(data, "passageId") + "/result.json"
  }

  /** The fallback object name as the source has it: the first `case` is the
      passage-analysis id; the second reads a setting the configuration does
      not define, which raises, so every other workflow id ends the cycle
      (None). */
  function FallbackPathAsWritten(cfg: PollerConfig, workflowId: Option<string>, data: Option<Inputs>): (p: Option<string>)
    ensures p.Some? <==> workflowId == cfg.passageAnalysisWorkflowId
    ensures p.Some? ==> p.value == AnalysisPath(data)
  {
    if workflowId == cfg.passageAnalysisWorkflowId then Some(AnalysisPath(data)) else None
  }

  /** The fallback object name with the workbook case reading the
      configured workbook id. A workflow id matching neither binds nothing,
      so the name bound for an earlier job in the cycle is used, and with
      none bound yet the cycle ends (None). */
  function FallbackPath(cfg: PollerConfig, workflowId: Option<string>, data: Option<Inputs>,
                        previous: Option<string>): (p: Option<string>)
    ensures workflowId == cfg.passageAnalysisWorkflowId ==> p == Some(AnalysisPath(data))
    ensures workflowId != cfg.passageAnalysisWorkflowId && workflowId == cfg.passageWorkbookWorkflowId ==>
              p == Some(WorkbookPath(data))
    ensures workflowId != cfg.passageAnalysisWorkflowId && workflowId != cfg.passageWorkbookWorkflowId ==>
              p == previous
  {
    if workflowId == cfg.passageAnalysisWorkflowId then Some(AnalysisPath(data))
    else if workflowId == cfg.passageWorkbookWorkflowId then Some(WorkbookPath(data))
    else previous
  }

  /** Which fallback matcher a poll cycle runs: the code as written, or the
      corrected one. */
  datatype Matcher = AsWritten | Corrected

  /** The fallback object name a timed-out job is settled from; None ends
      the cycle. */
  function ObjectName(m: Matcher, cfg: PollerConfig, workflowId: Option<string>, data: Option<Inputs>,
                      previous: Option<string>): (p: Option<string>)
    ensures workflowId == cfg.passageAnalysisWorkflowId ==> p == Some(AnalysisPath(data))
    ensures m == AsWritten && workflowId != cfg.passageAnalysisWorkflowId ==> p.None?
    ensures m == Corrected ==> p == FallbackPath(cfg, workflowId, data, previous)
  {
    match m
    case AsWritten => FallbackPathAsWritten(cfg, workflowId, data)
    case Corrected => FallbackPath(cfg, workflowId, data, previous)
  }

  /** A workbook job that times out ends the whole cycle as written, where
      the workbook path was meant. */
  lemma WorkbookFallbackAsWritten(cfg: PollerConfig, data: Option<Inputs>, previous: Option<string>)
    requires cfg.passageWorkbookWorkflowId.Some?
    requires cfg.passageWorkbookWorkflowId != cfg.passageAnalysisWorkflowId
    ensures FallbackPathAsWritten(cfg, cfg.passageWorkbookWorkflowId, data).None?
    ensures FallbackPath(cfg, cfg.passageWorkbookWorkflowId, data, previous) == Some(WorkbookPath(data))
  {
  }

  /** An instance: analysis id "wf-a", workbook id "wf-b", a job of "wf-b"
      for passage group 7, passage 3. */
  lemma WorkbookFallbackExample()
    ensures var cfg := PollerConfig(20, "bucket", Some("wf-a"), Some("wf-b"));
            var data := Some(map["passageGroupId" := Some("7"), "passageId" := Some("3")]);
            && FallbackPathAsWritten(cfg, Some("wf-b"), data).None?
            && FallbackPath(cfg, Some("wf-b"), data, None) == Some("passage-workbook/7/3/result.json")
  {
    var data := Some(map["passageGroupId" := Some("7"), "passageId" := Some("3")]);
    assert PayloadField(data, "passageGroupId") == "7";
    assert PayloadField(data, "passageId") == "3";
    assert WorkbookPath(data) == "passage-workbook/7/3/result.json";
  }

  /** The message stored for a timed-out job whose object is missing. */
  function TimeoutMessage(timeoutMinutes: int): string {
    "Job timed out in poller after " + IntToString(timeoutMinutes) + " minute(s)."
  }

  /** The status path for a job with a run id and a workflow id: a missing
      key or any raised error is FAILED with "Polling failed: ...";
      `succeeded` and `partial-succeeded` are SUCCESS with the rendered run;
      `failed` is FAILED with the run's error (default "Dify workflow
      failed.") and the rendered run; any other status leaves the job. */
  function RunDecision(keys: ApiKeys, workflowId: string, runId: string,
                       runStatus: (string, string) -> RunStatusReply): (d: Decision)
    ensures d.Resolve? ==> d.status == Success || d.status == Failed
    ensures !Truthy(KeyFor(keys, Some(workflowId))) ==>
              d == Resolve(Failed, Patch(None, Some("Polling failed: No API key found for workflow_id: " + workflowId)))
  {
    var key := KeyFor(keys, Some(workflowId));
    if !Truthy(key) then
      Resolve(Failed, Patch(None, Some("Polling failed: No API key found for workflow_id: " + workflowId)))
    else
      match runStatus(runId, key.value)
      case StatusError(text) => Resolve(Failed, Patch(None, Some("Polling failed: " + text)))
      case RunReply(status, error, rendered) =>
        if status == Some("succeeded") || status == Some("partial-succeeded") then
          Resolve(Success, Patch(Some(rendered), None))
        else if status == Some("failed") then
          Resolve(Failed, Patch(Some(rendered), Some(error.GetOr("Dify workflow failed."))))
        else Unchanged
  }

  /** The engine-status mapping with a key present, case by case: a run
      status of `succeeded` or `partial-succeeded` and nothing else gives
      SUCCESS, `failed` gives FAILED, and exactly the other statuses leave
      the job. */
  lemma RunStatusMapping(keys: ApiKeys, workflowId: string, runId: string,
                         runStatus: (string, string) -> RunStatusReply)
    requires Truthy(KeyFor(keys, Some(workflowId)))
    ensures var reply := runStatus(runId, keys[workflowId]);
            var d := RunDecision(keys, workflowId, runId, runStatus);
            && (reply.StatusError? ==> d == Resolve(Failed, Patch(None, Some("Polling failed: " + reply.text))))
            && (reply.RunReply? ==>
                  && (d == Resolve(Success, Patch(Some(reply.rendered), None)) <==>
                        reply.status == Some("succeeded") || reply.status == Some("partial-succeeded"))
                  && (reply.status == Some("failed") ==>
                        d == Resolve(Failed, Patch(Some(reply.rendered), Some(reply.error.GetOr("Dify workflow failed.")))))
                  && (d == Unchanged <==>
                        reply.status !in {Some("succeeded"), Some("partial-succeeded"), Some("failed")}))
  {
  }

  /** One PROCESSING job, decided from its record as the query returned it
      (`job`) and applied to the current store; a timed-out job whose
      fallback object name is None ends the cycle. */
  function PollJob(m: Matcher, cfg: PollerConfig, keys: ApiKeys, now: int, id: string, job: Record, st: Step,
                   objectExists: string -> bool, runStatus: (string, string) -> RunStatusReply,
                   writeFails: string -> bool): (s: Step)
    requires !st.aborted
    ensures forall other :: other != id ==> (other in s.store <==> other in st.store)
    ensures forall other :: other != id && other in st.store ==> s.store[other] == st.store[other]
    ensures id in st.store ==> id in s.store
    ensures id in s.store && (id !in st.store || s.store[id] != st.store[id]) ==>
              s.store[id].status == Success || s.store[id].status == Failed
    ensures s.aborted ==> s.store == st.store
    ensures s.aborted <==>
              TimedOut(job, now, cfg.timeoutMinutes) && ObjectName(m, cfg, job.workflowId, job.data, st.objectName).None?
  {
    if TimedOut(job, now, cfg.timeoutMinutes) then
      match ObjectName(m, cfg, job.workflowId, job.data, st.objectName)
      case None => Step(st.store, None, true)
      case Some(path) =>
        if objectExists(path) then
          var note := "Found s3://" + cfg.bucket + "/" + path;
          Step(UpdateDatastore(st.store, id, Success, now, Patch(None, Some(note)), writeFails(id)), Some(path), false)
        else
          var note := TimeoutMessage(cfg.timeoutMinutes);
          Step(UpdateDatastore(st.store, id, Failed, now, Patch(None, Some(note)), writeFails(id)), Some(path), false)
    else if !Truthy(job.workflowRunId) || !Truthy(job.workflowId) then st
    else
      match RunDecision(keys, job.workflowId.value, job.workflowRunId.value, runStatus)
      case Unchanged => st
      case Resolve(status, patch) => Step(UpdateDatastore(st.store, id, status, now, patch, writeFails(id)), st.objectName, false)
  }

  /** A timed-out job is settled from the bucket alone, never from the
      engine: SUCCESS with the object's location when the fallback object
      objectExists and FAILED with the timeout message when not. */
  lemma TimedOutJob(m: Matcher, cfg: PollerConfig, keys: ApiKeys, now: int, id: string, job: Record, st: Step,
                    objectExists: string -> bool, runStatus: (string, string) -> RunStatusReply,
                    otherStatus: (string, string) -> RunStatusReply, writeFails: string -> bool)
    requires !st.aborted && TimedOut(job, now, cfg.timeoutMinutes)
    requires ObjectName(m, cfg, job.workflowId, job.data, st.objectName).Some?
    requires !writeFails(id)
    ensures var path := ObjectName(m, cfg, job.workflowId, job.data, st.objectName).value;
            var s := PollJob(m, cfg, keys, now, id, job, st, objectExists, runStatus, writeFails);
            && s == PollJob(m, cfg, keys, now, id, job, st, objectExists, otherStatus, writeFails)
            && !s.aborted && s.objectName == Some(path)
            && (s.store[id].status == Success <==> objectExists(path))
            && (objectExists(path) ==> s.store[id].message == Some("Found s3://" + cfg.bucket + "/" + path))
            && (!objectExists(path) ==>
                  s.store[id].status == Failed && s.store[id].message == Some(TimeoutMessage(cfg.timeoutMinutes)))
  {
  }

  /** A job that has not timed out and lacks a run id or a workflow id is
      skipped. */
  lemma SkippedJob(m: Matcher, cfg: PollerConfig, keys: ApiKeys, now: int, id: string, job: Record, st: Step,
                   objectExists: string -> bool, runStatus: (string, string) -> RunStatusReply, writeFails: string -> bool)
    requires !st.aborted && !TimedOut(job, now, cfg.timeoutMinutes)
    requires !Truthy(job.workflowRunId) || !Truthy(job.workflowId)
    ensures PollJob(m, cfg, keys, now, id, job, st, objectExists, runStatus, writeFails) == st
  {
  }

  /** The scan: jobs in query order, each decided from its queried record,
      until an uncaught error ends it. */
  function PollJobs(m: Matcher, cfg: PollerConfig, keys: ApiKeys, now: int, snapshot: Store, jobs: seq<string>, st: Step,
                    objectExists: string -> bool, runStatus: (string, string) -> RunStatusReply,
                    writeFails: string -> bool): (s: Step)
    requires forall i :: 0 <= i < |jobs| ==> jobs[i] in snapshot
    decreases |jobs|
    ensures st.aborted ==> s == st
    ensures forall id :: id !in jobs ==> (id in s.store <==> id in st.store)
    ensures forall id :: id !in jobs && id in st.store ==> s.store[id] == st.store[id]
    ensures forall id :: id in st.store ==> id in s.store
    ensures forall id :: id in s.store && (id !in st.store || s.store[id] != st.store[id]) ==>
              s.store[id].status == Success || s.store[id].status == Failed
  {
    if |jobs| == 0 || st.aborted then st
    else
      var next := PollJob(m, cfg, keys, now, jobs[0], snapshot[jobs[0]], st, objectExists, runStatus, writeFails);
      var s := PollJobs(m, cfg, keys, now, snapshot, jobs[1..], next, objectExists, runStatus, writeFails);
      assert forall id :: id in jobs <==> id == jobs[0] || id in jobs[1..];
      s
  }

  /** An error on the status path marks the job FAILED and the scan goes
      on: only a timed-out job without a fallback object name ends the
      cycle early. */
  lemma {:induction false} AbortNeedsTimeout(m: Matcher, cfg: PollerConfig, keys: ApiKeys, now: int, snapshot: Store,
                                             jobs: seq<string>, st: Step, objectExists: string -> bool,
                                             runStatus: (string, string) -> RunStatusReply, writeFails: string -> bool)
    requires forall i :: 0 <= i < |jobs| ==> jobs[i] in snapshot
    requires !st.aborted
    decreases |jobs|
    ensures (forall i :: 0 <= i < |jobs| ==> !TimedOut(snapshot[jobs[i]], now, cfg.timeoutMinutes)) ==>
              !PollJobs(m, cfg, keys, now, snapshot, jobs, st, objectExists, runStatus, writeFails).aborted
  {
    if |jobs| > 0 && !TimedOut(snapshot[jobs[0]], now, cfg.timeoutMinutes) {
      var next := PollJob(m, cfg, keys, now, jobs[0], snapshot[jobs[0]], st, objectExists, runStatus, writeFails);
      AbortNeedsTimeout(m, cfg, keys, now, snapshot, jobs[1..], next, objectExists, runStatus, writeFails);
    }
  }

  /** As written, a job's outcome does not depend on the jobs scanned
      before it: only its own record in the store is read. */
  lemma PollJobLocal(cfg: PollerConfig, keys: ApiKeys, now: int, id: string, job: Record, st1: Step, st2: Step,
                     objectExists: string -> bool, runStatus: (string, string) -> RunStatusReply,
                     writeFails: string -> bool)
    requires !st1.aborted && !st2.aborted
    requires id in st1.store && id in st2.store && st1.store[id] == st2.store[id]
    ensures PollJob(AsWritten, cfg, keys, now, id, job, st1, objectExists, runStatus, writeFails).store[id]
            == PollJob(AsWritten, cfg, keys, now, id, job, st2, objectExists, runStatus, writeFails).store[id]
  {
    if TimedOut(job, now, cfg.timeoutMinutes) {
      var p := ObjectName(AsWritten, cfg, job.workflowId, job.data, st1.objectName);
      assert p == ObjectName(AsWritten, cfg, job.workflowId, job.data, st2.objectName);
      if p.Some? {
        var note := "Found s3://" + cfg.bucket + "/" + p.value;
        UpdateAt(st1.store, st2.store, id, Success, now, Patch(None, Some(note)), writeFails(id));
        UpdateAt(st1.store, st2.store, id, Failed, now, Patch(None, Some(TimeoutMessage(cfg.timeoutMinutes))), writeFails(id));
      }
    } else if Truthy(job.workflowRunId) && Truthy(job.workflowId) {
      var d := RunDecision(keys, job.workflowId.value, job.workflowRunId.value, runStatus);
      if d.Resolve? {
        UpdateAt(st1.store, st2.store, id, d.status, now, d.patch, writeFails(id));
      }
    }
  }

  /** A write's effect on its own id reads only that id's record. */
  lemma UpdateAt(s1: Store, s2: Store, id: string, status: Status, now: int, patch: Patch, fails: bool)
    requires id in s1 && id in s2 && s1[id] == s2[id]
    ensures UpdateDatastore(s1, id, status, now, patch, fails)[id] == UpdateDatastore(s2, id, status, now, patch, fails)[id]
  {
    assert Lookup(s1, id) == Lookup(s2, id);
  }

  /** The scan as written goes on past every job: with no id listed twice
      and every timed-out job of the passage-analysis workflow, the scan
      does not end early and every job ends as `PollJob` leaves it from the
      step the scan began with. */
  lemma {:induction false} PollJobsEach(cfg: PollerConfig, keys: ApiKeys, now: int, snapshot: Store, jobs: seq<string>,
                                        st: Step, objectExists: string -> bool,
                                        runStatus: (string, string) -> RunStatusReply, writeFails: string -> bool)
    requires NoDuplicates(jobs) && !st.aborted
    requires forall i :: 0 <= i < |jobs| ==> jobs[i] in snapshot && jobs[i] in st.store
    requires forall i :: 0 <= i < |jobs| && TimedOut(snapshot[jobs[i]], now, cfg.timeoutMinutes) ==>
               snapshot[jobs[i]].workflowId == cfg.passageAnalysisWorkflowId
    decreases |jobs|
    ensures var s := PollJobs(AsWritten, cfg, keys, now, snapshot, jobs, st, objectExists, runStatus, writeFails);
            && !s.aborted
            && forall i :: 0 <= i < |jobs| ==>
                 s.store[jobs[i]]
                 == PollJob(AsWritten, cfg, keys, now, jobs[i], snapshot[jobs[i]], st, objectExists, runStatus, writeFails).store[jobs[i]]
  {
    if |jobs| > 0 {
      var next := PollJob(AsWritten, cfg, keys, now, jobs[0], snapshot[jobs[0]], st, objectExists, runStatus, writeFails);
      assert !next.aborted;
      var rest := jobs[1..];
      assert forall i :: 1 <= i < |jobs| ==> rest[i - 1] == jobs[i];
      assert NoDuplicates(rest);
      assert jobs[0] !in rest;
      assert forall i :: 0 <= i < |rest| ==> rest[i] in next.store;
      PollJobsEach(cfg, keys, now, snapshot, rest, next, objectExists, runStatus, writeFails);
      var s := PollJobs(AsWritten, cfg, keys, now, snapshot, rest, next, objectExists, runStatus, writeFails);
      assert s == PollJobs(AsWritten, cfg, keys, now, snapshot, jobs, st, objectExists, runStatus, writeFails);
      forall i | 1 <= i < |jobs|
        ensures s.store[jobs[i]]
                == PollJob(AsWritten, cfg, keys, now, jobs[i], snapshot[jobs[i]], st, objectExists, runStatus, writeFails).store[jobs[i]]
      {
        assert rest[i - 1] == jobs[i] && jobs[i] != jobs[0];
        PollJobLocal(cfg, keys, now, jobs[i], snapshot[jobs[i]], next, st, objectExists, runStatus, writeFails);
      }
    }
  }

  /** The poller's `main`. Without a key table it answers 500 before
      querying; a failing query or an uncaught error in the scan answers
      500, keeping the writes made before it. */
  function PollCycle(m: Matcher, store: Store, order: seq<string>, cfg: PollerConfig, keys: Option<ApiKeys>, now: int,
                     objectExists: string -> bool, runStatus: (string, string) -> RunStatusReply,
                     writeFails: string -> bool, queryFails: bool): (out: PollOutcome)
    ensures !Configured(keys) ==>
              out == PollOutcome(store, Reply("Internal Server Error: Service is not configured.", 500))
    ensures out.store.Keys == store.Keys
    ensures forall id :: id in store && out.store[id] != store[id] ==>
              store[id].status == Processing && (out.store[id].status == Success || out.store[id].status == Failed)
    ensures Configured(keys) && !queryFails && |Query(store, Processing, order)| == 0 ==>
              out == PollOutcome(store, Reply("No jobs to process.", 200))
    ensures out.reply.code == 200 && |Query(store, Processing, order)| > 0 ==>
              out.reply.message == "Polled " + NatToString(|Query(store, Processing, order)|) + " jobs."
    ensures Configured(keys) && !queryFails &&
            (forall i :: 0 <= i < |Query(store, Processing, order)| ==>
               !TimedOut(store[Query(store, Processing, order)[i]], now, cfg.timeoutMinutes)) ==>
              out.reply.code == 200
  {
    if !Configured(keys) then PollOutcome(store, Reply("Internal Server Error: Service is not configured.", 500))
    else if queryFails then PollOutcome(store, Reply("Internal Server Error", 500))
    else
      var jobs := Query(store, Processing, order);
      if |jobs| == 0 then PollOutcome(store, Reply("No jobs to process.", 200))
      else
        var s := PollJobs(m, cfg, keys.value, now, store, jobs, Step(store, None, false), objectExists, runStatus, writeFails);
        assert forall id :: id in store && id !in jobs ==> s.store[id] == store[id];
        AbortNeedsTimeout(m, cfg, keys.value, now, store, jobs, Step(store, None, false), objectExists, runStatus, writeFails);
        PollOutcome(s.store, if s.aborted then Reply("Internal Server Error", 500)
                             else Reply("Polled " + NatToString(|jobs|) + " jobs.", 200))
  }

  /** A scan of one job is that job's step. */
  lemma PollJobsSingle(m: Matcher, cfg: PollerConfig, keys: ApiKeys, now: int, snapshot: Store, job: string, st: Step,
                       objectExists: string -> bool, runStatus: (string, string) -> RunStatusReply,
                       writeFails: string -> bool)
    requires job in snapshot && !st.aborted
    ensures PollJobs(m, cfg, keys, now, snapshot, [job], st, objectExists, runStatus, writeFails)
            == PollJob(m, cfg, keys, now, job, snapshot[job], st, objectExists, runStatus, writeFails)
  {
    assert [job][1..] == [];
  }

  /** A cycle with PROCESSING jobs is the scan of them from the unchanged
      store, answering 500 when it ended early. */
  lemma PollCycleScan(m: Matcher, store: Store, order: seq<string>, cfg: PollerConfig, keys: Option<ApiKeys>, now: int,
                      objectExists: string -> bool, runStatus: (string, string) -> RunStatusReply,
                      writeFails: string -> bool)
    requires Configured(keys) && |Query(store, Processing, order)| > 0
    ensures var jobs := Query(store, Processing, order);
            var s := PollJobs(m, cfg, keys.value, now, store, jobs, Step(store, None, false), objectExists, runStatus, writeFails);
            var out := PollCycle(m, store, order, cfg, keys, now, objectExists, runStatus, writeFails, false);
            && out.store == s.store
            && out.reply == (if s.aborted then Reply("Internal Server Error", 500)
                             else Reply("Polled " + NatToString(|jobs|) + " jobs.", 200))
  {
  }

  /** The poll cycle as written, over a duplicate-free query order in which
      every timed-out PROCESSING job is of the passage-analysis workflow:
      it answers "Polled N jobs." and each PROCESSING job ends as `PollJob`
      leaves it from the store the cycle read. */
  lemma PollCycleEach(store: Store, order: seq<string>, cfg: PollerConfig, keys: Option<ApiKeys>, now: int,
                      objectExists: string -> bool, runStatus: (string, string) -> RunStatusReply,
                      writeFails: string -> bool)
    requires Configured(keys) && NoDuplicates(order) && |Query(store, Processing, order)| > 0
    requires forall id :: id in Query(store, Processing, order) && TimedOut(store[id], now, cfg.timeoutMinutes) ==>
               store[id].workflowId == cfg.passageAnalysisWorkflowId
    ensures var out := PollCycle(AsWritten, store, order, cfg, keys, now, objectExists, runStatus, writeFails, false);
            && out.reply == Reply("Polled " + NatToString(|Query(store, Processing, order)|) + " jobs.", 200)
            && forall id :: id in Query(store, Processing, order) ==>
                 out.store[id]
                 == PollJob(AsWritten, cfg, keys.value, now, id, store[id], Step(store, None, false),
                            objectExists, runStatus, writeFails).store[id]
  {
    var jobs := Query(store, Processing, order);
    var st := Step(store, None, false);
    QueryNoDuplicates(store, Processing, order);
    PollJobsEach(cfg, keys.value, now, store, jobs, st, objectExists, runStatus, writeFails);
    PollCycleScan(AsWritten, store, order, cfg, keys, now, objectExists, runStatus, writeFails);
    forall id | id in jobs
      ensures PollCycle(AsWritten, store, order, cfg, keys, now, objectExists, runStatus, writeFails, false).store[id]
              == PollJob(AsWritten, cfg, keys.value, now, id, store[id], st, objectExists, runStatus, writeFails).store[id]
    {
      var i :| 0 <= i < |jobs| && jobs[i] == id;
    }
  }

  /** In the corrected code a fallback object name outlives its job: a
      timed-out job whose workflow id matches neither setting, scanned after
      a timed-out passage-analysis job, is settled from the earlier job's
      object. */
  lemma {:induction false} StaleObjectName(cfg: PollerConfig, keys: ApiKeys, now: int, snapshot: Store, first: string,
                                           second: string, st: Step, objectExists: string -> bool,
                                           runStatus: (string, string) -> RunStatusReply, writeFails: string -> bool)
    requires first in snapshot && second in snapshot && first != second && second in st.store
    requires !st.aborted
    requires TimedOut(snapshot[first], now, cfg.timeoutMinutes) && TimedOut(snapshot[second], now, cfg.timeoutMinutes)
    requires snapshot[first].workflowId == cfg.passageAnalysisWorkflowId
    requires snapshot[second].workflowId != cfg.passageAnalysisWorkflowId
    requires snapshot[second].workflowId != cfg.passageWorkbookWorkflowId
    requires !writeFails(second)
    ensures var s := PollJobs(Corrected, cfg, keys, now, snapshot, [first, second], st, objectExists, runStatus, writeFails);
            && !s.aborted
            && (s.store[second].status == Success <==> objectExists(AnalysisPath(snapshot[first].data)))
  {
    var next := PollJob(Corrected, cfg, keys, now, first, snapshot[first], st, objectExists, runStatus, writeFails);
    assert next.objectName == Some(AnalysisPath(snapshot[first].data)) && !next.aborted;
    assert [first, second][1..] == [second];
    PollJobsSingle(Corrected, cfg, keys, now, snapshot, second, next, objectExists, runStatus, writeFails);
  }

  /** A PROCESSING job that has not timed out, has a run id, a workflow id
      and a key, and whose run the engine reports `succeeded` becomes
      SUCCESS, and no other job changes. */
  lemma {:induction false} RunSucceededScenario(m: Matcher, store: Store, order: seq<string>, cfg: PollerConfig, keys: Option<ApiKeys>,
                                                now: int, job: string, objectExists: string -> bool,
                                                runStatus: (string, string) -> RunStatusReply, writeFails: string -> bool)
    requires Configured(keys) && Query(store, Processing, order) == [job]
    requires !TimedOut(store[job], now, cfg.timeoutMinutes)
    requires Truthy(store[job].workflowRunId) && Truthy(store[job].workflowId)
    requires Truthy(KeyFor(keys.value, store[job].workflowId))
    requires runStatus(store[job].workflowRunId.value, keys.value[store[job].workflowId.value]).RunReply?
    requires runStatus(store[job].workflowRunId.value, keys.value[store[job].workflowId.value]).status == Some("succeeded")
    requires !writeFails(job)
    ensures var out := PollCycle(m, store, order, cfg, keys, now, objectExists, runStatus, writeFails, false);
            && out.store[job].status == Success
            && (forall other :: other in store && other != job ==> out.store[other] == store[other])
            && out.reply == Reply("Polled 1 jobs.", 200)
  {
    var st := Step(store, None, false);
    PollCycleScan(m, store, order, cfg, keys, now, objectExists, runStatus, writeFails);
    PollJobsSingle(m, cfg, keys.value, now, store, job, st, objectExists, runStatus, writeFails);
    RunStatusMapping(keys.value, store[job].workflowId.value, store[job].workflowRunId.value, runStatus);
    assert NatToString(1) == "1";
  }

  /** A PROCESSING job stamped 31 minutes ago under a 30-minute timeout,
      whose fallback object is missing, becomes FAILED with the timeout
      message whatever the engine would have said. */
  lemma {:induction false} TimedOutScenario(m: Matcher, store: Store, order: seq<string>, cfg: PollerConfig, keys: Option<ApiKeys>,
                                            now: int, job: string, objectExists: string -> bool,
                                            runStatus: (string, string) -> RunStatusReply,
                                            otherStatus: (string, string) -> RunStatusReply, writeFails: string -> bool)
    requires Configured(keys) && Query(store, Processing, order) == [job]
    requires cfg.timeoutMinutes == 30
    requires store[job].timestamp == Some(Stamp(now - 31 * MicrosPerMinute, None))
    requires ObjectName(m, cfg, store[job].workflowId, store[job].data, None).Some?
    requires !objectExists(ObjectName(m, cfg, store[job].workflowId, store[job].data, None).value)
    requires !writeFails(job)
    ensures var out := PollCycle(m, store, order, cfg, keys, now, objectExists, runStatus, writeFails, false);
            && out == PollCycle(m, store, order, cfg, keys, now, objectExists, otherStatus, writeFails, false)
            && out.store[job].status == Failed
            && out.store[job].message == Some("Job timed out in poller after 30 minute(s).")
            && (forall other :: other in store && other != job ==> out.store[other] == store[other])
  {
    var st := Step(store, None, false);
    assert TimedOut(store[job], now, cfg.timeoutMinutes);
    PollCycleScan(m, store, order, cfg, keys, now, objectExists, runStatus, writeFails);
    PollCycleScan(m, store, order, cfg, keys, now, objectExists, otherStatus, writeFails);
    PollJobsSingle(m, cfg, keys.value, now, store, job, st, objectExists, runStatus, writeFails);
    PollJobsSingle(m, cfg, keys.value, now, store, job, st, objectExists, otherStatus, writeFails);
    TimedOutJob(m, cfg, keys.value, now, job, store[job], st, objectExists, runStatus, otherStatus, writeFails);
    ThirtyMinuteMessage();
  }

  /** A cycle whose one PROCESSING job is a timed-out passage-workbook job
      with no result object: as written the cycle answers 500 and writes
      nothing, and the job stays PROCESSING for every later cycle; with the
      corrected matcher the job is marked FAILED with the timeout message. */
  lemma {:induction false} WorkbookTimeoutCycle(store: Store, order: seq<string>, cfg: PollerConfig, keys: Option<ApiKeys>,
                                                now: int, job: string, objectExists: string -> bool,
                                                runStatus: (string, string) -> RunStatusReply, writeFails: string -> bool)
    requires Configured(keys) && Query(store, Processing, order) == [job]
    requires TimedOut(store[job], now, cfg.timeoutMinutes)
    requires store[job].workflowId == cfg.passageWorkbookWorkflowId
    requires cfg.passageWorkbookWorkflowId != cfg.passageAnalysisWorkflowId
    requires !objectExists(WorkbookPath(store[job].data))
    requires !writeFails(job)
    ensures PollCycle(AsWritten, store, order, cfg, keys, now, objectExists, runStatus, writeFails, false)
            == PollOutcome(store, Reply("Internal Server Error", 500))
    ensures var out := PollCycle(Corrected, store, order, cfg, keys, now, objectExists, runStatus, writeFails, false);
            && out.store[job].status == Failed
            && out.store[job].message == Some(TimeoutMessage(cfg.timeoutMinutes))
            && (forall other :: other in store && other != job ==> out.store[other] == store[other])
            && out.reply == Reply("Polled 1 jobs.", 200)
  {
    SingleJobCycle(AsWritten, store, order, cfg, keys, now, job, objectExists, runStatus, writeFails);
    SingleJobCycle(Corrected, store, order, cfg, keys, now, job, objectExists, runStatus, writeFails);
    TimedOutJob(Corrected, cfg, keys.value, now, job, store[job], Step(store, None, false), objectExists, runStatus,
                runStatus, writeFails);
    assert NatToString(1) == "1";
  }

  /** A cycle with one PROCESSING job is that job's step from the store the
      cycle read. */
  lemma SingleJobCycle(m: Matcher, store: Store, order: seq<string>, cfg: PollerConfig, keys: Option<ApiKeys>,
                       now: int, job: string, objectExists: string -> bool,
                       runStatus: (string, string) -> RunStatusReply, writeFails: string -> bool)
    requires Configured(keys) && Query(store, Processing, order) == [job]
    ensures var s := PollJob(m, cfg, keys.value, now, job, store[job], Step(store, None, false),
                             objectExists, runStatus, writeFails);
            var out := PollCycle(m, store, order, cfg, keys, now, objectExists, runStatus, writeFails, false);
            && out.store == s.store
            && out.reply == (if s.aborted then Reply("Internal Server Error", 500) else Reply("Polled 1 jobs.", 200))
  {
    PollCycleScan(m, store, order, cfg, keys, now, objectExists, runStatus, writeFails);
    PollJobsSingle(m, cfg, keys.value, now, store, job, Step(store, None, false), objectExists, runStatus, writeFails);
    assert NatToString(1) == "1";
  }

  lemma ThirtyMinuteMessage()
    ensures TimeoutMessage(30) == "Job timed out in poller after 30 minute(s)."
  {
    assert IntToString(30) == "30";
  }

  /** The poller as written, with the default timeout. */
  function PollerMain(store: Store, order: seq<string>, cfg: PollerConfig, keys: Option<ApiKeys>, now: int,
                      objectExists: string -> bool, runStatus: (string, string) -> RunStatusReply,
                      writeFails: string -> bool, queryFails: bool): PollOutcome
    requires cfg.timeoutMinutes == DefaultProcessingTimeoutMinutes
  {
    PollCycle(AsWritten, store, order, cfg, keys, now, objectExists, runStatus, writeFails, queryFails)
  }
}
