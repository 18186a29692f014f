/** How the four loops meet on one store: what a record written by one loop
    means to the others. */
module Pipeline {
  import opened Basics
  import opened Shared
  import Loader
  import Dispatcher
  import Worker
  import Poller

  /** A task the loader creates for a "{workflow}_{rest}" job with a
      non-empty payload reaches the engine: the worker marks that same job
      PROCESSING and authorises the call with the workflow's key. */
  lemma LoaderTaskReachesEngine(store: Store, keys: Option<ApiKeys>, inputs: Inputs, workflowId: string,
                                rest: string, created: nat, now: int,
                                engine: Worker.WorkflowRequest -> Worker.EngineReply)
    requires Configured(keys) && |inputs| > 0
    requires workflowId != "" && '_' !in workflowId
    ensures var id := workflowId + "_" + rest;
            var message := Loader.CloudTaskMessage(inputs, Loader.TaskName(id, created));
            var out := Worker.Handle(store, keys, Worker.HttpRequest("POST", Some(message)), now, engine);
            && out.duringCall.Some? && id in out.duringCall.value
            && out.duringCall.value[id].status == Processing
            && out.request.Some?
            && out.request.value.payload.inputs == inputs
            && out.request.value.authorization == "Bearer " + Render(KeyFor(keys.value, Some(workflowId)))
  {
    var id := workflowId + "_" + rest;
    Loader.TaskNameRoundTrip(id, created);
    Loader.TaskNameWorkflow(workflowId, rest, created);
    var message := Loader.CloudTaskMessage(inputs, Loader.TaskName(id, created));
    assert message.uniqueId == Some(id) && message.workflowId == Some(workflowId);
    assert Worker.Valid(Worker.FromDict(message));
  }

  /** The loader stores no payload: a job it admits fresh, or re-admits
      from a FAILED record without one, has none. */
  lemma LoaderStoresNoData(store: Store, id: string, now: int)
    requires id !in store || store[id].data.None?
    ensures var a := Loader.Admit(store, id, now);
            a.admitted ==> a.store[id].data.None?
  {
  }

  /** The dispatcher's task for a job without a stored payload carries an
      empty one, and the worker answers it 400 without touching the store. */
  lemma DispatchedWithoutDataRejected(store: Store, id: string, r: Record, keys: Option<ApiKeys>, now: int,
                                      engine: Worker.WorkflowRequest -> Worker.EngineReply)
    requires Configured(keys) && r.data.None?
    ensures var message := Dispatcher.DispatchMessage(id, r);
            Worker.Handle(store, keys, Worker.HttpRequest("POST", Some(message)), now, engine)
            == Worker.WorkerOutcome(store, None, None, Reply("Bad Request: Missing payload data.", 400))
  {
    var message := Dispatcher.DispatchMessage(id, r);
    assert !Worker.Valid(Worker.FromDict(message));
  }

  /** Only the worker moves a job out of QUEUED: the loader does not re-admit
      it, a dispatch cycle does not select it, and a poll cycle does not
      examine it. */
  lemma QueuedOnlyLeftByWorker(store: Store, order: seq<string>, id: string, now: int,
                               maxConcurrent: int, enqueue: string -> Dispatcher.EnqueueResult,
                               writeFails: string -> bool, dispatchQueryFails: bool,
                               m: Poller.Matcher, cfg: Poller.PollerConfig, keys: Option<ApiKeys>,
                               objectExists: string -> bool, runStatus: (string, string) -> Poller.RunStatusReply,
                               pollQueryFails: bool)
    requires id in store && store[id].status == Queued
    ensures Loader.Admit(store, id, now).store == store
    ensures Dispatcher.DispatchCycle(store, order, maxConcurrent, now, enqueue, writeFails, dispatchQueryFails).store[id]
            == store[id]
    ensures Poller.PollCycle(m, store, order, cfg, keys, now, objectExists, runStatus, writeFails, pollQueryFails).store[id]
            == store[id]
  {
  }

  /** A worker that dies during the engine call leaves its job PROCESSING
      with no workflow id and no run id. While the job is fresh the poller
      skips it; once it has timed out, with the passage-analysis workflow id
      configured, it ends the poll cycle without changing the store (with
      the corrected matcher, when the workbook id is configured too and no
      fallback name was bound earlier in the scan). */
  lemma CrashedWorkerJob(store: Store, keys: Option<ApiKeys>, request: Worker.HttpRequest, started: int,
                         engine: Worker.WorkflowRequest -> Worker.EngineReply,
                         m: Poller.Matcher, cfg: Poller.PollerConfig, pollKeys: ApiKeys, now: int, st: Poller.Step,
                         objectExists: string -> bool, runStatus: (string, string) -> Poller.RunStatusReply,
                         writeFails: string -> bool)
    requires Worker.Handle(store, keys, request, started, engine).duringCall.Some?
    requires cfg.passageAnalysisWorkflowId.Some?
    requires m == Poller.Corrected ==> cfg.passageWorkbookWorkflowId.Some? && st.objectName.None?
    requires !st.aborted
    ensures var crashed := Worker.Handle(store, keys, request, started, engine).duringCall.value;
            var id := request.body.value.uniqueId.value;
            var step := Poller.PollJob(m, cfg, pollKeys, now, id, crashed[id], st, objectExists, runStatus, writeFails);
            && crashed[id].status == Processing
            && crashed[id].workflowId.None? && crashed[id].workflowRunId.None?
            && (!Poller.TimedOut(crashed[id], now, cfg.timeoutMinutes) ==> step == st)
            && (Poller.TimedOut(crashed[id], now, cfg.timeoutMinutes) ==> step.aborted && step.store == st.store)
  {
  }

  /** A poll cycle that ends early changes nothing when the job that ends it
      comes first, so the next cycle over the same store ends the same way:
      a crashed worker's job that has timed out at the head of the
      PROCESSING query stops the poller for good. */
  lemma StuckPoller(m: Poller.Matcher, store: Store, order: seq<string>, cfg: Poller.PollerConfig, keys: Option<ApiKeys>, now: int,
                    objectExists: string -> bool, runStatus: (string, string) -> Poller.RunStatusReply,
                    writeFails: string -> bool)
    requires Configured(keys)
    requires cfg.passageAnalysisWorkflowId.Some?
    requires m == Poller.Corrected ==> cfg.passageWorkbookWorkflowId.Some?
    requires |Query(store, Processing, order)| > 0
    requires var head := Query(store, Processing, order)[0];
             store[head].workflowId.None? && Poller.TimedOut(store[head], now, cfg.timeoutMinutes)
    ensures var out := Poller.PollCycle(m, store, order, cfg, keys, now, objectExists, runStatus, writeFails, false);
            out == Poller.PollOutcome(store, Reply("Internal Server Error", 500))
  {
    var jobs := Query(store, Processing, order);
    var st := Poller.Step(store, None, false);
    Poller.PollCycleScan(m, store, order, cfg, keys, now, objectExists, runStatus, writeFails);
    var first := Poller.PollJob(m, cfg, keys.value, now, jobs[0], store[jobs[0]], st, objectExists, runStatus, writeFails);
    assert first.aborted && first.store == store;
    assert Poller.PollJobs(m, cfg, keys.value, now, store, jobs, st, objectExists, runStatus, writeFails)
           == Poller.PollJobs(m, cfg, keys.value, now, store, jobs[1..], first, objectExists, runStatus, writeFails);
  }
}
