/** The worker (dify-batch-processor/worker/main.py): one delivered task.
    It validates the task body, overwrites the job record with PROCESSING,
    runs the workflow on the engine in blocking mode, and overwrites the
    record again with SUCCESS or FAILED, answering with an HTTP status the
    task queue reads as "done" (200) or "retry" (anything else). */
module Worker {
  import opened Basics
  import opened Shared

  /** The text stored when the engine refuses the key. */
  const ForbiddenMessage := "Dify API returned 403 Forbidden. Check if the DIFY_API_KEY is correct and has permissions."

  /** What `str(e)` gives for the `AttributeError` of reading a field of a
      missing `data` object. */
  const MissingDataError := "'NoneType' object has no attribute 'get'"

  /** `TaskPayload`: the task body with `data` defaulted to an empty object. */
  datatype TaskPayload = TaskPayload(uniqueId: Option<string>, data: Inputs, workflowId: Option<string>)

  /** The JSON body sent to the engine's run endpoint. */
  datatype DifyPayload = DifyPayload(inputs: Inputs, responseMode: string, user: string)

  /** One engine call: the body and the `Authorization` header. */
  datatype WorkflowRequest = WorkflowRequest(payload: DifyPayload, authorization: string)

  /** The `data` object of a decoded engine reply. `error` is None when the
      key is missing and Some(None) when it holds null. */
  datatype RunData = RunData(status: Option<string>, error: Option<Option<string>>)

  /** A response body: not JSON (the decoding error's text), or a decoded
      object with its `data` member (None when missing or null) and its
      `str()` rendering. */
  datatype ReplyBody = Undecodable(text: string) | Decoded(data: Option<RunData>, rendered: string)

  /** What the engine call gives: a raised request error (connection,
      timeout) with its text, or a response with its status code, the text
      `raise_for_status` would raise, and its body. */
  datatype EngineReply =
    | TransportError(text: string)
    | Response(code: int, errorText: string, body: ReplyBody)

  /** An incoming HTTP request: its method (`verb`) and its JSON body (None
      when it is missing, not JSON, or not an object). */
  datatype HttpRequest = HttpRequest(verb: string, body: Option<TaskMessage>)

  /** How a call ends: the final status, the `result` and `message` stored
      with it, and the reply. */
  datatype Settlement = Settlement(status: Status, result: Option<string>, message: Option<string>, reply: Reply)

  /** A delivery's effect: the store after, the store the engine call runs
      against (None when no call is made), the request sent, and the reply. */
  datatype WorkerOutcome = WorkerOutcome(store: Store, duringCall: Option<Store>,
                                         request: Option<WorkflowRequest>, reply: Reply)

  /** `save_to_datastore`: a fresh entity holding only the status, a naive
      timestamp and the given result and message, put over whatever was
      stored under `id`. */
  function SaveToDatastore(store: Store, id: string, status: Status, now: int,
                           result: Option<string>, message: Option<string>): (s: Store)
    ensures s.Keys == store.Keys + {id}
    ensures forall other :: other in store && other != id ==> s[other] == store[other]
    ensures s[id].status == status && s[id].timestamp == Some(Stamp(now, None))
    ensures s[id].result == result && s[id].message == message
    ensures s[id].data.None? && s[id].workflowId.None? && s[id].workflowRunId.None?
    ensures s[id].unindexed == Unindexable
  {
    store[id := Record(status, Some(Stamp(now, None)), None, None, None, result, message, Unindexable)]
  }

  /** The record `save_to_datastore` leaves does not depend on what was
      stored before, unlike `update_datastore`, which keeps the job's
      payload and workflow id. */
  lemma SaveForgetsPrior(store: Store, id: string, status: Status, now: int, patch: Patch)
    requires id in store && store[id].workflowId.Some? && store[id].data.Some?
    ensures var saved := SaveToDatastore(store, id, status, now, patch.result, patch.message);
            var merged := UpdateDatastore(store, id, status, now, patch, false);
            && saved[id] == SaveToDatastore(map[], id, status, now, patch.result, patch.message)[id]
            && saved[id].workflowId.None? && saved[id].data.None?
            && merged[id].workflowId == store[id].workflowId && merged[id].data == store[id].data
  {
  }

  /** `TaskPayload.from_dict`. */
  function FromDict(m: TaskMessage): (p: TaskPayload)
    ensures p.uniqueId == m.uniqueId && p.workflowId == m.workflowId
    ensures p.data == (if m.data.Some? then m.data.value else map[])
  {
    TaskPayload(m.uniqueId, m.data.GetOr(map[]), m.workflowId)
  }

  /** The check before any write: a non-empty unique id and a non-empty payload. */
  predicate Valid(p: TaskPayload) {
    Truthy(p.uniqueId) && |p.data| > 0
  }

  /** `TaskPayload.to_dify_payload`. */
  function ToDifyPayload(p: TaskPayload): (d: DifyPayload)
    ensures d.inputs == p.data && d.responseMode == "blocking"
    ensures d.user == "user-" + Render(p.uniqueId)
  {
    DifyPayload(p.data, "blocking", "user-" + Render(p.uniqueId))
  }

  /** The engine's user name gives back the job's unique id. */
  lemma UserNameDecodes(p: TaskPayload)
    requires p.uniqueId.Some?
    ensures |ToDifyPayload(p).user| >= 5
    ensures ToDifyPayload(p).user[5..] == p.uniqueId.value
  {
  }

  /** The engine call: the payload, authorised by the key listed for the
      task's workflow id ("Bearer None" when none is). */
  function BuildRequest(p: TaskPayload, keys: ApiKeys): (req: WorkflowRequest)
    ensures req.payload == ToDifyPayload(p)
    ensures req.authorization == "Bearer " + Render(KeyFor(keys, p.workflowId))
  {
    WorkflowRequest(ToDifyPayload(p), "Bearer " + Render(KeyFor(keys, p.workflowId)))
  }

  /** Whether `raise_for_status` raises: a client or server error code. */
  predicate ErrorCode(code: int) {
    400 <= code < 600
  }

  /** The message stored for an engine run that reports `failed`: its
      `error`, "Unknown error" when the key is missing, none when it is null. */
  function FailureMessage(error: Option<Option<string>>): Option<string> {
    match error
    case None => Some("Unknown error")
    case Some(e) => e
  }

  /** The outcome mapping after PROCESSING is written: a 403 first, then
      raised request errors (including a failed `raise_for_status` and an
      undecodable body), then a missing `data` object, then an engine run
      reported `failed`, and success otherwise. */
  function Settle(reply: EngineReply): (st: Settlement)
    ensures st.status == Success || st.status == Failed
    ensures st.reply.code == 200 <==> st.status == Success
    ensures st.status == Success ==> st.reply == Reply("Success", 200) && st.message.None?
    ensures st.status == Failed ==> st.result.None? && st.reply.code == 500
  {
    match reply
    case TransportError(text) => Settlement(Failed, None, Some(text), Reply("Dify API call failed", 500))
    case Response(code, errorText, body) =>
      if code == 403 then Settlement(Failed, None, Some(ForbiddenMessage), Reply("Dify API Forbidden", 500))
      else if ErrorCode(code) then Settlement(Failed, None, Some(errorText), Reply("Dify API call failed", 500))
      else match body
        case Undecodable(text) => Settlement(Failed, None, Some(text), Reply("Dify API call failed", 500))
        case Decoded(data, rendered) =>
          if data.None? then Settlement(Failed, None, Some(MissingDataError), Reply("Internal Server Error", 500))
          else if data.value.status == Some("failed") then
            Settlement(Failed, None, FailureMessage(data.value.error), Reply("Dify API processing failed", 500))
          else Settlement(Success, Some(rendered), None, Reply("Success", 200))
  }

  /** When the engine reports success: a response that is not 403 and no
      error code, with a decoded body whose `data` is present and whose run
      status is not `failed`. */
  predicate EngineSucceeded(reply: EngineReply) {
    && reply.Response?
    && reply.code != 403 && !ErrorCode(reply.code)
    && reply.body.Decoded?
    && reply.body.data.Some?
    && reply.body.data.value.status != Some("failed")
  }

  /** A job ends SUCCESS exactly when the engine reports success, and then
      holds the rendered reply; each failure carries its own reply text. */
  lemma SettleMapping(reply: EngineReply)
    ensures Settle(reply).status == Success <==> EngineSucceeded(reply)
    ensures EngineSucceeded(reply) ==> Settle(reply).result == Some(reply.body.rendered)
    ensures reply.Response? && reply.code == 403 ==>
              Settle(reply) == Settlement(Failed, None, Some(ForbiddenMessage), Reply("Dify API Forbidden", 500))
    ensures reply.TransportError? ==> Settle(reply).reply.message == "Dify API call failed"
                                      && Settle(reply).message == Some(reply.text)
    ensures reply.Response? && reply.code != 403 && !ErrorCode(reply.code) && reply.body.Decoded?
            && reply.body.data.Some? && reply.body.data.value.status == Some("failed") ==>
              Settle(reply).status == Failed
              && Settle(reply).reply.message == "Dify API processing failed"
              && Settle(reply).message == (if reply.body.data.value.error.None? then Some("Unknown error")
                                           else reply.body.data.value.error.value)
  {
  }

  /** The worker's `main`. The key table is checked before the method;
      nothing is written until the body is known valid; PROCESSING is
      written before the engine call and the settled status after it. */
  function Handle(store: Store, keys: Option<ApiKeys>, request: HttpRequest, now: int,
                  engine: WorkflowRequest -> EngineReply): (out: WorkerOutcome)
    ensures !Configured(keys) ==>
              out == WorkerOutcome(store, None, None, Reply("Internal Server Error: Service is not configured.", 500))
    ensures Configured(keys) && request.verb != "POST" ==>
              out == WorkerOutcome(store, None, None, Reply("Only POST requests are accepted", 405))
    ensures out.duringCall.None? ==> out.store == store && out.request.None? && out.reply.code != 200
    ensures out.duringCall.Some? <==>
              Configured(keys) && request.verb == "POST" && request.body.Some? && Valid(FromDict(request.body.value))
    ensures out.duringCall.Some? ==>
              var id := request.body.value.uniqueId.value;
              && out.request == Some(BuildRequest(FromDict(request.body.value), keys.value))
              && id in out.duringCall.value && out.duringCall.value[id].status == Processing
              && out.store.Keys == store.Keys + {id}
              && (forall other :: other in store && other != id ==> out.store[other] == store[other])
              && (out.store[id].status == Success || out.store[id].status == Failed)
              && (out.reply.code == 200 <==> out.store[id].status == Success)
  {
    if !Configured(keys) then
      WorkerOutcome(store, None, None, Reply("Internal Server Error: Service is not configured.", 500))
    else if request.verb != "POST" then
      WorkerOutcome(store, None, None, Reply("Only POST requests are accepted", 405))
    else if request.body.None? then
      WorkerOutcome(store, None, None, Reply("Internal Server Error", 500))
    else
      var p := FromDict(request.body.value);
      if !Valid(p) then WorkerOutcome(store, None, None, Reply("Bad Request: Missing payload data.", 400))
      else
        var id := p.uniqueId.value;
        var processing := SaveToDatastore(store, id, Processing, now, None, None);
        var req := BuildRequest(p, keys.value);
        var st := Settle(engine(req));
        WorkerOutcome(SaveToDatastore(processing, id, st.status, now, st.result, st.message),
                      Some(processing), Some(req), st.reply)
  }

  /** The rejections that write nothing: an empty unique id or payload is a
      400, a body that is not a JSON object a 500. */
  lemma HandleRejects(store: Store, keys: Option<ApiKeys>, request: HttpRequest, now: int,
                      engine: WorkflowRequest -> EngineReply)
    requires Configured(keys) && request.verb == "POST"
    ensures request.body.None? ==>
              Handle(store, keys, request, now, engine) == WorkerOutcome(store, None, None, Reply("Internal Server Error", 500))
    ensures request.body.Some? && !Valid(FromDict(request.body.value)) ==>
              Handle(store, keys, request, now, engine)
              == WorkerOutcome(store, None, None, Reply("Bad Request: Missing payload data.", 400))
  {
  }

  /** The stored outcome of a handled task: the settled status, result and
      message, and nothing of the job's earlier record. */
  lemma HandleStores(store: Store, keys: Option<ApiKeys>, request: HttpRequest, now: int,
                     engine: WorkflowRequest -> EngineReply)
    requires Configured(keys) && request.verb == "POST" && request.body.Some?
    requires Valid(FromDict(request.body.value))
    ensures var id := request.body.value.uniqueId.value;
            var out := Handle(store, keys, request, now, engine);
            var st := Settle(engine(BuildRequest(FromDict(request.body.value), keys.value)));
            && out.store[id] == Record(st.status, Some(Stamp(now, None)), None, None, None, st.result, st.message, Unindexable)
            && out.reply == st.reply
  {
  }

  /** Cloud Tasks delivers at least once. A redelivered task (same body,
      same clock, same engine answer) leaves the store as one delivery does,
      whatever the first delivery stored. */
  lemma RedeliveryIdempotent(store: Store, keys: Option<ApiKeys>, request: HttpRequest, now: int,
                             engine: WorkflowRequest -> EngineReply)
    ensures var once := Handle(store, keys, request, now, engine);
            var twice := Handle(once.store, keys, request, now, engine);
            twice.store == once.store && twice.reply == once.reply
  {
    var once := Handle(store, keys, request, now, engine);
    if once.duringCall.Some? {
      var id := request.body.value.uniqueId.value;
      HandleStores(store, keys, request, now, engine);
      HandleStores(once.store, keys, request, now, engine);
      var twice := Handle(once.store, keys, request, now, engine);
      assert twice.store == once.store[id := once.store[id]];
    }
  }
}
