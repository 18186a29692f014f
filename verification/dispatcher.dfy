/** The dispatcher (dify-batch-processor/dispatcher/main.py): admission
    under a concurrency cap. It counts the PROCESSING jobs, computes the spare
    slots against the cap, takes at most that many PENDING jobs, and hands
    each to the queue, marking it QUEUED on success and FAILED on failure,
    one job's failure never stopping the others. */
module Dispatcher {
  import opened Basics
  import opened Text
  import opened Shared

  /** The default of `MAX_CONCURRENT_WORKFLOWS`. */
  const DefaultMaxConcurrentWorkflows := 2

  /** What creating one task returns: success, or the error raised. */
  datatype EnqueueResult = Enqueued | EnqueueFailed(error: string)

  /** A dispatch cycle's effect: the store after, the reply, and the ids selected. */
  datatype DispatchOutcome = DispatchOutcome(store: Store, reply: Reply, selected: seq<string>)

  /** The task body the dispatcher builds from a stored job: its data (an
      empty object when the record has none) and its workflow id. */
  function DispatchMessage(id: string, r: Record): (m: TaskMessage)
    ensures m.uniqueId == Some(id) && m.workflowId == r.workflowId
    ensures m.data == Some(if r.data.Some? then r.data.value else map[])
  {
    TaskMessage(Some(id), Some(r.data.GetOr(map[])), r.workflowId)
  }

  /** The status a dispatched job is moved to and the note recorded with it. */
  function DispatchPatch(e: EnqueueResult): Patch {
    match e
    case Enqueued => NoPatch
    case EnqueueFailed(err) => Patch(None, Some("Dispatcher failed: " + err))
  }

  function DispatchStatus(e: EnqueueResult): Status {
    if e.Enqueued? then Queued else Failed
  }

  /** One selected job: QUEUED on a created task, FAILED with "Dispatcher
      failed: ..." otherwise; a failing store write is swallowed. */
  function DispatchOne(store: Store, id: string, now: int, enqueue: string -> EnqueueResult,
                       writeFails: string -> bool): (s: Store)
    ensures forall other :: other != id ==> (other in s <==> other in store)
    ensures forall other :: other != id && other in store ==> s[other] == store[other]
    ensures writeFails(id) ==> s == store
    ensures !writeFails(id) ==> id in s && s[id].status == (if enqueue(id).Enqueued? then Queued else Failed)
    ensures !writeFails(id) && enqueue(id).EnqueueFailed? ==>
              s[id].message == Some("Dispatcher failed: " + enqueue(id).error)
  {
    UpdateDatastore(store, id, DispatchStatus(enqueue(id)), now, DispatchPatch(enqueue(id)), writeFails(id))
  }

  /** The per-job loop over the selected ids. */
  function DispatchJobs(store: Store, jobs: seq<string>, now: int, enqueue: string -> EnqueueResult,
                        writeFails: string -> bool): (s: Store)
    decreases |jobs|
    ensures forall id :: id !in jobs ==> (id in s <==> id in store)
    ensures forall id :: id !in jobs && id in store ==> s[id] == store[id]
    ensures forall id :: id in store ==> id in s
  {
    if |jobs| == 0 then store
    else
      var s := DispatchJobs(DispatchOne(store, jobs[0], now, enqueue, writeFails), jobs[1..], now, enqueue, writeFails);
      assert forall id :: id in jobs <==> id == jobs[0] || id in jobs[1..];
      s
  }

  /** With no id listed twice, every job ends as `DispatchOne` leaves it from
      the record it had when the cycle began. */
  lemma {:induction false} DispatchJobsEach(store: Store, jobs: seq<string>, now: int,
                                            enqueue: string -> EnqueueResult, writeFails: string -> bool)
    requires NoDuplicates(jobs)
    requires forall i :: 0 <= i < |jobs| ==> jobs[i] in store
    decreases |jobs|
    ensures forall i :: 0 <= i < |jobs| ==>
              DispatchJobs(store, jobs, now, enqueue, writeFails)[jobs[i]]
              == DispatchOne(store, jobs[i], now, enqueue, writeFails)[jobs[i]]
  {
    if |jobs| > 0 {
      var s1 := DispatchOne(store, jobs[0], now, enqueue, writeFails);
      assert forall i :: 1 <= i < |jobs| ==> jobs[1..][i - 1] == jobs[i];
      assert NoDuplicates(jobs[1..]);
      DispatchJobsEach(s1, jobs[1..], now, enqueue, writeFails);
      var s := DispatchJobs(s1, jobs[1..], now, enqueue, writeFails);
      assert jobs[0] !in jobs[1..];
      forall i | 1 <= i < |jobs|
        ensures s[jobs[i]] == DispatchOne(store, jobs[i], now, enqueue, writeFails)[jobs[i]]
      {
        assert jobs[i] != jobs[0];
        assert jobs[1..][i - 1] == jobs[i];
        assert s1[jobs[i]] == store[jobs[i]];
        assert DispatchOne(s1, jobs[i], now, enqueue, writeFails)[jobs[i]]
               == DispatchOne(store, jobs[i], now, enqueue, writeFails)[jobs[i]];
      }
    }
  }

  /** `DispatchJobsEach` by id rather than by position. */
  lemma DispatchJobsById(store: Store, jobs: seq<string>, now: int,
                         enqueue: string -> EnqueueResult, writeFails: string -> bool)
    requires NoDuplicates(jobs)
    requires forall i :: 0 <= i < |jobs| ==> jobs[i] in store
    ensures forall id :: id in jobs ==>
              DispatchJobs(store, jobs, now, enqueue, writeFails)[id] == DispatchOne(store, id, now, enqueue, writeFails)[id]
  {
    DispatchJobsEach(store, jobs, now, enqueue, writeFails);
    forall id | id in jobs
      ensures DispatchJobs(store, jobs, now, enqueue, writeFails)[id] == DispatchOne(store, id, now, enqueue, writeFails)[id]
    {
      var i :| 0 <= i < |jobs| && jobs[i] == id;
    }
  }

  /** A prefix of a duplicate-free sequence is duplicate-free. */
  lemma PrefixNoDuplicates(s: seq<string>, n: nat)
    requires NoDuplicates(s) && n <= |s|
    ensures NoDuplicates(s[..n])
  {
    forall i, j | 0 <= i < j < n ensures s[..n][i] != s[..n][j] {
      assert s[..n][i] == s[i] && s[..n][j] == s[j];
    }
  }

  /** The dispatcher's `main`. A failing query ends the cycle with 500. */
  function DispatchCycle(store: Store, order: seq<string>, maxConcurrent: int, now: int,
                         enqueue: string -> EnqueueResult, writeFails: string -> bool, queryFails: bool)
    : (out: DispatchOutcome)
    ensures queryFails ==> out == DispatchOutcome(store, Reply("Internal Server Error", 500), [])
    ensures !queryFails ==> out.reply.code == 200
    ensures var slots := maxConcurrent - |Query(store, Processing, order)|;
            && |out.selected| <= (if slots <= 0 then 0 else slots)
            && (slots <= 0 && !queryFails ==> out == DispatchOutcome(store, Reply("No available slots.", 200), []))
            && (slots > 0 && !queryFails ==>
                  |out.selected| == (if slots < |Query(store, Pending, order)| then slots
                                     else |Query(store, Pending, order)|))
    ensures forall i :: 0 <= i < |out.selected| ==>
              out.selected[i] in store && store[out.selected[i]].status == Pending
    ensures out.selected == Query(store, Pending, order)[..|out.selected|]
    ensures forall id :: id !in out.selected ==> (id in out.store <==> id in store)
    ensures forall id :: id !in out.selected && id in store ==> out.store[id] == store[id]
    ensures out.store.Keys == store.Keys
    ensures |out.selected| == 0 && !queryFails ==>
              out.store == store && out.reply.message in {"No available slots.", "No pending jobs."}
    ensures maxConcurrent - |Query(store, Processing, order)| > 0 && !queryFails && |Query(store, Pending, order)| == 0 ==>
              out == DispatchOutcome(store, Reply("No pending jobs.", 200), [])
    ensures |out.selected| > 0 ==> out.reply == Reply("Dispatched " + NatToString(|out.selected|) + " tasks.", 200)
  {
    if queryFails then DispatchOutcome(store, Reply("Internal Server Error", 500), [])
    else
      var slots := maxConcurrent - |Query(store, Processing, order)|;
      if slots <= 0 then DispatchOutcome(store, Reply("No available slots.", 200), [])
      else
        var jobs := Take(Query(store, Pending, order), slots);
        if |jobs| == 0 then DispatchOutcome(store, Reply("No pending jobs.", 200), [])
        else
          var after := DispatchJobs(store, jobs, now, enqueue, writeFails);
          DispatchOutcome(after, Reply("Dispatched " + NatToString(|jobs|) + " tasks.", 200), jobs)
  }

  /** The dispatcher with the default cap of 2. */
  function DispatcherMain(store: Store, order: seq<string>, now: int, enqueue: string -> EnqueueResult,
                          writeFails: string -> bool, queryFails: bool): DispatchOutcome
  {
    DispatchCycle(store, order, DefaultMaxConcurrentWorkflows, now, enqueue, writeFails, queryFails)
  }

  /** A cycle that selects jobs runs the per-job loop over exactly them. */
  lemma DispatchCycleRuns(store: Store, order: seq<string>, maxConcurrent: int, now: int,
                          enqueue: string -> EnqueueResult, writeFails: string -> bool, queryFails: bool)
    ensures var out := DispatchCycle(store, order, maxConcurrent, now, enqueue, writeFails, queryFails);
            |out.selected| > 0 ==> out.store == DispatchJobs(store, out.selected, now, enqueue, writeFails)
  {
  }

  /** Over an enumeration of the store, each selected job ends QUEUED when its
      task was created, FAILED with a "Dispatcher failed:" message when not,
      and unchanged PENDING when the status write failed; everything it
      does not select is unchanged. */
  lemma DispatchEffect(store: Store, order: seq<string>, maxConcurrent: int, now: int,
                       enqueue: string -> EnqueueResult, writeFails: string -> bool, queryFails: bool)
    requires Enumerates(order, store)
    ensures var out := DispatchCycle(store, order, maxConcurrent, now, enqueue, writeFails, queryFails);
            forall id :: id in out.selected ==>
              && (writeFails(id) ==> out.store[id] == store[id])
              && (!writeFails(id) && enqueue(id).Enqueued? ==> out.store[id].status == Queued)
              && (!writeFails(id) && enqueue(id).EnqueueFailed? ==>
                    out.store[id].status == Failed
                    && out.store[id].message == Some("Dispatcher failed: " + enqueue(id).error))
  {
    var out := DispatchCycle(store, order, maxConcurrent, now, enqueue, writeFails, queryFails);
    if |out.selected| > 0 {
      QueryNoDuplicates(store, Pending, order);
      PrefixNoDuplicates(Query(store, Pending, order), |out.selected|);
      DispatchCycleRuns(store, order, maxConcurrent, now, enqueue, writeFails, queryFails);
      DispatchJobsById(store, out.selected, now, enqueue, writeFails);
    }
  }

  /** The dispatcher never moves a job into or out of PROCESSING, so the
      count it caps against is the same after the cycle. */
  lemma DispatchKeepsProcessingCount(store: Store, order: seq<string>, maxConcurrent: int, now: int,
                                     enqueue: string -> EnqueueResult, writeFails: string -> bool, queryFails: bool)
    requires Enumerates(order, store)
    ensures var out := DispatchCycle(store, order, maxConcurrent, now, enqueue, writeFails, queryFails);
            Query(out.store, Processing, order) == Query(store, Processing, order)
  {
    var out := DispatchCycle(store, order, maxConcurrent, now, enqueue, writeFails, queryFails);
    DispatchEffect(store, order, maxConcurrent, now, enqueue, writeFails, queryFails);
    QuerySameSelection(out.store, store, Processing, order);
  }

  /** The cap bounds what one cycle adds: every job QUEUED after the cycle
      that was not QUEUED before is one of the selected, and those number at
      most the cap less the PROCESSING count. */
  lemma NewlyQueuedWithinCap(store: Store, order: seq<string>, maxConcurrent: int, now: int,
                             enqueue: string -> EnqueueResult, writeFails: string -> bool, queryFails: bool)
    requires Enumerates(order, store)
    ensures var out := DispatchCycle(store, order, maxConcurrent, now, enqueue, writeFails, queryFails);
            && (forall id :: id in out.store && out.store[id].status == Queued && store[id].status != Queued ==>
                  id in out.selected)
            && |out.selected| + |Query(out.store, Processing, order)| <= (if maxConcurrent < |Query(store, Processing, order)|
                                                                          then |Query(store, Processing, order)|
                                                                          else maxConcurrent)
  {
    DispatchKeepsProcessingCount(store, order, maxConcurrent, now, enqueue, writeFails, queryFails);
  }

  /** Only PROCESSING counts against the cap: with no job running and no
      more PENDING jobs than the cap, a cycle in which every task is created
      and every write lands queues all of them on top of those already
      QUEUED, so the QUEUED count can exceed the cap. */
  lemma QueuedNotCounted(store: Store, order: seq<string>, maxConcurrent: int, now: int,
                         enqueue: string -> EnqueueResult, writeFails: string -> bool)
    requires Enumerates(order, store)
    requires |Query(store, Processing, order)| == 0
    requires |Query(store, Pending, order)| <= maxConcurrent
    requires forall id :: !writeFails(id) && enqueue(id).Enqueued?
    ensures var out := DispatchCycle(store, order, maxConcurrent, now, enqueue, writeFails, false);
            |Query(out.store, Queued, order)| == |Query(store, Queued, order)| + |Query(store, Pending, order)|
  {
    var out := DispatchCycle(store, order, maxConcurrent, now, enqueue, writeFails, false);
    var pending := Query(store, Pending, order);
    DispatchEffect(store, order, maxConcurrent, now, enqueue, writeFails, false);
    assert out.selected == pending;
    forall id | id in order
      ensures out.store[id].status == Queued <==> store[id].status == Queued || store[id].status == Pending
    {
      if id in pending {
        assert out.store[id].status == Queued;
      } else {
        assert out.store[id] == store[id];
      }
    }
    QueryAbsorbs(store, out.store, Queued, Pending, order);
  }

  /** Cap 2, no job running, PENDING jobs A, B, C first in query order,
      every task created: A and B become QUEUED and C stays PENDING. */
  lemma ScenarioThreePending(store: Store, order: seq<string>, now: int,
                             enqueue: string -> EnqueueResult, writeFails: string -> bool)
    requires Enumerates(order, store)
    requires |Query(store, Processing, order)| == 0
    requires |Query(store, Pending, order)| >= 3
    requires forall id :: !writeFails(id) && enqueue(id).Enqueued?
    ensures var pending := Query(store, Pending, order);
            var out := DispatchCycle(store, order, 2, now, enqueue, writeFails, false);
            && out.selected == [pending[0], pending[1]]
            && out.store[pending[0]].status == Queued && out.store[pending[1]].status == Queued
            && out.store[pending[2]] == store[pending[2]] && store[pending[2]].status == Pending
  {
    var pending := Query(store, Pending, order);
    var out := DispatchCycle(store, order, 2, now, enqueue, writeFails, false);
    QueryNoDuplicates(store, Pending, order);
    assert out.selected == pending[..2];
    DispatchEffect(store, order, 2, now, enqueue, writeFails, false);
    assert pending[0] in out.selected && pending[1] in out.selected;
    assert pending[2] != pending[0] && pending[2] != pending[1];
  }
}
