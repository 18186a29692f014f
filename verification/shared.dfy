/** The job record, the key-value store holding it, and the helpers the
    loops share (dify-batch-processor/shared/utils.py): the merging upsert
    `update_datastore`, the equality query on `status`, and the API-key
    initialisation. */
module Shared {
  import opened Basics

  /** The `status` field of a job record; the source stores the upper-case name. */
  datatype Status = Pending | Queued | Processing | Success | Failed

  /** A stored timestamp: microseconds on the wall clock, plus the UTC offset
      in minutes of a timezone-aware datetime (None for a naive one). */
  datatype Stamp = Stamp(micros: int, offsetMinutes: Option<int>)

  /** A workflow input payload: a JSON object whose values are strings or
      null (None). */
  type Inputs = map<string, Option<string>>

  /** One stored job entity, keyed in the store by its unique id. `unindexed`
      is the entity's `exclude_from_indexes`. */
  datatype Record = Record(
    status: Status,
    timestamp: Option<Stamp>,
    data: Option<Inputs>,
    workflowId: Option<string>,
    workflowRunId: Option<string>,
    result: Option<string>,
    message: Option<string>,
    unindexed: set<string>)

  /** The job store: unique id to record. */
  type Store = map<string, Record>

  /** The body of a task handed to the worker: each key may be missing. */
  datatype TaskMessage = TaskMessage(uniqueId: Option<string>, data: Option<Inputs>, workflowId: Option<string>)

  /** The `data` argument of `update_datastore`: the fields it sets, when present. */
  datatype Patch = Patch(result: Option<string>, message: Option<string>)

  const NoPatch := Patch(None, None)

  /** The fields that are never indexed because their size is unbounded. */
  const Unindexable: set<string> := {"result", "message"}

  /** The names of the properties an entity holding `r` carries. */
  function FieldNames(r: Record): set<string> {
    {"status"}
    + (if r.timestamp.Some? then {"timestamp"} else {})
    + (if r.data.Some? then {"data"} else {})
    + (if r.workflowId.Some? then {"workflow_id"} else {})
    + (if r.workflowRunId.Some? then {"workflow_run_id"} else {})
    + (if r.result.Some? then {"result"} else {})
    + (if r.message.Some? then {"message"} else {})
  }

  /** A record holding only a status and a timestamp. */
  function Bare(status: Status, now: int): Record {
    Record(status, Some(Stamp(now, None)), None, None, None, None, None, {})
  }

  /** The entity `update_datastore` puts: the prior one (or a new one) with
      `status` and a naive `timestamp` set, the patch merged over it, and the
      present unbounded fields excluded from indexes. */
  function Touched(prior: Option<Record>, status: Status, now: int, patch: Patch): (r: Record)
    ensures r.status == status && r.timestamp == Some(Stamp(now, None))
    ensures r.result == (if patch.result.Some? then patch.result
                         else if prior.Some? then prior.value.result else None)
    ensures r.message == (if patch.message.Some? then patch.message
                          else if prior.Some? then prior.value.message else None)
    ensures prior.Some? ==> r.data == prior.value.data && r.workflowId == prior.value.workflowId
                            && r.workflowRunId == prior.value.workflowRunId
    ensures prior.None? ==> r.data.None? && r.workflowId.None? && r.workflowRunId.None?
    ensures ("result" in r.unindexed <==> r.result.Some?) && ("message" in r.unindexed <==> r.message.Some?)
    ensures r.unindexed <= Unindexable
  {
    var base := if prior.Some? then prior.value else Bare(status, now);
    var merged := base.(status := status, timestamp := Some(Stamp(now, None)),
                        result := if patch.result.Some? then patch.result else base.result,
                        message := if patch.message.Some? then patch.message else base.message);
    merged.(unindexed := FieldNames(merged) * Unindexable)
  }

  /** The record stored under `id`, if any. */
  function Lookup(store: Store, id: string): Option<Record> {
    if id in store then Some(store[id]) else None
  }

  /** `update_datastore(id, status, data)`: an upsert of `Touched`. When the
      store fails (`fails`) the error is logged and swallowed, so nothing changes. */
  function UpdateDatastore(store: Store, id: string, status: Status, now: int, patch: Patch, fails: bool): (s: Store)
    ensures fails ==> s == store
    ensures !fails ==> s.Keys == store.Keys + {id}
    ensures forall other :: other in store && other != id ==> other in s && s[other] == store[other]
    ensures forall other :: other in s && other != id ==> other in store
    ensures !fails ==> s[id].status == status && s[id].timestamp == Some(Stamp(now, None))
    ensures !fails && patch.result.Some? ==> s[id].result == patch.result
    ensures !fails && patch.message.Some? ==> s[id].message == patch.message
    ensures !fails && id in store ==>
              && (patch.result.None? ==> s[id].result == store[id].result)
              && (patch.message.None? ==> s[id].message == store[id].message)
              && s[id].data == store[id].data && s[id].workflowId == store[id].workflowId
              && s[id].workflowRunId == store[id].workflowRunId
    ensures !fails ==> ("result" in s[id].unindexed <==> s[id].result.Some?)
                       && ("message" in s[id].unindexed <==> s[id].message.Some?)
                       && s[id].unindexed <= Unindexable
  {
    if fails then store else store[id := Touched(Lookup(store, id), status, now, patch)]
  }

  /** Writing the same update twice leaves what writing it once does. */
  lemma UpdateIdempotent(store: Store, id: string, status: Status, now: int, patch: Patch, fails: bool)
    ensures var once := UpdateDatastore(store, id, status, now, patch, fails);
            UpdateDatastore(once, id, status, now, patch, fails) == once
  {
    var once := UpdateDatastore(store, id, status, now, patch, fails);
    if !fails {
      assert once[id] == Touched(Lookup(store, id), status, now, patch);
      assert Touched(Some(once[id]), status, now, patch) == once[id];
    }
  }

  /** The equality query on `status`: the ids `order` lists whose record has
      that status, in the order listed. `order` stands for the store's own
      enumeration, which the source does not fix. */
  function Query(store: Store, status: Status, order: seq<string>): (ids: seq<string>)
    ensures |ids| <= |order|
    ensures forall i :: 0 <= i < |ids| ==> ids[i] in store && store[ids[i]].status == status
    ensures forall id :: id in ids <==> id in order && id in store && store[id].status == status
  {
    if |order| == 0 then []
    else
      var rest := Query(store, status, order[1..]);
      assert forall id :: id in order <==> id == order[0] || id in order[1..];
      if order[0] in store && store[order[0]].status == status then [order[0]] + rest else rest
  }

  /** The first `limit` ids of a query result (the query's `limit`). */
  function Take(ids: seq<string>, limit: int): (r: seq<string>)
    ensures |r| == (if limit <= 0 then 0 else if limit < |ids| then limit else |ids|)
    ensures r == ids[..|r|]
  {
    if limit <= 0 then [] else if limit < |ids| then ids[..limit] else ids
  }

  /** `order` lists every id of the store exactly once. */
  predicate Enumerates(order: seq<string>, store: Store) {
    && NoDuplicates(order)
    && (forall id :: id in order ==> id in store)
    && (forall id :: id in store ==> id in order)
  }

  /** A query over a duplicate-free enumeration returns no id twice. */
  lemma {:induction false} QueryNoDuplicates(store: Store, status: Status, order: seq<string>)
    requires NoDuplicates(order)
    ensures NoDuplicates(Query(store, status, order))
  {
    if |order| > 0 {
      QueryNoDuplicates(store, status, order[1..]);
      assert order[0] !in order[1..] by {
        forall i | 0 <= i < |order[1..]| ensures order[1..][i] != order[0] {
          assert order[1..][i] == order[i + 1];
        }
      }
    }
  }

  /** The query result depends only on which listed ids have the status. */
  lemma {:induction false} QuerySameSelection(s1: Store, s2: Store, status: Status, order: seq<string>)
    requires forall id :: id in order ==>
               ((id in s1 && s1[id].status == status) <==> (id in s2 && s2[id].status == status))
    ensures Query(s1, status, order) == Query(s2, status, order)
  {
    if |order| > 0 {
      QuerySameSelection(s1, s2, status, order[1..]);
    }
  }

  /** When every listed id has the status, the query returns the whole list. */
  lemma {:induction false} QueryAll(store: Store, status: Status, order: seq<string>)
    requires forall id :: id in order ==> id in store && store[id].status == status
    ensures Query(store, status, order) == order
  {
    if |order| > 0 {
      QueryAll(store, status, order[1..]);
    }
  }

  /** When the jobs holding status `to` afterwards are exactly those that
      held `to` or `from` before, the query for `to` grows by the query
      for `from`. */
  lemma {:induction false} QueryAbsorbs(before: Store, after: Store, to: Status, from: Status, order: seq<string>)
    requires to != from
    requires forall id :: id in order ==> id in before && id in after
    requires forall id :: id in order ==>
               (after[id].status == to <==> before[id].status == to || before[id].status == from)
    ensures |Query(after, to, order)| == |Query(before, to, order)| + |Query(before, from, order)|
  {
    if |order| > 0 {
      QueryAbsorbs(before, after, to, from, order[1..]);
    }
  }

  /** The parsed API-key secret: workflow id to engine API key. */
  type ApiKeys = map<string, string>

  /** Python's truthiness of the key table: None and an empty object are falsy. */
  predicate Configured(keys: Option<ApiKeys>) {
    keys.Some? && |keys.value| > 0
  }

  /** The key listed for an optional workflow id (`keys.get(workflow_id)`). */
  function KeyFor(keys: ApiKeys, workflowId: Option<string>): (k: Option<string>)
    ensures k.Some? <==> workflowId.Some? && workflowId.value in keys
    ensures k.Some? ==> k.value == keys[workflowId.value]
  {
    if workflowId.Some? && workflowId.value in keys then Some(keys[workflowId.value]) else None
  }

  /** `initialize_dify_api_keys`: the parsed secret (`fetched`, None when the
      fetch or the parse fails) when both the project id and the secret id
      are set, and None otherwise. */
  function InitializeApiKeys(projectId: Option<string>, secretId: Option<string>,
                             fetched: Option<ApiKeys>): (keys: Option<ApiKeys>)
    ensures !Truthy(projectId) || !Truthy(secretId) ==> keys.None?
    ensures Truthy(projectId) && Truthy(secretId) ==> keys == fetched
  {
    if Truthy(projectId) && Truthy(secretId) then fetched else None
  }
}
