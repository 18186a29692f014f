/** The loader (dify-batch-processor/loader/main.py): turns spreadsheet rows
    into jobs. It structures each row under the header, keeps the rows the
    filter column selects, derives a deterministic unique id per content
    category, admits the job as PENDING only when its id is new or FAILED,
    and hands the worker a task whose name embeds the id. */
module Loader {
  import opened Basics
  import opened Text
  import opened Shared
  import opened Rows

  // ---------------------------------------------------------------------------
  // Row streaming and filtering

  /** Whether the loader keeps a row: the filter applies only when both the
      column name and the value are non-empty. */
  predicate PassesFilter(cells: StructuredRow, column: string, value: string) {
    !(column != "" && value != "") || FindDataByName(cells, column) == Some(value)
  }

  /** The structured form of every row of a chunk. */
  function StructureAll(header: seq<string>, rows: seq<seq<string>>): (r: seq<StructuredRow>)
    ensures |r| == |rows|
    ensures forall i :: 0 <= i < |rows| ==> r[i] == Structured(header, rows[i])
  {
    seq(|rows|, i requires 0 <= i < |rows| => Structured(header, rows[i]))
  }

  /** The kept rows of one fetched chunk, already structured, whose first row
      is spreadsheet row `first`. */
  function ChunkRows(chunk: seq<StructuredRow>, first: int, column: string, value: string)
    : (r: seq<NumberedRow>)
    ensures |r| <= |chunk|
    ensures forall k :: 0 <= k < |r| ==> first <= r[k].number < first + |chunk|
  {
    if |chunk| == 0 then []
    else
      var rest := ChunkRows(chunk[1..], first + 1, column, value);
      if PassesFilter(chunk[0], column, value) then [NumberedRow(first, chunk[0])] + rest else rest
  }

  /** Every row a chunk yields passes the filter. */
  lemma {:induction false} ChunkRowsPass(chunk: seq<StructuredRow>, first: int, column: string, value: string)
    ensures forall k :: 0 <= k < |ChunkRows(chunk, first, column, value)| ==>
              PassesFilter(ChunkRows(chunk, first, column, value)[k].cells, column, value)
  {
    if |chunk| > 0 {
      ChunkRowsPass(chunk[1..], first + 1, column, value);
    }
  }

  /** Every row a chunk yields carries the cells of the chunk row its number names. */
  lemma {:induction false} ChunkRowsCells(chunk: seq<StructuredRow>, first: int, column: string, value: string)
    ensures forall k :: 0 <= k < |ChunkRows(chunk, first, column, value)| ==>
              var row := ChunkRows(chunk, first, column, value)[k];
              row.cells == chunk[row.number - first]
  {
    if |chunk| > 0 {
      ChunkRowsCells(chunk[1..], first + 1, column, value);
      var rest := ChunkRows(chunk[1..], first + 1, column, value);
      forall k | 0 <= k < |rest|
        ensures rest[k].cells == chunk[rest[k].number - first]
      {
        var i := rest[k].number - first;
        assert chunk[1..][i - 1] == chunk[i];
      }
    }
  }

  /** A chunk yields its rows in increasing row order. */
  lemma {:induction false} ChunkRowsOrdered(chunk: seq<StructuredRow>, first: int, column: string, value: string)
    ensures forall k, k' :: 0 <= k < k' < |ChunkRows(chunk, first, column, value)| ==>
              ChunkRows(chunk, first, column, value)[k].number < ChunkRows(chunk, first, column, value)[k'].number
  {
    if |chunk| > 0 {
      ChunkRowsOrdered(chunk[1..], first + 1, column, value);
    }
  }

  /** Every chunk row that passes the filter is yielded, numbered `first`
      plus its position in the chunk. */
  lemma {:induction false} ChunkRowsComplete(chunk: seq<StructuredRow>, first: int, column: string, value: string)
    ensures forall i :: 0 <= i < |chunk| && PassesFilter(chunk[i], column, value) ==>
              NumberedRow(first + i, chunk[i]) in ChunkRows(chunk, first, column, value)
  {
    if |chunk| > 0 {
      ChunkRowsComplete(chunk[1..], first + 1, column, value);
      var rest := ChunkRows(chunk[1..], first + 1, column, value);
      var r := ChunkRows(chunk, first, column, value);
      assert forall x :: x in rest ==> x in r;
      forall i | 1 <= i < |chunk| && PassesFilter(chunk[i], column, value)
        ensures NumberedRow(first + i, chunk[i]) in r
      {
        assert chunk[1..][i - 1] == chunk[i];
        assert NumberedRow(first + 1 + (i - 1), chunk[1..][i - 1]) in rest;
      }
    }
  }

  /** The answer to one range read: the rows returned, or an API error. */
  datatype Fetch = Rows(rows: seq<seq<string>>) | FetchError

  /** The chunk loop from chunk `n` on: chunk `n` starts at spreadsheet row
      `headerRow + 1 + n * chunkSize`; the loop stops on an error (which the
      generator swallows), on an empty chunk, or after a short chunk. */
  function StreamFrom(header: seq<string>, fetches: seq<Fetch>, n: nat, headerRow: int, chunkSize: nat,
                      column: string, value: string): (r: seq<NumberedRow>)
    decreases |fetches| - n
    ensures forall k :: 0 <= k < |r| ==>
              r[k].number >= headerRow + 1 + n * chunkSize && PassesFilter(r[k].cells, column, value)
  {
    if n >= |fetches| || fetches[n].FetchError? || |fetches[n].rows| == 0 then []
    else
      var first := headerRow + 1 + n * chunkSize;
      var chunk := StructureAll(header, fetches[n].rows);
      var here := ChunkRows(chunk, first, column, value);
      ChunkRowsPass(chunk, first, column, value);
      if |fetches[n].rows| < chunkSize then here
      else
        var more := StreamFrom(header, fetches, n + 1, headerRow, chunkSize, column, value);
        assert (n + 1) * chunkSize >= n * chunkSize;
        here + more
  }

  /** `stream_structured_sheet_data`: nothing when the header is empty, else
      the kept rows of every chunk read. */
  function StreamRows(header: seq<string>, fetches: seq<Fetch>, headerRow: int, chunkSize: nat,
                      column: string, value: string): (r: seq<NumberedRow>)
    ensures |header| == 0 ==> r == []
    ensures forall k :: 0 <= k < |r| ==> r[k].number > headerRow && PassesFilter(r[k].cells, column, value)
  {
    if |header| == 0 then [] else StreamFrom(header, fetches, 0, headerRow, chunkSize, column, value)
  }

  /** When the first chunk is short, the stream is exactly that chunk's kept
      rows, numbered from the row after the header. */
  lemma ShortFirstChunk(header: seq<string>, rows: seq<seq<string>>, later: seq<Fetch>, headerRow: int,
                        chunkSize: nat, column: string, value: string)
    requires |header| > 0 && 0 < |rows| < chunkSize
    ensures StreamRows(header, [Rows(rows)] + later, headerRow, chunkSize, column, value)
            == ChunkRows(StructureAll(header, rows), headerRow + 1, column, value)
  {
    assert 0 * chunkSize == 0;
  }

  // ---------------------------------------------------------------------------
  // Categories, unique ids and workflow inputs

  /** The content categories the loader knows. */
  datatype Category = PassageAnalysis | Workbook

  /** The category a (stripped) name denotes: "본문분석" or "워크북". */
  function ParseCategory(name: string): Option<Category> {
    if name == "본문분석" then Some(PassageAnalysis)
    else if name == "워크북" then Some(Workbook)
    else None
  }

  /** The workflow ids configured per category (None when the variable is unset). */
  datatype LoaderConfig = LoaderConfig(passageAnalysisWorkflowId: Option<string>, workbookWorkflowId: Option<string>)

  function WorkflowIdFor(config: LoaderConfig, c: Category): Option<string> {
    match c
    case PassageAnalysis => config.passageAnalysisWorkflowId
    case Workbook => config.workbookWorkflowId
  }

  /** `create_unique_id_by_category`: "{workflow}_{passageGroupId}" for a
      passage analysis and "{workflow}_{passageGroupId}_{passageId}" for a
      workbook, missing parts rendered as "None". */
  function UniqueId(cells: StructuredRow, c: Category, config: LoaderConfig): string {
    var prefix := Render(WorkflowIdFor(config, c)) + "_" + Render(FindDataByName(cells, "passageGroupId"));
    match c
    case PassageAnalysis => prefix
    case Workbook => prefix + "_" + Render(FindDataByName(cells, "passageId"))
  }

  /** The components a unique id is built from. */
  function IdParts(cells: StructuredRow, c: Category, config: LoaderConfig): seq<string> {
    var common := [Render(WorkflowIdFor(config, c)), Render(FindDataByName(cells, "passageGroupId"))];
    match c
    case PassageAnalysis => common
    case Workbook => common + [Render(FindDataByName(cells, "passageId"))]
  }

  /** When no component holds "_", splitting the unique id on "_" recovers its components. */
  lemma UniqueIdDecodes(cells: StructuredRow, c: Category, config: LoaderConfig)
    requires forall i :: 0 <= i < |IdParts(cells, c, config)| ==> '_' !in IdParts(cells, c, config)[i]
    ensures Split(UniqueId(cells, c, config), '_') == IdParts(cells, c, config)
  {
    var parts := IdParts(cells, c, config);
    SplitJoin(parts, '_');
    if c == PassageAnalysis {
      assert Join(parts, '_') == parts[0] + "_" + parts[1];
    } else {
      assert Join(parts[2..], '_') == parts[2];
      assert Join(parts[1..], '_') == parts[1] + "_" + parts[2];
      assert Join(parts, '_') == parts[0] + "_" + parts[1] + "_" + parts[2];
    }
  }

  /** Distinct rows of one category get distinct ids: the id determines the
      passage group (and, for a workbook, the passage) when no component holds "_". */
  lemma UniqueIdInjective(a: StructuredRow, b: StructuredRow, c: Category, config: LoaderConfig)
    requires forall i :: 0 <= i < |IdParts(a, c, config)| ==> '_' !in IdParts(a, c, config)[i]
    requires forall i :: 0 <= i < |IdParts(b, c, config)| ==> '_' !in IdParts(b, c, config)[i]
    requires UniqueId(a, c, config) == UniqueId(b, c, config)
    ensures IdParts(a, c, config) == IdParts(b, c, config)
  {
    UniqueIdDecodes(a, c, config);
    UniqueIdDecodes(b, c, config);
  }

  /** `to_dify_inputs_by_category`: the workflow inputs looked up by name;
      a workbook also carries "isNew" as the string "true" or "false". */
  function ToDifyInputs(cells: StructuredRow, c: Category, isNew: bool): (inputs: Inputs)
    ensures "passage" in inputs && inputs["passage"] == FindDataByName(cells, "passage")
    ensures "passageGroupId" in inputs && inputs["passageGroupId"] == FindDataByName(cells, "passageGroupId")
    ensures c == PassageAnalysis ==> inputs.Keys == {"passage", "interpretation", "passageGroupId", "env"}
    ensures c == Workbook ==> inputs.Keys == {"passageId", "passage", "interpretation", "passageGroupId", "env", "isNew"}
    ensures c == Workbook ==> inputs["isNew"] == Some(if isNew then "true" else "false")
    ensures forall k :: k in inputs && k != "isNew" ==> inputs[k] == FindDataByName(cells, k)
  {
    var common := map["passage" := FindDataByName(cells, "passage"),
                       "interpretation" := FindDataByName(cells, "interpretation"),
                       "passageGroupId" := FindDataByName(cells, "passageGroupId"),
                       "env" := FindDataByName(cells, "env")];
    match c
    case PassageAnalysis => common
    case Workbook =>
      common["passageId" := FindDataByName(cells, "passageId")]["isNew" := Some(if isNew then "true" else "false")]
  }

  /** Every input but "isNew" read from a sheet row is the cell under the
      first header column of that name, and None exactly when no column has
      the name. */
  lemma InputsFromSheet(header: seq<string>, row: seq<string>, c: Category, isNew: bool, k: string)
    requires k in ToDifyInputs(Structured(header, row), c, isNew) && k != "isNew"
    ensures var inputs := ToDifyInputs(Structured(header, row), c, isNew);
            && (inputs[k].None? <==> NameAbsent(header, |header|, k))
            && (forall j :: 0 <= j < |header| && header[j] == k && NameAbsent(header, j, k) ==>
                  inputs[k] == Some(CellAt(row, j)))
  {
    assert k != "";
    LookupStructured(header, row, |header|, k);
  }

  // ---------------------------------------------------------------------------
  // Admission and task naming

  /** The outcome of the admission transaction. */
  datatype Admission = Admission(store: Store, admitted: bool)

  /** The admission transaction: write PENDING (and a fresh timestamp) over a
      missing or FAILED record, keeping its other fields; leave any other
      record alone. */
  function Admit(store: Store, id: string, now: int): (a: Admission)
    ensures a.admitted <==> id !in store || store[id].status == Failed
    ensures !a.admitted ==> a.store == store
    ensures a.admitted ==> a.store.Keys == store.Keys + {id}
                           && a.store[id].status == Pending && a.store[id].timestamp == Some(Stamp(now, None))
    ensures a.admitted && id in store ==>
              a.store[id] == store[id].(status := Pending, timestamp := Some(Stamp(now, None)))
    ensures a.admitted && id !in store ==> a.store[id] == Bare(Pending, now)
    ensures forall other :: other != id && other in store ==> other in a.store && a.store[other] == store[other]
  {
    if id !in store then Admission(store[id := Bare(Pending, now)], true)
    else if store[id].status == Failed then
      Admission(store[id := store[id].(status := Pending, timestamp := Some(Stamp(now, None)))], true)
    else Admission(store, false)
  }

  /** The workbook "isNew" flag as the source computes it after admission. */
  function IsNew(c: Category, prior: Option<Status>): bool {
    c == Workbook && prior == Some(Success)
  }

  /** A task is only created for a missing or FAILED record, so "isNew" is always false. */
  lemma IsNewNeverSet(store: Store, id: string, now: int, c: Category)
    requires Admit(store, id, now).admitted
    ensures !IsNew(c, if id in store then Some(store[id].status) else None)
  {
  }

  /** The task name "{unique_id}_{seconds}" for the clock `now` in microseconds. */
  function TaskName(uniqueId: string, now: nat): string {
    uniqueId + "_" + NatToString(now / 1000000)
  }

  /** How `create_cloud_task` reads a task name: the workflow id is the first
      "_"-piece and the unique id is every piece but the last, rejoined. */
  datatype ParsedName = ParsedName(workflowId: string, uniqueId: string)

  function ParseTaskName(name: string): ParsedName {
    var pieces := Split(name, '_');
    ParsedName(pieces[0], Join(pieces[..|pieces| - 1], '_'))
  }

  /** Parsing a task name recovers the unique id and the id's first piece. */
  lemma TaskNameRoundTrip(uniqueId: string, now: nat)
    ensures ParseTaskName(TaskName(uniqueId, now)).uniqueId == uniqueId
    ensures ParseTaskName(TaskName(uniqueId, now)).workflowId == Split(uniqueId, '_')[0]
    ensures var pieces := Split(TaskName(uniqueId, now), '_');
            && |pieces| > 0 && pieces[|pieces| - 1] == NatToString(now / 1000000)
            && DecimalValue(NatToString(now / 1000000)) == now / 1000000
  {
    var ts := NatToString(now / 1000000);
    DecimalRoundTrip(now / 1000000);
    assert '_' !in ts by {
      assert forall i :: 0 <= i < |ts| ==> ts[i] != '_';
    }
    SplitAround(uniqueId, ts, '_');
    SplitWithoutSeparator(ts, '_');
    var pieces := Split(TaskName(uniqueId, now), '_');
    assert pieces == Split(uniqueId, '_') + [ts];
    assert pieces[..|pieces| - 1] == Split(uniqueId, '_');
    JoinSplit(uniqueId, '_');
  }

  /** For an id "{workflow}_..." whose workflow id has no "_", the parsed
      workflow id is that workflow id. */
  lemma TaskNameWorkflow(workflowId: string, rest: string, now: nat)
    requires '_' !in workflowId
    ensures ParseTaskName(TaskName(workflowId + "_" + rest, now)).workflowId == workflowId
  {
    TaskNameRoundTrip(workflowId + "_" + rest, now);
    SplitAround(workflowId, rest, '_');
    SplitWithoutSeparator(workflowId, '_');
  }

  /** The body `create_cloud_task` sends: the parsed ids and the inputs. */
  function CloudTaskMessage(inputs: Inputs, name: string): TaskMessage {
    var parsed := ParseTaskName(name);
    TaskMessage(Some(parsed.uniqueId), Some(inputs), Some(parsed.workflowId))
  }

  /** What creating a task returns: created, already there (logged and
      skipped), or another error (raised). */
  datatype CreateOutcome = Created | AlreadyExists | CreateError(text: string)

  /** A task the loader handed to the queue. */
  datatype Task = Task(name: string, message: TaskMessage)

  // ---------------------------------------------------------------------------
  // The loader run

  /** Progress through the rows: the store, the tasks handed over, the ids
      admitted (written PENDING), and whether an exception ended the run. */
  datatype LoadState = LoadState(store: Store, tasks: seq<Task>, admitted: seq<string>, crashed: bool)

  /** One category of one row: strip it, derive the id (an unknown category
      yields no id, and the store rejects the key), admit, and on admission
      create the task. A failing admission transaction (`txFails`) commits
      nothing and ends the run. */
  function LoadCategory(st: LoadState, cells: StructuredRow, name: string, config: LoaderConfig, now: nat,
                        enqueue: string -> CreateOutcome, txFails: string -> bool): LoadState
  {
    if st.crashed then st
    else match ParseCategory(Strip(name))
      case None => st.(crashed := true)
      case Some(c) =>
        var id := UniqueId(cells, c, config);
        var prior := if id in st.store then Some(st.store[id].status) else None;
        var a := Admit(st.store, id, now);
        if txFails(id) then st.(crashed := true)
        else if !a.admitted then st
        else
          var task := TaskName(id, now);
          var inputs := ToDifyInputs(cells, c, IsNew(c, prior));
          if enqueue(task).CreateError? then LoadState(a.store, st.tasks, st.admitted + [id], true)
          else LoadState(a.store, st.tasks + [Task(task, CloudTaskMessage(inputs, task))], st.admitted + [id], false)
  }

  function LoadCategories(st: LoadState, cells: StructuredRow, names: seq<string>, config: LoaderConfig, now: nat,
                          enqueue: string -> CreateOutcome, txFails: string -> bool): LoadState
    decreases |names|
  {
    if |names| == 0 then st
    else LoadCategories(LoadCategory(st, cells, names[0], config, now, enqueue, txFails), cells, names[1..],
                        config, now, enqueue, txFails)
  }

  /** The comma-separated category names of a streamed row: none when the
      row is empty or has no content category. */
  function CategoryNames(row: NumberedRow): seq<string> {
    var category := FindDataByName(row.cells, "content_category");
    if |row.cells| == 0 || !Truthy(category) then [] else Split(category.value, ',')
  }

  /** One streamed row: each of its category names in turn. */
  function LoadRow(st: LoadState, row: NumberedRow, config: LoaderConfig, now: nat,
                   enqueue: string -> CreateOutcome, txFails: string -> bool): LoadState
  {
    LoadCategories(st, row.cells, CategoryNames(row), config, now, enqueue, txFails)
  }

  function LoadRows(st: LoadState, rows: seq<NumberedRow>, config: LoaderConfig, now: nat,
                    enqueue: string -> CreateOutcome, txFails: string -> bool): LoadState
    decreases |rows|
  {
    if |rows| == 0 then st
    else LoadRows(LoadRow(st, rows[0], config, now, enqueue, txFails), rows[1..], config, now, enqueue, txFails)
  }

  datatype LoaderOutcome = LoaderOutcome(store: Store, tasks: seq<Task>, reply: Reply)

  /** The loader's `main` over the streamed rows. */
  function LoadAll(store: Store, rows: seq<NumberedRow>, config: LoaderConfig, now: nat,
                   enqueue: string -> CreateOutcome, txFails: string -> bool): LoaderOutcome
  {
    var st := LoadRows(LoadState(store, [], [], false), rows, config, now, enqueue, txFails);
    var reply :=
      if st.crashed then Reply("Internal Server Error", 500)
      else if |rows| == 0 then Reply("No data found in Google Sheets.", 200)
      else Reply("Created " + NatToString(|st.tasks|) + " tasks.", 200);
    LoaderOutcome(st.store, st.tasks, reply)
  }

  /** The loader's `main`: the header row is row 1, chunks hold 300 rows, and
      only rows whose "target" column reads "TRUE" are kept. */
  function LoaderMain(store: Store, header: seq<string>, fetches: seq<Fetch>, config: LoaderConfig, now: nat,
                      enqueue: string -> CreateOutcome, txFails: string -> bool): LoaderOutcome
  {
    LoadAll(store, StreamRows(header, fetches, 1, 300, "target", "TRUE"), config, now, enqueue, txFails)
  }

  /** A failing admission transaction ends the run where it stands: the
      store and the tasks keep what earlier categories wrote, and nothing of
      this category is committed. */
  lemma TransactionFailure(st: LoadState, cells: StructuredRow, name: string, config: LoaderConfig, now: nat,
                           enqueue: string -> CreateOutcome, txFails: string -> bool)
    requires !st.crashed && ParseCategory(Strip(name)).Some?
    requires txFails(UniqueId(cells, ParseCategory(Strip(name)).value, config))
    ensures LoadCategory(st, cells, name, config, now, enqueue, txFails) == st.(crashed := true)
  {
  }

  /** Once the run has crashed, no later category writes or creates
      anything. */
  lemma {:induction false} CrashedCategoriesStop(st: LoadState, cells: StructuredRow, names: seq<string>,
                                                 config: LoaderConfig, now: nat, enqueue: string -> CreateOutcome,
                                                 txFails: string -> bool)
    requires st.crashed
    decreases |names|
    ensures LoadCategories(st, cells, names, config, now, enqueue, txFails) == st
  {
    if |names| > 0 {
      CrashedCategoriesStop(st, cells, names[1..], config, now, enqueue, txFails);
    }
  }

  /** Once the run has crashed, no later row writes or creates anything;
      the loader then answers 500. */
  lemma {:induction false} CrashedRunStops(st: LoadState, rows: seq<NumberedRow>, config: LoaderConfig, now: nat,
                                           enqueue: string -> CreateOutcome, txFails: string -> bool)
    requires st.crashed
    decreases |rows|
    ensures LoadRows(st, rows, config, now, enqueue, txFails) == st
  {
    if |rows| > 0 {
      CrashedCategoriesStop(st, rows[0].cells, CategoryNames(rows[0]), config, now, enqueue, txFails);
      CrashedRunStops(st, rows[1..], config, now, enqueue, txFails);
    }
  }

  // ---------------------------------------------------------------------------
  // What a loader run guarantees

  /** The relation between the store a run started from and its progress. */
  ghost predicate Consistent(start: Store, st: LoadState) {
    && NoDuplicates(st.admitted)
    && (forall i :: 0 <= i < |st.admitted| ==>
          st.admitted[i] in st.store && st.store[st.admitted[i]].status == Pending)
    && (forall i :: 0 <= i < |st.admitted| ==>
          st.admitted[i] !in start || start[st.admitted[i]].status == Failed)
    && (forall id :: id in start && id !in st.admitted ==> id in st.store && st.store[id] == start[id])
    && (forall id :: id in st.store ==> id in start || id in st.admitted)
    && (forall k :: 0 <= k < |st.tasks| ==>
          st.tasks[k].message.uniqueId.Some? && st.tasks[k].message.uniqueId.value in st.admitted)
    && (forall k, k' :: 0 <= k < k' < |st.tasks| ==> st.tasks[k].message.uniqueId != st.tasks[k'].message.uniqueId)
  }

  /** Admitting one id, with or without a task naming it, keeps the run consistent. */
  lemma AdmitStepConsistent(start: Store, st: LoadState, id: string, now: int, task: Option<Task>, crashed: bool)
    requires Consistent(start, st)
    requires Admit(st.store, id, now).admitted
    requires task.Some? ==> task.value.message.uniqueId == Some(id)
    ensures Consistent(start, LoadState(Admit(st.store, id, now).store,
                                        st.tasks + (if task.Some? then [task.value] else []),
                                        st.admitted + [id], crashed))
  {
    var store' := Admit(st.store, id, now).store;
    var tasks' := st.tasks + (if task.Some? then [task.value] else []);
    var admitted' := st.admitted + [id];
    assert id !in st.admitted by {
      forall i | 0 <= i < |st.admitted| ensures st.admitted[i] != id {
        assert st.store[st.admitted[i]].status == Pending;
      }
    }
    assert id !in start || start[id].status == Failed by {
      if id in start { assert id in st.store && st.store[id] == start[id]; }
    }
    assert NoDuplicates(admitted') by {
      forall i, j | 0 <= i < j < |admitted'| ensures admitted'[i] != admitted'[j] {
        if j < |st.admitted| { assert admitted'[i] == st.admitted[i] && admitted'[j] == st.admitted[j]; }
      }
    }
    forall i | 0 <= i < |admitted'|
      ensures admitted'[i] in store' && store'[admitted'[i]].status == Pending
      ensures admitted'[i] !in start || start[admitted'[i]].status == Failed
    {
      if i < |st.admitted| { assert admitted'[i] == st.admitted[i]; }
    }
    forall id' | id' in start && id' !in admitted'
      ensures id' in store' && store'[id'] == start[id']
    {
      assert id' !in st.admitted;
    }
    forall id' | id' in store' ensures id' in start || id' in admitted' {
      if id' != id { assert id' in st.store; }
    }
    forall k | 0 <= k < |tasks'|
      ensures tasks'[k].message.uniqueId.Some? && tasks'[k].message.uniqueId.value in admitted'
    {
      if k < |st.tasks| { assert tasks'[k] == st.tasks[k]; }
    }
    forall k, k' | 0 <= k < k' < |tasks'|
      ensures tasks'[k].message.uniqueId != tasks'[k'].message.uniqueId
    {
      assert tasks'[k] == st.tasks[k];
      if k' < |st.tasks| { assert tasks'[k'] == st.tasks[k']; }
    }
  }

  lemma LoadCategoryConsistent(start: Store, st: LoadState, cells: StructuredRow, name: string,
                               config: LoaderConfig, now: nat, enqueue: string -> CreateOutcome, txFails: string -> bool)
    requires Consistent(start, st)
    ensures Consistent(start, LoadCategory(st, cells, name, config, now, enqueue, txFails))
  {
    if !st.crashed && ParseCategory(Strip(name)).Some? {
      var c := ParseCategory(Strip(name)).value;
      var id := UniqueId(cells, c, config);
      var a := Admit(st.store, id, now);
      if !txFails(id) && a.admitted {
        var prior := if id in st.store then Some(st.store[id].status) else None;
        var task := TaskName(id, now);
        var inputs := ToDifyInputs(cells, c, IsNew(c, prior));
        TaskNameRoundTrip(id, now);
        if enqueue(task).CreateError? {
          AdmitStepConsistent(start, st, id, now, None, true);
          assert st.tasks + [] == st.tasks;
        } else {
          AdmitStepConsistent(start, st, id, now, Some(Task(task, CloudTaskMessage(inputs, task))), false);
        }
      }
    }
  }

  lemma {:induction false} LoadCategoriesConsistent(start: Store, st: LoadState, cells: StructuredRow,
                                                    names: seq<string>, config: LoaderConfig, now: nat,
                                                    enqueue: string -> CreateOutcome, txFails: string -> bool)
    requires Consistent(start, st)
    decreases |names|
    ensures Consistent(start, LoadCategories(st, cells, names, config, now, enqueue, txFails))
  {
    if |names| > 0 {
      LoadCategoryConsistent(start, st, cells, names[0], config, now, enqueue, txFails);
      LoadCategoriesConsistent(start, LoadCategory(st, cells, names[0], config, now, enqueue, txFails),
                               cells, names[1..], config, now, enqueue, txFails);
    }
  }

  lemma {:induction false} LoadRowsConsistent(start: Store, st: LoadState, rows: seq<NumberedRow>,
                                              config: LoaderConfig, now: nat, enqueue: string -> CreateOutcome, txFails: string -> bool)
    requires Consistent(start, st)
    decreases |rows|
    ensures Consistent(start, LoadRows(st, rows, config, now, enqueue, txFails))
  {
    if |rows| > 0 {
      LoadCategoriesConsistent(start, st, rows[0].cells, CategoryNames(rows[0]), config, now, enqueue, txFails);
      LoadRowsConsistent(start, LoadRow(st, rows[0], config, now, enqueue, txFails), rows[1..], config, now,
                         enqueue, txFails);
    }
  }

  /** A loader run never touches a PENDING, QUEUED, PROCESSING or SUCCESS job;
      every record it changes or creates was missing or FAILED and is now
      PENDING; and it hands over at most one task per unique id, each naming
      such a job. */
  lemma LoaderAdmitsOnlyNewOrFailed(store: Store, rows: seq<NumberedRow>, config: LoaderConfig, now: nat,
                                    enqueue: string -> CreateOutcome, txFails: string -> bool)
    ensures var out := LoadAll(store, rows, config, now, enqueue, txFails);
            && (forall id :: id in store && store[id].status != Failed ==> id in out.store && out.store[id] == store[id])
            && (forall id :: id in out.store && (id !in store || out.store[id] != store[id]) ==>
                  out.store[id].status == Pending && (id !in store || store[id].status == Failed))
            && (forall k :: 0 <= k < |out.tasks| ==>
                  && out.tasks[k].message.uniqueId.Some?
                  && var id := out.tasks[k].message.uniqueId.value;
                     id in out.store && out.store[id].status == Pending && (id !in store || store[id].status == Failed))
            && (forall k, k' :: 0 <= k < k' < |out.tasks| ==>
                  out.tasks[k].message.uniqueId != out.tasks[k'].message.uniqueId)
  {
    var st0 := LoadState(store, [], [], false);
    LoadRowsConsistent(store, st0, rows, config, now, enqueue, txFails);
    var st := LoadRows(st0, rows, config, now, enqueue, txFails);
    forall id | id in st.store && (id !in store || st.store[id] != store[id])
      ensures st.store[id].status == Pending && (id !in store || store[id].status == Failed)
    {
      var i :| 0 <= i < |st.admitted| && st.admitted[i] == id;
    }
    forall k | 0 <= k < |st.tasks|
      ensures var id := st.tasks[k].message.uniqueId.value;
              id in st.store && st.store[id].status == Pending && (id !in store || store[id].status == Failed)
    {
      var id := st.tasks[k].message.uniqueId.value;
      var i :| 0 <= i < |st.admitted| && st.admitted[i] == id;
    }
  }

  // ---------------------------------------------------------------------------
  // Every category of every row is processed

  /** While a run has not crashed, its tasks pair up with its admissions:
      one task per admitted id, in the same order. */
  ghost predicate Paired(st: LoadState) {
    !st.crashed ==>
      && |st.tasks| == |st.admitted|
      && forall k :: 0 <= k < |st.tasks| ==> st.tasks[k].message.uniqueId == Some(st.admitted[k])
  }

  /** `id` has been dealt with: it is in the store, and it has been admitted
      when the run found it missing or FAILED. */
  ghost predicate Covered(start: Store, st: LoadState, id: string) {
    id in st.store && ((id !in start || start[id].status == Failed) ==> id in st.admitted)
  }

  /** One category only adds: no key and no admission is lost, a crashed
      run is left as it is, and tasks stay paired with admissions. */
  lemma LoadCategoryGrows(st: LoadState, cells: StructuredRow, name: string, config: LoaderConfig, now: nat,
                          enqueue: string -> CreateOutcome, txFails: string -> bool)
    ensures var next := LoadCategory(st, cells, name, config, now, enqueue, txFails);
            && st.store.Keys <= next.store.Keys
            && (forall id :: id in st.admitted ==> id in next.admitted)
            && (st.crashed ==> next == st)
            && (Paired(st) ==> Paired(next))
  {
    if !st.crashed && ParseCategory(Strip(name)).Some? {
      var id := UniqueId(cells, ParseCategory(Strip(name)).value, config);
      TaskNameRoundTrip(id, now);
    }
  }

  lemma {:induction false} LoadCategoriesGrows(st: LoadState, cells: StructuredRow, names: seq<string>,
                                               config: LoaderConfig, now: nat, enqueue: string -> CreateOutcome,
                                               txFails: string -> bool)
    decreases |names|
    ensures var next := LoadCategories(st, cells, names, config, now, enqueue, txFails);
            && st.store.Keys <= next.store.Keys
            && (forall id :: id in st.admitted ==> id in next.admitted)
            && (st.crashed ==> next == st)
            && (Paired(st) ==> Paired(next))
  {
    if |names| > 0 {
      LoadCategoryGrows(st, cells, names[0], config, now, enqueue, txFails);
      LoadCategoriesGrows(LoadCategory(st, cells, names[0], config, now, enqueue, txFails), cells, names[1..],
                          config, now, enqueue, txFails);
    }
  }

  lemma {:induction false} LoadRowsGrows(st: LoadState, rows: seq<NumberedRow>, config: LoaderConfig, now: nat,
                                         enqueue: string -> CreateOutcome, txFails: string -> bool)
    decreases |rows|
    ensures var next := LoadRows(st, rows, config, now, enqueue, txFails);
            && st.store.Keys <= next.store.Keys
            && (forall id :: id in st.admitted ==> id in next.admitted)
            && (st.crashed ==> next == st)
            && (Paired(st) ==> Paired(next))
  {
    if |rows| > 0 {
      LoadCategoriesGrows(st, rows[0].cells, CategoryNames(rows[0]), config, now, enqueue, txFails);
      LoadRowsGrows(LoadRow(st, rows[0], config, now, enqueue, txFails), rows[1..], config, now, enqueue, txFails);
    }
  }

  /** A category that does not crash the run covers its id. */
  lemma LoadCategoryCovers(start: Store, st: LoadState, cells: StructuredRow, name: string, config: LoaderConfig,
                           now: nat, enqueue: string -> CreateOutcome, txFails: string -> bool)
    requires Consistent(start, st) && ParseCategory(Strip(name)).Some?
    requires !LoadCategory(st, cells, name, config, now, enqueue, txFails).crashed
    ensures Covered(start, LoadCategory(st, cells, name, config, now, enqueue, txFails),
                    UniqueId(cells, ParseCategory(Strip(name)).value, config))
  {
    var id := UniqueId(cells, ParseCategory(Strip(name)).value, config);
    if !Admit(st.store, id, now).admitted && id in start && id !in st.admitted {
      assert st.store[id] == start[id];
    }
  }

  /** Every id a sequence of category names of one row asks for is
      covered. */
  ghost predicate NamesCovered(start: Store, st: LoadState, cells: StructuredRow, names: seq<string>,
                               config: LoaderConfig) {
    forall i :: 0 <= i < |names| && ParseCategory(Strip(names[i])).Some? ==>
      Covered(start, st, UniqueId(cells, ParseCategory(Strip(names[i])).value, config))
  }

  /** Coverage survives a run that only adds keys and admissions. */
  lemma NamesCoveredGrows(start: Store, st: LoadState, next: LoadState, cells: StructuredRow, names: seq<string>,
                          config: LoaderConfig)
    requires NamesCovered(start, st, cells, names, config)
    requires st.store.Keys <= next.store.Keys && (forall id :: id in st.admitted ==> id in next.admitted)
    ensures NamesCovered(start, next, cells, names, config)
  {
  }

  /** Categories that do not crash the run cover every id they name. */
  lemma {:induction false} LoadCategoriesCovers(start: Store, st: LoadState, cells: StructuredRow, names: seq<string>,
                                                config: LoaderConfig, now: nat, enqueue: string -> CreateOutcome,
                                                txFails: string -> bool)
    requires Consistent(start, st)
    requires !LoadCategories(st, cells, names, config, now, enqueue, txFails).crashed
    decreases |names|
    ensures NamesCovered(start, LoadCategories(st, cells, names, config, now, enqueue, txFails), cells, names, config)
  {
    if |names| > 0 {
      var next := LoadCategory(st, cells, names[0], config, now, enqueue, txFails);
      var rest := names[1..];
      var final := LoadCategories(next, cells, rest, config, now, enqueue, txFails);
      LoadCategoryConsistent(start, st, cells, names[0], config, now, enqueue, txFails);
      LoadCategoriesGrows(next, cells, rest, config, now, enqueue, txFails);
      LoadCategoriesCovers(start, next, cells, rest, config, now, enqueue, txFails);
      if ParseCategory(Strip(names[0])).Some? {
        LoadCategoryCovers(start, st, cells, names[0], config, now, enqueue, txFails);
      }
      forall i | 0 <= i < |names| && ParseCategory(Strip(names[i])).Some?
        ensures Covered(start, final, UniqueId(cells, ParseCategory(Strip(names[i])).value, config))
      {
        if i > 0 {
          assert rest[i - 1] == names[i];
        }
      }
    }
  }

  /** Rows that do not crash the run cover every id their categories name. */
  lemma {:induction false} LoadRowsCovers(start: Store, st: LoadState, rows: seq<NumberedRow>, config: LoaderConfig,
                                          now: nat, enqueue: string -> CreateOutcome, txFails: string -> bool)
    requires Consistent(start, st)
    requires !LoadRows(st, rows, config, now, enqueue, txFails).crashed
    decreases |rows|
    ensures forall k :: 0 <= k < |rows| ==>
              NamesCovered(start, LoadRows(st, rows, config, now, enqueue, txFails), rows[k].cells,
                           CategoryNames(rows[k]), config)
  {
    if |rows| > 0 {
      var next := LoadRow(st, rows[0], config, now, enqueue, txFails);
      var rest := rows[1..];
      var final := LoadRows(next, rest, config, now, enqueue, txFails);
      LoadCategoriesConsistent(start, st, rows[0].cells, CategoryNames(rows[0]), config, now, enqueue, txFails);
      LoadRowsGrows(next, rest, config, now, enqueue, txFails);
      LoadCategoriesCovers(start, st, rows[0].cells, CategoryNames(rows[0]), config, now, enqueue, txFails);
      NamesCoveredGrows(start, next, final, rows[0].cells, CategoryNames(rows[0]), config);
      LoadRowsCovers(start, next, rest, config, now, enqueue, txFails);
      forall k | 1 <= k < |rows|
        ensures NamesCovered(start, final, rows[k].cells, CategoryNames(rows[k]), config)
      {
        assert rest[k - 1] == rows[k];
      }
    }
  }

  /** A loader run that does not answer 500 processes every category of
      every streamed row: each such id ends in the store, and one the run
      found missing or FAILED is PENDING with a task naming it. The reply
      counts the tasks, or reports that no row was streamed. */
  lemma LoaderProcessesEveryCategory(store: Store, rows: seq<NumberedRow>, config: LoaderConfig, now: nat,
                                     enqueue: string -> CreateOutcome, txFails: string -> bool)
    ensures var out := LoadAll(store, rows, config, now, enqueue, txFails);
            out.reply.code != 500 ==>
              && out.reply == (if |rows| == 0 then Reply("No data found in Google Sheets.", 200)
                               else Reply("Created " + NatToString(|out.tasks|) + " tasks.", 200))
              && forall k, i :: 0 <= k < |rows| && 0 <= i < |CategoryNames(rows[k])| &&
                                ParseCategory(Strip(CategoryNames(rows[k])[i])).Some? ==>
                   var id := UniqueId(rows[k].cells, ParseCategory(Strip(CategoryNames(rows[k])[i])).value, config);
                   && id in out.store
                   && ((id !in store || store[id].status == Failed) ==>
                         && out.store[id].status == Pending
                         && exists j :: 0 <= j < |out.tasks| && out.tasks[j].message.uniqueId == Some(id))
  {
    var st0 := LoadState(store, [], [], false);
    var st := LoadRows(st0, rows, config, now, enqueue, txFails);
    if !st.crashed {
      LoadRowsConsistent(store, st0, rows, config, now, enqueue, txFails);
      LoadRowsGrows(st0, rows, config, now, enqueue, txFails);
      LoadRowsCovers(store, st0, rows, config, now, enqueue, txFails);
      forall k, i | 0 <= k < |rows| && 0 <= i < |CategoryNames(rows[k])| &&
                    ParseCategory(Strip(CategoryNames(rows[k])[i])).Some?
        ensures var id := UniqueId(rows[k].cells, ParseCategory(Strip(CategoryNames(rows[k])[i])).value, config);
                (id !in store || store[id].status == Failed) ==>
                  exists j :: 0 <= j < |st.tasks| && st.tasks[j].message.uniqueId == Some(id)
      {
        var id := UniqueId(rows[k].cells, ParseCategory(Strip(CategoryNames(rows[k])[i])).value, config);
        assert NamesCovered(store, st, rows[k].cells, CategoryNames(rows[k]), config);
        if id !in store || store[id].status == Failed {
          var j :| 0 <= j < |st.admitted| && st.admitted[j] == id;
          assert st.tasks[j].message.uniqueId == Some(id);
        }
      }
    }
  }
}
