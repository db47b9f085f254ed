/**
 * Stage 2 (`InformationCompressorNode.summerizer`): route the classified records,
 * send item `i` to pool slot `i % 4` with the other slots as fallbacks, keep the
 * valid outcomes per category and copy them into three output lists with
 * bucket-local `file_id` values. Failed items are dropped, never raised.
 */
module Compressor {
  import opened Wrappers
  import opened Records
  import opened OrderedDicts
  import opened EndpointPool
  import opened Executor
  import opened Routing
  import opened Aggregation

  /** The outcome of task `i`: its file, its candidates, its category's prompts, its path as identifier. */
  function TaskOutcome(items: seq<WorkItem>, i: nat, clients: seq<ClientHandle>, modelNames: seq<string>,
                       prompts: Prompts, env: Backend): TaskResult
    requires i < |items|
    requires |clients| == Stage2PoolSize && |modelNames| == Stage2PoolSize
  {
    var WorkItem(path, c) := items[i];
    ProcessBatchResult(path, Stage2Candidates(i, clients, modelNames), prompts.SystemFor(c), prompts.UserFor(c), Some(path), c, env)
  }

  /** `asyncio.gather(..., return_exceptions=True)`: one outcome per task, index-aligned. */
  function TaskOutcomes(items: seq<WorkItem>, clients: seq<ClientHandle>, modelNames: seq<string>,
                        prompts: Prompts, env: Backend): (r: seq<TaskResult>)
    requires |clients| == Stage2PoolSize && |modelNames| == Stage2PoolSize
    ensures |r| == |items|
  {
    seq(|items|, i requires 0 <= i < |items| => TaskOutcome(items, i, clients, modelNames, prompts, env))
  }

  /** The three output lists `summerizer` builds from the records and the gathered outcomes. */
  function SummaryFrom(classified: seq<Record>, results: seq<TaskResult>): Summary
    requires |results| == |Dispatched(classified)|
  {
    var items := Dispatched(classified);
    var idx := LastIndex(classified);
    Summary(
      Bucket(Collected(items, results, Docstring), classified, idx, Docstring),
      Bucket(Collected(items, results, Documentation), classified, idx, Documentation),
      Bucket(Collected(items, results, Config), classified, idx, Config))
  }

  /** What `summerizer` returns for the Stage 1 records. */
  function Summarised(classified: seq<Record>, clients: seq<ClientHandle>, modelNames: seq<string>,
                      prompts: Prompts, env: Backend): Summary
    requires |clients| == Stage2PoolSize && |modelNames| == Stage2PoolSize
  {
    SummaryFrom(classified, TaskOutcomes(Dispatched(classified), clients, modelNames, prompts, env))
  }

  /** Output list `c` is the list built from `results_<c>`. */
  lemma ListForIsBucket(classified: seq<Record>, results: seq<TaskResult>, c: Category)
    requires |results| == |Dispatched(classified)|
    ensures SummaryFrom(classified, results).ListFor(c)
      == Bucket(Collected(Dispatched(classified), results, c), classified, LastIndex(classified), c)
  {
  }

  /**
   * The contents of each output list, whatever the gathered outcomes. Entry `k` has
   * `file_id` `k`; it is the copy of the last record with its path, carrying the payload
   * of the last kept outcome of a work item of that path and category; and every kept
   * outcome has an entry with its path.
   */
  lemma {:induction false} SummaryContents(classified: seq<Record>, results: seq<TaskResult>, c: Category)
    requires |results| == |Dispatched(classified)|
    ensures var items := Dispatched(classified);
      var idx := LastIndex(classified);
      var out := SummaryFrom(classified, results).ListFor(c);
      && (forall k :: 0 <= k < |out| ==> out[k].fileId == k)
      && (forall k :: 0 <= k < |out| ==>
            && out[k].filePath in idx
            && exists v :: LastKept(items, results, c, out[k].filePath, v)
                           && out[k] == Enrich(classified[idx[out[k].filePath]], v, k, c))
      && (forall i :: 0 <= i < |items| && items[i].category == c && ValidFor(results[i], items[i].path) ==>
            exists k :: 0 <= k < |out| && out[k].filePath == items[i].path)
  {
    var items := Dispatched(classified);
    var idx := LastIndex(classified);
    DispatchedPathsIndexed(classified);
    var out := SummaryFrom(classified, results).ListFor(c);
    ListForIsBucket(classified, results, c);
    BucketOfCollected(items, results, classified, idx, c, out);
    BucketCoversCollected(items, results, classified, idx, c, out);
    forall i | 0 <= i < |items| && items[i].category == c && ValidFor(results[i], items[i].path)
      ensures ValidAt(items, results, c, items[i].path, i)
    {
    }
  }

  /**
   * The order of each output list: a path's entry comes before another's exactly as its
   * first kept outcome comes before all kept outcomes of the other path.
   */
  lemma SummaryOrder(classified: seq<Record>, results: seq<TaskResult>, c: Category)
    requires |results| == |Dispatched(classified)|
    ensures var out := SummaryFrom(classified, results).ListFor(c);
      forall k1, k2 :: 0 <= k1 < k2 < |out| ==>
        KeptBefore(Dispatched(classified), results, c, out[k1].filePath, out[k2].filePath)
  {
    var items := Dispatched(classified);
    var idx := LastIndex(classified);
    DispatchedPathsIndexed(classified);
    var out := SummaryFrom(classified, results).ListFor(c);
    ListForIsBucket(classified, results, c);
    BucketOrder(items, results, classified, idx, c, out);
  }

  /**
   * Failed work items leave no trace: a path none of whose work items of category `c`
   * has a kept outcome is in no entry of that output list.
   */
  lemma FailedItemsLeaveNoTrace(classified: seq<Record>, results: seq<TaskResult>, c: Category, p: string)
    requires |results| == |Dispatched(classified)|
    requires forall i :: 0 <= i < |results| && Dispatched(classified)[i] == WorkItem(p, c) ==> !ValidFor(results[i], p)
    ensures forall k :: 0 <= k < |SummaryFrom(classified, results).ListFor(c)| ==>
      SummaryFrom(classified, results).ListFor(c)[k].filePath != p
  {
    SummaryContents(classified, results, c);
  }

  /**
   * One iteration of the task-creation loop: item `i` goes to slot `i % 4` with the other
   * slots as fallbacks, the prompts of its category and its path as identifier. Glue
   * around `ProcessBatch`, proved equal to `TaskOutcome`.
   */
  method RunTask(items: seq<WorkItem>, i: nat, clients: seq<ClientHandle>, modelNames: seq<string>,
                 prompts: Prompts, env: Backend) returns (result: TaskResult)
    requires i < |items|
    requires |clients| == Stage2PoolSize && |modelNames| == Stage2PoolSize
    ensures result == TaskOutcome(items, i, clients, modelNames, prompts, env)
  {
    var WorkItem(filePath, category) := items[i];
    var clientIndex := i % Stage2PoolSize;
    var fallback := FallbackSlots(clientIndex, Stage2PoolSize);
    var fallbackClients := Pick(clients, fallback);
    var fallbackModelNames := Pick(modelNames, fallback);
    var primary := Candidate(clients[clientIndex], modelNames[clientIndex]);
    assert ClientsToTry(primary, fallbackClients, fallbackModelNames) == Stage2Candidates(i, clients, modelNames);
    var attempted;
    result, attempted := ProcessBatch(filePath, primary, prompts.SystemFor(category), prompts.UserFor(category),
                                      Some(filePath), category, fallbackClients, fallbackModelNames, env);
  }

  /** The task-creation loop and the gather, as an ordered loop over the work items. */
  method RunTasks(items: seq<WorkItem>, clients: seq<ClientHandle>, modelNames: seq<string>,
                  prompts: Prompts, env: Backend) returns (results: seq<TaskResult>)
    requires |clients| == Stage2PoolSize && |modelNames| == Stage2PoolSize
    ensures results == TaskOutcomes(items, clients, modelNames, prompts, env)
  {
    ghost var all := TaskOutcomes(items, clients, modelNames, prompts, env);
    results := [];
    var i := 0;
    while i < |items|
      invariant 0 <= i <= |items|
      invariant results == all[..i]
    {
      var result := RunTask(items, i, clients, modelNames, prompts, env);
      assert all[..i + 1] == all[..i] + [result];
      results := results + [result];
      i := i + 1;
    }
    assert all[..|items|] == all;
  }

  /** `summerizer` on the Stage 1 records: routing, dispatch, filtering and the three output loops. */
  method Summarise(classified: seq<Record>, clients: seq<ClientHandle>, modelNames: seq<string>,
                   prompts: Prompts, env: Backend) returns (out: Summary)
    requires |clients| == Stage2PoolSize && |modelNames| == Stage2PoolSize
    ensures out == Summarised(classified, clients, modelNames, prompts, env)
    ensures forall k :: 0 <= k < |out.documentation| ==> out.documentation[k].fileId == k
    ensures forall k :: 0 <= k < |out.documentationMd| ==> out.documentationMd[k].fileId == k
    ensures forall k :: 0 <= k < |out.config| ==> out.config[k].fileId == k
  {
    var items, originalIndices := Partition(classified);
    var results := RunTasks(items, clients, modelNames, prompts, env);
    var docstring, documentation, config := CollectResults(items, results);
    var outputDocumentation := BuildBucket(docstring, classified, originalIndices, Docstring);
    var outputDocumentationMd := BuildBucket(documentation, classified, originalIndices, Documentation);
    var outputConfig := BuildBucket(config, classified, originalIndices, Config);
    out := Summary(outputDocumentation, outputDocumentationMd, outputConfig);
  }
}
