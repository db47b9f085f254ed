/**
 * Stage 1 (`ClassifierNode.llmclassifier`): split the file names into batches,
 * send batch `i` to pool slot `i % 3`, concatenate the returned classifications
 * in batch order and resolve each record's path from its `file_id`. Any failed
 * batch fails the whole stage.
 */
module Classifier {
  import opened Wrappers
  import opened Records
  import opened Batching
  import opened EndpointPool
  import opened Executor

  datatype Stage1Error =
    | InvalidBatchSize          // `range()` with a zero step
    | BatchFailed               // some batch raised; `gather` re-raises
    | FileIdOutOfRange(fileId: int)   // `files_paths[file_id]` raised IndexError

  /** `result.get("file_classifications", [])`. */
  function Entries(b: BatchResult): seq<Classification> {
    b.fileClassifications.GetOr([])
  }

  /** Python `xs[i]` on a list of length `n`: the position read, or None for IndexError. */
  function PyIndex(i: int, n: nat): (r: Option<nat>)
    ensures r.Some? <==> -(n as int) <= i < n
    ensures r.Some? ==> r.value < n && (i >= 0 ==> r.value == i) && (i < 0 ==> r.value == n + i)
  {
    if 0 <= i < n then Some(i) else if -(n as int) <= i < 0 then Some(n + i) else None
  }

  /** A classification with `file_paths` added. */
  function WithPath(c: Classification, path: string): Record {
    Record(c.fileId, c.fileName, c.classification, path, None, None)
  }

  /**
   * The path-resolution loop: every classification gets the path its `file_id` indexes;
   * the first id outside the path list raises and no records are returned.
   */
  function Resolve(cls: seq<Classification>, paths: seq<string>): (r: Result<seq<Record>, Stage1Error>)
    ensures r.Success? <==> forall k :: 0 <= k < |cls| ==> PyIndex(cls[k].fileId, |paths|).Some?
    ensures r.Success? ==> |r.value| == |cls| && forall k :: 0 <= k < |cls| ==>
      r.value[k] == WithPath(cls[k], paths[PyIndex(cls[k].fileId, |paths|).value])
    ensures r.Failure? ==> exists k :: (0 <= k < |cls| && r.error == FileIdOutOfRange(cls[k].fileId)
                                       && PyIndex(cls[k].fileId, |paths|).None?
                                       && forall j :: 0 <= j < k ==> PyIndex(cls[j].fileId, |paths|).Some?)
  {
    if |cls| == 0 then Success([])
    else match PyIndex(cls[0].fileId, |paths|)
      case None => Failure(FileIdOutOfRange(cls[0].fileId))
      case Some(i) =>
        match Resolve(cls[1..], paths)
        case Failure(e) =>
          assert forall k :: 1 <= k < |cls| ==> cls[1..][k - 1] == cls[k];
          Failure(e)
        case Success(rest) =>
          var r := [WithPath(cls[0], paths[i])] + rest;
          assert forall k :: 1 <= k < |cls| ==> cls[1..][k - 1] == cls[k] && r[k] == rest[k - 1];
          Success(r)
  }

  /** The request for batch `i`: its endpoint is pool slot `i % 3`. */
  function BatchOutcome(batches: seq<seq<string>>, i: nat, clients: seq<ClientHandle>, modelNames: seq<string>,
                        prompts: Prompts, env: Backend): Option<BatchResult>
    requires i < |batches|
    requires |clients| == Stage1PoolSize && |modelNames| == Stage1PoolSize
  {
    env.classify(Stage1Endpoint(i, clients, modelNames),
                 ClassifyRequest(prompts.systemClassification, prompts.userClassification, batches[i]))
  }

  /** The gathered outcomes, index-aligned with the batches. */
  function BatchOutcomes(batches: seq<seq<string>>, clients: seq<ClientHandle>, modelNames: seq<string>,
                         prompts: Prompts, env: Backend): (r: seq<Option<BatchResult>>)
    requires |clients| == Stage1PoolSize && |modelNames| == Stage1PoolSize
    ensures |r| == |batches|
  {
    seq(|batches|, i requires 0 <= i < |batches| => BatchOutcome(batches, i, clients, modelNames, prompts, env))
  }

  predicate AllSucceeded(outcomes: seq<Option<BatchResult>>) {
    forall i | 0 <= i < |outcomes| :: outcomes[i].Some?
  }

  /** The classification lists of successful outcomes, in batch order. */
  function EntryLists(outcomes: seq<Option<BatchResult>>): (r: seq<seq<Classification>>)
    requires AllSucceeded(outcomes)
    ensures |r| == |outcomes|
  {
    seq(|outcomes|, i requires 0 <= i < |outcomes| => Entries(outcomes[i].value))
  }

  /** What `llmclassifier` returns for a file listing, or the error it raises. */
  function ClassifyFiles(fileNames: seq<string>, filesPaths: seq<string>, batchSize: int,
                         clients: seq<ClientHandle>, modelNames: seq<string>, prompts: Prompts, env: Backend)
    : Result<seq<Record>, Stage1Error>
    requires |clients| == Stage1PoolSize && |modelNames| == Stage1PoolSize
  {
    match MakeBatches(fileNames, batchSize)
    case None => Failure(InvalidBatchSize)
    case Some(batches) =>
      var outcomes := BatchOutcomes(batches, clients, modelNames, prompts, env);
      if !AllSucceeded(outcomes) then Failure(BatchFailed)
      else Resolve(Concat(EntryLists(outcomes)), filesPaths)
  }

  /**
   * Stage 1 error policy: the stage fails as a whole, with no records, when the batch size
   * is zero or when any batch fails.
   */
  lemma Stage1ErrorPolicy(fileNames: seq<string>, filesPaths: seq<string>, batchSize: int,
                          clients: seq<ClientHandle>, modelNames: seq<string>, prompts: Prompts, env: Backend)
    requires |clients| == Stage1PoolSize && |modelNames| == Stage1PoolSize
    ensures var r := ClassifyFiles(fileNames, filesPaths, batchSize, clients, modelNames, prompts, env);
      && (r == Failure(InvalidBatchSize) <==> batchSize == 0)
      && (batchSize != 0 ==>
            var outcomes := BatchOutcomes(MakeBatches(fileNames, batchSize).value, clients, modelNames, prompts, env);
            (r == Failure(BatchFailed) <==> exists i :: 0 <= i < |outcomes| && outcomes[i].None?))
  {
  }

  /**
   * Stage 1 output order: when the stage succeeds, entry `j` of batch `b` comes right after
   * the entries of the batches before it and carries the path its `file_id` indexes.
   */
  lemma {:induction false} ResolvedInBatchOrder(lists: seq<seq<Classification>>, paths: seq<string>, b: nat, j: nat)
    requires b < |lists| && j < |lists[b]|
    requires Resolve(Concat(lists), paths).Success?
    ensures var pos := |Concat(lists[..b])| + j;
      var records := Resolve(Concat(lists), paths).value;
      && pos < |records|
      && PyIndex(lists[b][j].fileId, |paths|).Some?
      && records[pos] == WithPath(lists[b][j], paths[PyIndex(lists[b][j].fileId, |paths|).value])
  {
    ConcatIndex(lists, b, j);
  }

  /** The fan-out of Stage 1 as an ordered loop: one request per batch, endpoint `i % 3`. */
  method DispatchBatches(batches: seq<seq<string>>, clients: seq<ClientHandle>, modelNames: seq<string>,
                         prompts: Prompts, env: Backend) returns (outcomes: seq<Option<BatchResult>>)
    requires |clients| == Stage1PoolSize && |modelNames| == Stage1PoolSize
    ensures outcomes == BatchOutcomes(batches, clients, modelNames, prompts, env)
  {
    outcomes := [];
    var index := 0;
    while index < |batches|
      invariant 0 <= index <= |batches|
      invariant |outcomes| == index
      invariant forall i :: 0 <= i < index ==> outcomes[i] == BatchOutcome(batches, i, clients, modelNames, prompts, env)
    {
      var endpoint := Stage1Endpoint(index, clients, modelNames);
      var outcome := env.classify(endpoint, ClassifyRequest(prompts.systemClassification, prompts.userClassification, batches[index]));
      outcomes := outcomes + [outcome];
      index := index + 1;
    }
  }

  /** The loop that extends `all_results["file_classifications"]` batch by batch. */
  method FlattenResults(outcomes: seq<Option<BatchResult>>) returns (all: seq<Classification>)
    requires AllSucceeded(outcomes)
    ensures all == Concat(EntryLists(outcomes))
  {
    all := [];
    var i := 0;
    while i < |outcomes|
      invariant 0 <= i <= |outcomes|
      invariant all == Concat(EntryLists(outcomes)[..i])
    {
      assert EntryLists(outcomes)[..i + 1][..i] == EntryLists(outcomes)[..i];
      all := all + Entries(outcomes[i].value);
      i := i + 1;
    }
    assert EntryLists(outcomes)[..|outcomes|] == EntryLists(outcomes);
  }

  /** The loop that sets `file_paths` from `files_paths[file_id]` on every classification. */
  method ResolvePaths(cls: seq<Classification>, paths: seq<string>) returns (r: Result<seq<Record>, Stage1Error>)
    ensures r == Resolve(cls, paths)
  {
    var records: seq<Record> := [];
    var k := 0;
    while k < |cls|
      invariant 0 <= k <= |cls|
      invariant |records| == k
      invariant forall j :: 0 <= j < k ==> PyIndex(cls[j].fileId, |paths|).Some?
      invariant forall j :: 0 <= j < k ==> records[j] == WithPath(cls[j], paths[PyIndex(cls[j].fileId, |paths|).value])
    {
      var position := PyIndex(cls[k].fileId, |paths|);
      if position.None? {
        var expected := Resolve(cls, paths);
        assert expected.Failure?;
        var first :| 0 <= first < |cls| && expected.error == FileIdOutOfRange(cls[first].fileId)
          && PyIndex(cls[first].fileId, |paths|).None?
          && forall j :: 0 <= j < first ==> PyIndex(cls[j].fileId, |paths|).Some?;
        assert first == k;
        return Failure(FileIdOutOfRange(cls[k].fileId));
      }
      records := records + [WithPath(cls[k], paths[position.value])];
      k := k + 1;
    }
    var expected := Resolve(cls, paths);
    assert expected.Success? && |expected.value| == |records|;
    assert forall j :: 0 <= j < |records| ==> records[j] == expected.value[j];
    assert records == expected.value;
    r := Success(records);
  }

  /**
   * `llmclassifier` from the file listing on: batching, dispatch, flattening, path resolution.
   * Glue over the loop methods above, proved equal to `ClassifyFiles`.
   */
  method LlmClassify(fileNames: seq<string>, filesPaths: seq<string>, batchSize: int,
                     clients: seq<ClientHandle>, modelNames: seq<string>, prompts: Prompts, env: Backend)
    returns (r: Result<seq<Record>, Stage1Error>)
    requires |clients| == Stage1PoolSize && |modelNames| == Stage1PoolSize
    ensures r == ClassifyFiles(fileNames, filesPaths, batchSize, clients, modelNames, prompts, env)
  {
    var batches := MakeBatches(fileNames, batchSize);
    if batches.None? {
      return Failure(InvalidBatchSize);
    }
    var outcomes := DispatchBatches(batches.value, clients, modelNames, prompts, env);
    if exists i | 0 <= i < |outcomes| :: outcomes[i].None? {
      return Failure(BatchFailed);
    }
    var all := FlattenResults(outcomes);
    r := ResolvePaths(all, filesPaths);
  }
}
