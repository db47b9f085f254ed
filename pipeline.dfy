/**
 * `ClassifierService.run_pipeline`: Stage 1 then Stage 2. A Stage 1 failure
 * aborts the run with no output; Stage 2 never fails as a whole.
 */
module Pipeline {
  import opened Wrappers
  import opened Records
  import opened EndpointPool
  import opened Executor
  import opened Classifier
  import opened Routing
  import opened Compressor

  /** The number of model names configured (`FILE_CLASSICATION_MODEL_0` to `_3`). */
  const ModelCount: nat := 4

  /** What the pipeline returns, or the Stage 1 error it raises. */
  function PipelineResult(fileNames: seq<string>, filesPaths: seq<string>, batchSize: int, modelNames: seq<string>,
                          stage1Clients: seq<ClientHandle>, stage2Clients: seq<ClientHandle>,
                          prompts: Prompts, env: Backend): Result<Summary, Stage1Error>
    requires |modelNames| == ModelCount
    requires |stage1Clients| == Stage1PoolSize && |stage2Clients| == Stage2PoolSize
  {
    match ClassifyFiles(fileNames, filesPaths, batchSize, stage1Clients, modelNames[..Stage1PoolSize], prompts, env)
    case Failure(e) => Failure(e)
    case Success(records) => Success(Summarised(records, stage2Clients, modelNames, prompts, env))
  }

  /**
   * Identity preservation across both stages: the run fails exactly when Stage 1 fails, and
   * every record of every output list carries a path of the input listing and the
   * `file_id` of its position in that list.
   */
  lemma {:induction false} PipelinePreservesPaths(fileNames: seq<string>, filesPaths: seq<string>, batchSize: int,
                                                  modelNames: seq<string>, stage1Clients: seq<ClientHandle>,
                                                  stage2Clients: seq<ClientHandle>, prompts: Prompts, env: Backend,
                                                  c: Category)
    requires |modelNames| == ModelCount
    requires |stage1Clients| == Stage1PoolSize && |stage2Clients| == Stage2PoolSize
    ensures var r := PipelineResult(fileNames, filesPaths, batchSize, modelNames, stage1Clients, stage2Clients, prompts, env);
      && (r.Failure? <==> ClassifyFiles(fileNames, filesPaths, batchSize, stage1Clients, modelNames[..Stage1PoolSize], prompts, env).Failure?)
      && (r.Success? ==> forall k :: 0 <= k < |r.value.ListFor(c)| ==>
            r.value.ListFor(c)[k].filePath in filesPaths && r.value.ListFor(c)[k].fileId == k)
  {
    var stage1 := ClassifyFiles(fileNames, filesPaths, batchSize, stage1Clients, modelNames[..Stage1PoolSize], prompts, env);
    if stage1.Success? {
      var records := stage1.value;
      var results := TaskOutcomes(Dispatched(records), stage2Clients, modelNames, prompts, env);
      assert forall j :: 0 <= j < |records| ==> records[j].filePath in filesPaths by {
        ClassifiedPathsFromListing(fileNames, filesPaths, batchSize, stage1Clients, modelNames[..Stage1PoolSize], prompts, env);
      }
      SummaryContents(records, results, c);
    }
  }

  /** Every Stage 1 record carries a path of the listing. */
  lemma ClassifiedPathsFromListing(fileNames: seq<string>, filesPaths: seq<string>, batchSize: int,
                                   clients: seq<ClientHandle>, modelNames: seq<string>, prompts: Prompts, env: Backend)
    requires |clients| == Stage1PoolSize && |modelNames| == Stage1PoolSize
    ensures var r := ClassifyFiles(fileNames, filesPaths, batchSize, clients, modelNames, prompts, env);
      r.Success? ==> forall j :: 0 <= j < |r.value| ==> r.value[j].filePath in filesPaths
  {
  }

  /**
   * `run_pipeline`: classify the listing, then summarise the classified records.
   * Glue over the loop methods of the two stages, proved equal to `PipelineResult`.
   */
  method RunPipeline(fileNames: seq<string>, filesPaths: seq<string>, batchSize: int, modelNames: seq<string>,
                     stage1Clients: seq<ClientHandle>, stage2Clients: seq<ClientHandle>,
                     prompts: Prompts, env: Backend) returns (r: Result<Summary, Stage1Error>)
    requires |modelNames| == ModelCount
    requires |stage1Clients| == Stage1PoolSize && |stage2Clients| == Stage2PoolSize
    ensures r == PipelineResult(fileNames, filesPaths, batchSize, modelNames, stage1Clients, stage2Clients, prompts, env)
  {
    var classified := LlmClassify(fileNames, filesPaths, batchSize, stage1Clients, modelNames[..Stage1PoolSize], prompts, env);
    if classified.Failure? {
      return Failure(classified.error);
    }
    var summary := Summarise(classified.value, stage2Clients, modelNames, prompts, env);
    r := Success(summary);
  }
}
