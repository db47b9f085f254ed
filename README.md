# Repository indexing pipeline: a Dafny model

This project models the pipeline in `indexer/service.py` of DeepRepo. The pipeline turns a
folder listing into three lists of per-file summaries, in two stages that send many
independent LLM requests to a small pool of endpoints.

- **Stage 1, classification** (`ClassifierNode.llmclassifier`). The file names are split into
  batches of `batch_size`. Batch `i` goes to pool slot `i % 3`. The returned classifications
  are concatenated in batch order. Each one gets `file_paths = files_paths[file_id]`. A
  failed batch, a zero batch size or an out-of-range `file_id` fails the whole stage.
- **Stage 2, compression** (`InformationCompressorNode.summerizer`). Each classified record
  is routed to at most one of three lists: docstring, documentation (`.md`) or config
  (`.yaml`/`.yml`). The lists are dispatched one after another. Item `i` is sent to pool
  slot `i % 4` first, then to the other three slots in ascending order, with at most four
  attempts (`process_batch`). Outcomes that raised, came back empty or carry another path
  are dropped. The kept payloads are keyed by path, last one wins. Each output record is a
  copy of the last classified record with that path. It carries its payload and a fresh
  `file_id` that is dense within its list.

The model is written on values. Every network call, file read and schema construction goes
through a `Backend` value made of total functions (`Executor.Backend`), so the model is
deterministic in those oracles. Python dicts that the source fills in insertion order are
association lists (`OrderedDicts.Dict`) updated by `Put`. `original_indices` is
`Routing.LastIndex`. The loops of the source are methods with loop invariants, each proved
equal to a specification function. The properties are proved about those functions.

Modules, in dependency order: `Wrappers` (Option, Result, `min`), `PyText` (`lower()` and substring
`in`), `Records` (the record and result shapes), `OrderedDicts`, `Batching`, `EndpointPool`,
`Executor`, `Routing`, `Aggregation`, `Classifier` (Stage 1), `Compressor` (Stage 2) and
`Pipeline` (`ClassifierService.run_pipeline`).

## Behaviours of the code worth noting

- **The markdown test.** It is a substring test (`".md" in file_path.lower()`), not a
  suffix test, so a file under a directory named `x.md/` is a documentation item. See
  `Routing.MarkdownTestIsSubstring`.
- **When every attempt of a Stage 2 item fails.** `process_batch` returns `(None, None)`.
  The last error is only logged, so it is not modelled as part of a failure value.
- **Stage 1 path resolution.** `file_id` indexes the full path list of the folder directly,
  not a per-batch list. Python's negative indexing applies, so an id in `-n .. -1` reads a
  path from the end of the list (`Classifier.PyIndex`).
- **Batch size.** A negative batch size gives an empty `range`, hence no batches and no
  records. A zero batch size raises `ValueError`, which fails Stage 1.

## Model

| member | source | states |
|---|---|---|
| PyText.Lower | indexer/service.py:425 | `lower()` keeps the length, folds each character and leaves no ASCII capital |
| PyText.Contains | indexer/service.py:428-432 | Python's `t in s` holds exactly when some position of `s` starts a copy of `t` |
| Batching.MakeBatches | indexer/service.py:184-186 | the slicing comprehension fails exactly when the step is 0, yields no batch for a negative step, and otherwise yields batches whose concatenation is the input |
| Batching.BatchesRoundTrip | indexer/service.py:184-186 | concatenating the batches gives back the file-name list |
| Batching.BatchesShape | indexer/service.py:184-186 | every batch is non-empty and at most `batch_size` long, and every batch but the last is exactly `batch_size` long |
| Batching.BatchesCount | indexer/service.py:184-186 | the number of batches is the ceiling of `len(file_names) / batch_size` |
| Batching.ConcatIndex | indexer/service.py:215-218 | entry `j` of batch `b` sits in the concatenation right after the entries of batches `0 .. b-1` |
| EndpointPool.Stage1Slot | indexer/service.py:192-196 | the slot of batch `i` is `i % 3`, one of the three slots |
| EndpointPool.Stage1Endpoint | indexer/service.py:192-196 | batch `i` uses the client and the model name of the same slot, `Stage1Slot(i)` |
| EndpointPool.Stage1Balanced | indexer/service.py:192-196 | counting the batches whose `Stage1Slot` is each slot, the loads of any two of the three slots differ by at most one |
| EndpointPool.FallbackSlotsSpec | indexer/service.py:451-452 | the fallbacks of slot `p` are every other slot, each once, in ascending order |
| EndpointPool.ClientsToTry | indexer/service.py:280-283 | the candidate list is as long as the shorter fallback list plus one, and at most four long |
| EndpointPool.ClientsToTrySpec | indexer/service.py:280-283 | the candidate list starts with the primary and continues with the zipped fallback pairs in order |
| EndpointPool.Stage2Candidates | indexer/service.py:447-452 | the candidate list of item `i`: slot `i % 4` as primary, the other slots as fallbacks, cut by `clients_to_try` (lines 280-283); its contents are stated by `EndpointPool.Stage2CandidatesFollowSlotOrder` |
| EndpointPool.SlotOrderIsPermutation | indexer/service.py:447-452 | the slot order of item `i` is a permutation of the four slots with `i % 4` first and the rest ascending |
| EndpointPool.Stage2CandidatesFollowSlotOrder | indexer/service.py:447-452 | item `i` is offered all four slots, in slot order, each client with its own model name; the four-attempt cut drops none |
| Executor.FirstSuccessSpec | indexer/service.py:288-325 | the first success is a completed attempt with all earlier ones failed; there is none exactly when every attempt fails |
| Executor.FirstSuccessIs | indexer/service.py:288-325 | a completing candidate after only failures is the first success |
| Executor.TryCandidates | indexer/service.py:288-350 | the retry loop returns the payload of the first completed attempt and stops calling there, or no payload after calling every candidate |
| Executor.ProcessBatchResult | indexer/service.py:248-350 | the value `process_batch` returns or raises: `(None, None)` when the file cannot be read, an exception when the code schema raises, otherwise the retry outcome with the identifier or `(None, None)` |
| Executor.ProcessBatch | indexer/service.py:248-350 | `process_batch` reads the file, raises only when the code schema raises, and otherwise returns the retry outcome with the identifier, or `(None, None)` |
| Executor.ProcessBatchBounds | indexer/service.py:280-350 | at most four calls, made to a prefix of the candidate list; a payload comes back with the caller's identifier after at least one call; no payload comes back with no identifier |
| Executor.AttemptsStopAtFirstSuccess | indexer/service.py:288-350 | once the file is read and the code schema does not raise, the call never raises, every attempt but the last failed, and the result is a payload exactly when the last attempt completed, with that attempt's payload |
| Routing.Route | indexer/service.py:428-433 | the routing chain itself: the code test, then `.md`, then `.yaml`/`.yml`; its meaning is stated by `Routing.RouteSpec` |
| Routing.RouteSpec | indexer/service.py:428-433 | the priority chain: code (outside notebooks and `__init__.py`), else `.md`, else `.yaml`/`.yml`, else excluded, each case an if-and-only-if |
| Routing.RoutesCodeFile | indexer/service.py:428-429 | a file labelled `Code` goes to the docstring list |
| Routing.RoutesMarkdownFile | indexer/service.py:430-431 | a markdown file goes to the documentation list |
| Routing.RoutesYamlFile | indexer/service.py:432-433 | an upper-case `.YAML` path goes to the config list |
| Routing.ExcludesNotebook | indexer/service.py:428-433 | a notebook labelled code is in no list |
| Routing.ExcludesPackageInit | indexer/service.py:428-433 | an `__init__.py` labelled code is in no list |
| Routing.CodeLabelWinsOverMarkdown | indexer/service.py:428-431 | a `.md` file labelled code is a docstring item |
| Routing.MarkdownTestIsSubstring | indexer/service.py:430-431 | a path that only contains `.md` in a directory name is a documentation item |
| Routing.Routed | indexer/service.py:423-433 | each list is no longer than the record list |
| Routing.RoutedCategory | indexer/service.py:423-433 | each list holds only items of its category |
| Routing.RoutedAppend | indexer/service.py:421-433 | each list keeps record order: the list of records `a` followed by records `b` is the list of `a` followed by the list of `b` |
| Routing.RoutedByAppend | indexer/service.py:421-433 | the same append law for the list-building loop under any routing function |
| Routing.RoutedSound | indexer/service.py:423-433 | every item of a list is the path of a record that routes to that list |
| Routing.RoutedComplete | indexer/service.py:423-433 | every record that routes to a category has an item in that list |
| Routing.DispatchedFromRecords | indexer/service.py:436 | every dispatched item comes from a record that routes to the item's category |
| Routing.DispatchedCount | indexer/service.py:436 | the dispatch list is as long as the number of routed records |
| Routing.DispatchOrder | indexer/service.py:436 | docstring items come first, then documentation items, then config items; within each list record order is kept (`Routing.RoutedAppend`) |
| Routing.DispatchedPathsIndexed | indexer/service.py:421-436 | every dispatched path has an entry in `original_indices` |
| Routing.LastIndex | indexer/service.py:421-426 | `original_indices` holds exactly the records' paths, each mapped to the last record with that path |
| Routing.Partition | indexer/service.py:421-436 | the routing loop builds the dispatch list and `original_indices` |
| OrderedDicts.Put | indexer/service.py:504-508 | dict assignment keeps keys distinct, keeps existing positions, appends a new key and stores the value |
| Records.Enrich | indexer/service.py:524-547 | the copy carries the payload under `documentation_config` for config and `documentation` otherwise, with the new `file_id`, and is otherwise unchanged |
| Aggregation.ValidFor | indexer/service.py:497-502 | an outcome is kept when it is not an exception, its payload is present and truthy, and its identifier is the item's path |
| Aggregation.Collected | indexer/service.py:495-508 | a path has an entry exactly when some item of that path and category has a kept outcome, and it holds the payload of the last one |
| Aggregation.CollectedOrder | indexer/service.py:495-508 | the keys of `results_<c>` are in order of first kept outcome: an earlier key has a kept outcome before every kept outcome of a later key |
| Aggregation.CollectResults | indexer/service.py:495-508 | the filtering loop fills the three result dicts with the kept outcomes |
| Aggregation.Bucket | indexer/service.py:521-527 | the output list is no longer than the kept entries and entry `k` has `file_id` `k` |
| Aggregation.BucketResolved | indexer/service.py:521-527 | when every kept path has an index, the list has one copy per kept path, in dict order |
| Aggregation.BucketOfCollected | indexer/service.py:495-527 | every output entry copies the record of its path with the payload of the last kept outcome of that path |
| Aggregation.BucketOrder | indexer/service.py:495-547 | output entries follow the order of first kept outcomes: an earlier entry's path was kept before every kept outcome of a later entry's path |
| Aggregation.BucketCoversCollected | indexer/service.py:495-527 | every kept outcome has an output entry with its path |
| Aggregation.BuildBucket | indexer/service.py:521-547 | each output loop builds its list with dense `file_id` values |
| Classifier.PyIndex | indexer/service.py:224 | list indexing succeeds exactly for `-n <= i < n` and reads from the end for negative `i` |
| Classifier.Resolve | indexer/service.py:223-224 | resolution succeeds exactly when every `file_id` is a valid index, each record gets its indexed path, and a failure names the first bad id |
| Classifier.ResolvedInBatchOrder | indexer/service.py:215-224 | entry `j` of batch `b` appears after all earlier batches' entries, with its indexed path |
| Classifier.Stage1ErrorPolicy | indexer/service.py:184-220 | one if-and-only-if per error kind: Stage 1 fails with `InvalidBatchSize` exactly when the batch size is 0, and otherwise with `BatchFailed` exactly when some batch fails; the out-of-range `file_id` failure is stated by `Classifier.Resolve` |
| Classifier.DispatchBatches | indexer/service.py:192-214 | the fan-out sends batch `i` to slot `i % 3` and collects the outcomes in batch order |
| Classifier.FlattenResults | indexer/service.py:215-218 | the flattening loop concatenates the classification lists in batch order |
| Classifier.ResolvePaths | indexer/service.py:223-224 | the path loop computes the resolution above |
| Classifier.LlmClassify | indexer/service.py:178-226 | Stage 1 end to end |
| Compressor.SummaryContents | indexer/service.py:495-554 | for any gathered outcomes, entry `k` has `file_id` `k` and copies the last record of its path with the last kept payload of that path and category, and every kept outcome is represented |
| Compressor.SummaryOrder | indexer/service.py:495-547 | for any gathered outcomes, each output list is in order of the first kept outcome of each path |
| Compressor.FailedItemsLeaveNoTrace | indexer/service.py:495-508 | a path with no kept outcome in a category is in no entry of that category's list |
| Compressor.RunTask | indexer/service.py:447-474 | item `i` is sent to slot `i % 4` with the other slots as fallbacks, the prompts of its category and its path as identifier |
| Compressor.RunTasks | indexer/service.py:447-493 | the task loop and the gather give one outcome per item, in item order, each the outcome of its task |
| Compressor.Summarise | indexer/service.py:414-554 | `summerizer` end to end, with dense `file_id` values in all three lists |
| Pipeline.ClassifiedPathsFromListing | indexer/service.py:223-226 | every Stage 1 record carries a path of the folder listing |
| Pipeline.PipelinePreservesPaths | indexer/service.py:564-586 | the pipeline fails exactly when Stage 1 fails; otherwise every output record carries a path from the folder listing and its list position as `file_id` |
| Pipeline.RunPipeline | indexer/service.py:564-586 | `run_pipeline` chains Stage 1 into Stage 2 |

## Left out

- Concurrency: `asyncio.gather` with a semaphore of `max_workers`. The tasks are independent and `gather` returns outcomes in task order, so they are modelled as an ordered loop.
- The model assumes `max_workers >= 1`. `asyncio.Semaphore(max_workers)` (lines 205 and 484) sits outside any `try`: a negative value raises `ValueError` and fails the stage, and 0 makes every bounded task wait forever. The model has no semaphore, so it returns the stage's result for any value.
- The 15-second `asyncio.wait_for` timeout is an outcome of the completion oracle (`TimedOut`). It is handled like any other failed attempt.
- The Gemini and `instructor` clients, `create_file_classification`, `generate_code_structure_model_consize`, `DocumentCompression` and `YamlBrief` are oracle functions of `Executor.Backend`. Whether `file_id` values are global or per batch depends on that schema and is not modelled.
- File reading is the `readFile` oracle. `list_all_files` is not part of this model: the pipeline takes its two lists as inputs.
- Prompt templates, environment model names, API keys and client construction are opaque inputs.
- Langfuse tracing, spans, usage statistics, scores and every `print` are left out. `src/monitor/langfuse.py` is not part of this model.
- `last_exception` and `last_status_message` only feed logs and are not modelled.
- `summerizer`'s `batch_size` is unused. `processed_indices` is filled but never read. `file_to_category[i]` is `all_files_to_process[i]`, so the model reads the work list directly. `max_workers` only sizes the semaphore (see the concurrency line above).
- The outer `try` around the filtering loop (line 510) is not modelled, because nothing inside it can raise in the model.
- Stage 1 mutates the classification dicts in place before a failing index raises. The model returns no records on failure, because the exception discards them.
- Records always carry `file_paths`. A `KeyError` on a record without that key is not modelled.
- PyText.Lower: only ASCII case folding is modelled, not the full Unicode `str.lower()`.
- Records.Enrich: `dict.copy()` and aliasing are modelled by value. Dict keys beyond those the pipeline reads and writes are not modelled.
- Compressor.Summarise: the three output loops are stated as dense `file_id` lists equal to the specification function. That a dict key is unique per path, which the source gets from the dict itself, is proved separately in `OrderedDicts.Put` and `Aggregation.Collected`.
