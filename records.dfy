/**
 * The values that flow through the two-stage pipeline of indexer/service.py:
 * classification entries returned by the backend, the records Stage 1 hands to
 * Stage 2, Stage 2 work items, endpoint candidates and per-item outcomes.
 */
module Records {
  import opened Wrappers

  /** A structured completion after `model_dump()`: a dictionary whose values stay opaque. */
  type Payload = map<string, string>

  /** Python truthiness of a dumped dictionary: only the empty one is falsy. */
  predicate Truthy(p: Payload) {
    p != map[]
  }

  /** Backend clients are opaque, shared, read-only handles. */
  type ClientHandle = nat

  /** One (client, model name) pair that can serve a request. */
  datatype Candidate = Candidate(client: ClientHandle, model: string)

  /** One entry of `file_classifications` as the classification backend returns it. */
  datatype Classification = Classification(fileId: int, fileName: Option<string>, classification: string)

  /** A classification batch after `model_dump()`; the key may be missing. */
  datatype BatchResult = BatchResult(fileClassifications: Option<seq<Classification>>)

  /**
   * A classification record once Stage 1 has added `file_paths`. Stage 2 copies it and
   * adds `documentation` or `documentation_config`, overwriting `file_id`.
   */
  datatype Record = Record(
    fileId: int,
    fileName: Option<string>,
    classification: string,
    filePath: string,
    documentation: Option<Payload>,
    documentationConfig: Option<Payload>)

  /** The Stage 2 category of a file, also the `log_name` of its request. */
  datatype Category = Docstring | Documentation | Config

  /** Position of a category's bucket in the dispatch order. */
  function Rank(c: Category): nat {
    match c
    case Docstring => 0
    case Documentation => 1
    case Config => 2
  }

  /** One Stage 2 work item: `[file_path, category]`. */
  datatype WorkItem = WorkItem(path: string, category: Category)

  /** What the Stage 2 `process_batch` returns: `(result, index)` or `(None, None)`. */
  datatype BatchReturn = BatchReturn(result: Option<Payload>, identifier: Option<string>)

  /** One slot of `asyncio.gather(..., return_exceptions=True)`: an exception or a return value. */
  datatype TaskResult = Raised | Returned(ret: BatchReturn)

  /** The three output lists of `summerizer`. */
  datatype Summary = Summary(documentation: seq<Record>, documentationMd: seq<Record>, config: seq<Record>) {
    /** The output list that results of category `c` are appended to. */
    function ListFor(c: Category): seq<Record> {
      match c
      case Docstring => documentation
      case Documentation => documentationMd
      case Config => config
    }
  }

  /**
   * The copy of a classification record that goes into an output list: the payload under
   * `documentation_config` for configuration files and under `documentation` otherwise,
   * and the bucket-local `file_id`.
   */
  function Enrich(rec: Record, payload: Payload, id: nat, c: Category): (r: Record)
    ensures r.fileId == id && r.filePath == rec.filePath && r.classification == rec.classification && r.fileName == rec.fileName
    ensures c == Config ==> r.documentationConfig == Some(payload) && r.documentation == rec.documentation
    ensures c != Config ==> r.documentation == Some(payload) && r.documentationConfig == rec.documentationConfig
  {
    if c == Config then rec.(documentationConfig := Some(payload), fileId := id)
    else rec.(documentation := Some(payload), fileId := id)
  }
}
