/**
 * The unit-of-work executors of indexer/service.py: Stage 1 sends one batch to
 * one endpoint, Stage 2 (`InformationCompressorNode.process_batch`) reads one
 * file and tries its candidates in order until one succeeds.
 */
module Executor {
  import opened Wrappers
  import opened Records
  import opened EndpointPool

  /** What one call to the structured-completion backend produces. */
  datatype AttemptOutcome = Completed(payload: Payload) | TimedOut | Failed(detail: string)

  /** The messages and response schema of one Stage 2 request. */
  datatype Request = Request(systemPrompt: string, userPrompt: string, schema: Category)

  /** The messages of one Stage 1 request, the batch of file names last. */
  datatype ClassifyRequest = ClassifyRequest(systemPrompt: string, userPrompt: string, batch: seq<string>)

  /**
   * Everything outside the model: reading a file (None when `open`/`read` raises),
   * building the code-structure schema from a prompt (true when it raises), one
   * completion attempt under the 15-second timeout, and one classification call
   * (None when it raises).
   */
  datatype Backend = Backend(
    readFile: string -> Option<string>,
    codeSchemaRaises: string -> bool,
    complete: (Candidate, Request) -> AttemptOutcome,
    classify: (Candidate, ClassifyRequest) -> Option<BatchResult>)

  /** The prompt templates rendered at start-up, per request kind. */
  datatype Prompts = Prompts(
    systemClassification: string, userClassification: string,
    systemDocstring: string, userDocstring: string,
    systemConfiguration: string, userConfiguration: string,
    systemDocumentation: string, userDocumentation: string)
  {
    function SystemFor(c: Category): string {
      match c
      case Docstring => systemDocstring
      case Documentation => systemDocumentation
      case Config => systemConfiguration
    }

    function UserFor(c: Category): string {
      match c
      case Docstring => userDocstring
      case Documentation => userDocumentation
      case Config => userConfiguration
    }
  }

  /**
   * Index of the first candidate whose attempt completes, if any: the reference
   * meaning of "try each candidate in order, stop at the first success".
   */
  function FirstSuccess(cands: seq<Candidate>, req: Request, complete: (Candidate, Request) -> AttemptOutcome): (r: Option<nat>)
    ensures r.Some? ==> r.value < |cands| && complete(cands[r.value], req).Completed?
  {
    if |cands| == 0 then None
    else if complete(cands[0], req).Completed? then Some(0)
    else match FirstSuccess(cands[1..], req, complete)
      case None => None
      case Some(k) => Some(k + 1)
  }

  /**
   * The first success is a completed attempt with only failures before it, and there is
   * none exactly when every attempt fails.
   */
  lemma {:induction false} FirstSuccessSpec(cands: seq<Candidate>, req: Request, complete: (Candidate, Request) -> AttemptOutcome)
    ensures var r := FirstSuccess(cands, req, complete);
      && (r.Some? ==> complete(cands[r.value], req).Completed?)
      && (r.Some? ==> forall j :: 0 <= j < r.value ==> !complete(cands[j], req).Completed?)
      && (r.None? <==> forall j :: 0 <= j < |cands| ==> !complete(cands[j], req).Completed?)
  {
    if |cands| > 0 && !complete(cands[0], req).Completed? {
      var rest := cands[1..];
      FirstSuccessSpec(rest, req, complete);
      assert forall j :: 1 <= j < |cands| ==> cands[j] == rest[j - 1];
    }
  }

  /** A candidate that completes after only failures is the first success. */
  lemma FirstSuccessIs(cands: seq<Candidate>, req: Request, complete: (Candidate, Request) -> AttemptOutcome, k: nat)
    requires k < |cands| && complete(cands[k], req).Completed?
    requires forall j :: 0 <= j < k ==> !complete(cands[j], req).Completed?
    ensures FirstSuccess(cands, req, complete) == Some(k)
  {
    FirstSuccessSpec(cands, req, complete);
  }

  /** The payload of the first completed attempt, if any. */
  function RetryOutcome(cands: seq<Candidate>, req: Request, complete: (Candidate, Request) -> AttemptOutcome): Option<Payload> {
    match FirstSuccess(cands, req, complete)
    case None => None
    case Some(k) => Some(complete(cands[k], req).payload)
  }

  /** The candidates called by the retry loop: up to the first success, or all of them. */
  function RetryCalls(cands: seq<Candidate>, req: Request, complete: (Candidate, Request) -> AttemptOutcome): seq<Candidate> {
    match FirstSuccess(cands, req, complete)
    case None => cands
    case Some(k) => cands[..k + 1]
  }

  /**
   * The retry loop of `process_batch`: call the candidates in order and stop at the
   * first completed attempt. Timeouts and failures are swallowed.
   */
  method TryCandidates(cands: seq<Candidate>, req: Request, complete: (Candidate, Request) -> AttemptOutcome)
    returns (payload: Option<Payload>, attempted: seq<Candidate>)
    ensures payload == RetryOutcome(cands, req, complete)
    ensures attempted == RetryCalls(cands, req, complete)
  {
    attempted := [];
    var attempt := 0;
    while attempt < |cands|
      invariant 0 <= attempt <= |cands|
      invariant attempted == cands[..attempt]
      invariant forall j :: 0 <= j < attempt ==> !complete(cands[j], req).Completed?
    {
      var outcome := complete(cands[attempt], req);
      attempted := attempted + [cands[attempt]];
      if outcome.Completed? {
        FirstSuccessIs(cands, req, complete, attempt);
        return Some(outcome.payload), attempted;
      }
      attempt := attempt + 1;
    }
    assert attempted == cands;
    FirstSuccessSpec(cands, req, complete);
    payload := None;
  }

  /** The user message of a Stage 2 request: the template, a newline, the file's text. */
  function FilePrompt(userPrompt: string, content: string): string {
    userPrompt + "\n" + content
  }

  /** The value `process_batch` returns (or raises) for one file and its candidate list. */
  function ProcessBatchResult(
    filePath: string, cands: seq<Candidate>, systemPrompt: string, userPrompt: string,
    identifier: Option<string>, logName: Category, env: Backend): TaskResult
  {
    match env.readFile(filePath)
    case None => Returned(BatchReturn(None, None))
    case Some(content) =>
      var prompt := FilePrompt(userPrompt, content);
      if logName == Docstring && env.codeSchemaRaises(prompt) then Raised
      else
        var req := Request(systemPrompt, prompt, logName);
        match RetryOutcome(cands, req, env.complete)
        case None => Returned(BatchReturn(None, None))
        case Some(payload) => Returned(BatchReturn(Some(payload), identifier))
  }

  /** The candidates `process_batch` calls, in call order. */
  function AttemptedCandidates(
    filePath: string, cands: seq<Candidate>, systemPrompt: string, userPrompt: string,
    logName: Category, env: Backend): seq<Candidate>
  {
    match env.readFile(filePath)
    case None => []
    case Some(content) =>
      var prompt := FilePrompt(userPrompt, content);
      if logName == Docstring && env.codeSchemaRaises(prompt) then []
      else RetryCalls(cands, Request(systemPrompt, prompt, logName), env.complete)
  }

  /**
   * `InformationCompressorNode.process_batch`: read the file, then try the primary and
   * the fallbacks in order. The first completed attempt returns `(result, index)` and no
   * later candidate is called; when every attempt times out or fails the result is
   * `(None, None)` after one attempt per candidate, at most four. Attempt failures never
   * escape; only building the code-structure schema can raise. Glue around the retry
   * loop `TryCandidates`, proved equal to `ProcessBatchResult` and `AttemptedCandidates`.
   */
  method ProcessBatch(
    filePath: string, primary: Candidate, systemPrompt: string, userPrompt: string,
    identifier: Option<string>, logName: Category,
    fallbackClients: seq<ClientHandle>, fallbackModels: seq<string>, env: Backend)
    returns (r: TaskResult, attempted: seq<Candidate>)
    ensures r == ProcessBatchResult(filePath, ClientsToTry(primary, fallbackClients, fallbackModels),
                                    systemPrompt, userPrompt, identifier, logName, env)
    ensures attempted == AttemptedCandidates(filePath, ClientsToTry(primary, fallbackClients, fallbackModels),
                                             systemPrompt, userPrompt, logName, env)
  {
    var cands := ClientsToTry(primary, fallbackClients, fallbackModels);
    attempted := [];
    var content := env.readFile(filePath);
    if content.None? {
      return Returned(BatchReturn(None, None)), attempted;
    }
    var prompt := FilePrompt(userPrompt, content.value);
    if logName == Docstring && env.codeSchemaRaises(prompt) {
      return Raised, attempted;
    }
    var req := Request(systemPrompt, prompt, logName);
    var payload;
    payload, attempted := TryCandidates(cands, req, env.complete);
    r := if payload.Some? then Returned(BatchReturn(payload, identifier)) else Returned(BatchReturn(None, None));
  }

  /**
   * Bounds of one `process_batch` call: at most four calls, made to a prefix of the
   * candidate list; a payload comes back with the caller's identifier and at least one
   * call behind it; no payload comes back with no identifier.
   */
  lemma ProcessBatchBounds(
    filePath: string, primary: Candidate, systemPrompt: string, userPrompt: string,
    identifier: Option<string>, logName: Category,
    fallbackClients: seq<ClientHandle>, fallbackModels: seq<string>, env: Backend)
    ensures var cands := ClientsToTry(primary, fallbackClients, fallbackModels);
      var r := ProcessBatchResult(filePath, cands, systemPrompt, userPrompt, identifier, logName, env);
      var attempted := AttemptedCandidates(filePath, cands, systemPrompt, userPrompt, logName, env);
      && |attempted| <= MaxAttempts
      && attempted == cands[..|attempted|]
      && (r.Returned? && r.ret.result.Some? ==> |attempted| > 0 && r.ret.identifier == identifier)
      && (r.Returned? && r.ret.result.None? ==> r.ret.identifier == None)
  {
    var cands := ClientsToTry(primary, fallbackClients, fallbackModels);
    match env.readFile(filePath)
    case None =>
    case Some(content) =>
      var req := Request(systemPrompt, FilePrompt(userPrompt, content), logName);
      FirstSuccessSpec(cands, req, env.complete);
  }

  /**
   * Only candidates up to the first success are called: every attempt but the last
   * failed, and the result is a success exactly when the last attempt completed,
   * carrying that attempt's payload.
   */
  lemma AttemptsStopAtFirstSuccess(
    filePath: string, cands: seq<Candidate>, systemPrompt: string, userPrompt: string,
    identifier: Option<string>, logName: Category, env: Backend, content: string)
    requires env.readFile(filePath) == Some(content)
    requires !(logName == Docstring && env.codeSchemaRaises(FilePrompt(userPrompt, content)))
    ensures var req := Request(systemPrompt, FilePrompt(userPrompt, content), logName);
      var attempted := AttemptedCandidates(filePath, cands, systemPrompt, userPrompt, logName, env);
      var r := ProcessBatchResult(filePath, cands, systemPrompt, userPrompt, identifier, logName, env);
      && r.Returned?
      && attempted == cands[..|attempted|]
      && (forall j :: 0 <= j < |attempted| - 1 ==> !env.complete(attempted[j], req).Completed?)
      && (r.ret.result.Some? <==> |attempted| > 0 && env.complete(attempted[|attempted| - 1], req).Completed?)
      && (r.ret.result.Some? ==> r.ret.result.value == env.complete(attempted[|attempted| - 1], req).payload)
      && (r.ret.result.None? ==> attempted == cands)
  {
    var req := Request(systemPrompt, FilePrompt(userPrompt, content), logName);
    FirstSuccessSpec(cands, req, env.complete);
  }
}
