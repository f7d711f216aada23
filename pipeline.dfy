/**
 * `DocumentProcessor.run_async` and the endpoint around it: classify the first
 * `CHUNK_SIZE` characters, look the type up in the schema registry, extract from every chunk
 * in order while folding the partial results into an accumulator and tracking the covered
 * keys, validate, and make at most one correction attempt.
 *
 * Everything outside this code is a parameter of the world `Env`: the loaded prompt
 * templates, the JSON schemas as `json.dumps` renders them, the text splitter, the language
 * model (answering call number `n` with prompt `p`), `json.loads`, `json.dumps`, the text of a
 * `ValidationError`, and pydantic's validation of the resume and citation models. The GitHub
 * Action model is validated by its own decoder.
 */
module Pipeline {
  import opened JsonValue
  import opened Text
  import opened DictMerge
  import opened KeyLists
  import opened Prompts
  import GitHubAction

  const ChunkSize: nat := 3000

  // ----- Document types and the schema registry -------------------------------------------

  datatype DocumentType = Resume | Citation | Readme | Other

  /** `doc_type.value`. */
  function TypeValue(t: DocumentType): string
  {
    match t
    case Resume => "resume"
    case Citation => "citation"
    case Readme => "readme"
    case Other => "other"
  }

  /** `SimpleClassification`. */
  datatype Classification = Classification(docType: DocumentType, description: string)

  /** The three extraction models. */
  datatype Schema = ResumeModel | CitationModel | GitHubActionModel

  datatype Complexity = Low | Medium | High

  datatype SchemaMetadata = SchemaMetadata(model: Schema, complexity: Complexity)

  /** `SCHEMA_REGISTRY`. */
  const Registry: map<DocumentType, SchemaMetadata> :=
    map[Resume := SchemaMetadata(ResumeModel, Medium),
        Citation := SchemaMetadata(CitationModel, High),
        Readme := SchemaMetadata(GitHubActionModel, Medium)]

  /** The top-level field names of the `Resume` model. */
  const ResumeFields: set<string> :=
    {"basics", "work", "volunteer", "education", "awards", "certificates", "publications",
     "skills", "languages", "interests", "references", "projects", "meta"}

  /** The top-level field names of the `GitHubAction` model. */
  const GitHubActionFields: set<string> :=
    {"name", "description", "runs", "author", "inputs", "outputs", "branding"}

  // ----- The world ---------------------------------------------------------------------------

  /** What one call of the language model yields. */
  datatype Reply =
    | Answer(content: string)  // the message content, possibly empty
    | NoApiKey                 // `GROQ_API_KEY` is not set: `ValueError`
    | ApiFailure               // the API call itself failed

  datatype Env = Env(
    prompts: map<string, string>,
    classificationSchema: string,
    schemaJson: Schema -> string,
    split: string -> seq<string>,
    infer: (nat, string) -> Reply,
    parse: string -> Option<Json>,
    dumps: Fields -> string,
    describe: seq<string> -> string,
    validateOther: (Schema, Json) -> Outcome<Json>,
    citationFields: set<string>,
    icons: set<string>)

  /** `set(model.model_fields.keys())`. */
  function FieldNames(env: Env, s: Schema): set<string>
  {
    match s
    case ResumeModel => ResumeFields
    case CitationModel => env.citationFields
    case GitHubActionModel => GitHubActionFields
  }

  /** The validated structure: a GitHub Action, or whatever the other models produce. */
  datatype StructuredData = ActionData(action: GitHubAction.Action) | OtherData(data: Json)

  /** `model.model_validate(j)`. */
  function Validate(env: Env, s: Schema, j: Json): Outcome<StructuredData>
  {
    if s == GitHubActionModel then
      match GitHubAction.DecodeAction(j, env.icons)
      case Valid(a) => Valid(ActionData(a))
      case Invalid(e) => Invalid(e)
      case Raised => Raised
    else
      match env.validateOther(s, j)
      case Valid(d) => Valid(OtherData(d))
      case Invalid(e) => Invalid(e)
      case Raised => Raised
  }

  // ----- Failures and the endpoint -------------------------------------------------------------

  /** Every exception that can end a request. */
  datatype Failure =
    | PromptMissing(error: PromptError)   // `ValueError` from `get_prepared_prompt`
    | ApiKeyMissing                       // `ValueError` from the inference client
    | EmptyReply                          // `ValueError`: the model answered nothing
    | InferenceFailed                     // the API call raised
    | BadClassification                   // `ValidationError` from `SimpleClassification`
    | Undetermined                        // `HTTPException(400)`: classified as OTHER
    | NoSchema(docType: DocumentType)     // `HTTPException(404)`
    | NotAnObject                         // `AttributeError`: a truthy chunk reply that is not a dict
    | MergeFailed(key: string)            // `TypeError`/`AttributeError` inside the merge
    | ValidatorRaised                     // a `TypeError` escaping `model_validate`
    | CorrectionFailed                    // `HTTPException(422)`

  /** The class of the exception, as the endpoint's `except` clauses see it. */
  datatype ExceptionClass = HttpException(status: int) | ValueError | OtherException

  function ClassOf(f: Failure): ExceptionClass
  {
    match f
    case PromptMissing(_) => ValueError
    case ApiKeyMissing => ValueError
    case EmptyReply => ValueError
    case BadClassification => ValueError
    case Undetermined => HttpException(400)
    case NoSchema(_) => HttpException(404)
    case CorrectionFailed => HttpException(422)
    case InferenceFailed => OtherException
    case NotAnObject => OtherException
    case MergeFailed(_) => OtherException
    case ValidatorRaised => OtherException
  }

  /** The endpoint's status code: an `HTTPException` passes, a `ValueError` is 400, anything else 500. */
  function Status(f: Failure): int
  {
    match ClassOf(f)
    case HttpException(s) => s
    case ValueError => 400
    case OtherException => 500
  }

  /** The reply body's `detail` where the source fixes its text; `None` where it is an exception's own text. */
  function FixedDetail(f: Failure): Option<string>
  {
    match f
    case PromptMissing(e) => Some(Detail(e))
    case ApiKeyMissing => Some("GROQ_API_KEY environment variable not set.")
    case EmptyReply => Some("Received an empty response from the model.")
    case Undetermined => Some("Document type could not be determined.")
    case NoSchema(t) => Some("No extraction schema for type: '" + TypeValue(t) + "'")
    case InferenceFailed => Some("An internal error occurred while processing the file.")
    case NotAnObject => Some("An internal error occurred while processing the file.")
    case MergeFailed(_) => Some("An internal error occurred while processing the file.")
    case ValidatorRaised => Some("An internal error occurred while processing the file.")
    case _ => None
  }

  // ----- Steps ---------------------------------------------------------------------------------

  /** A step's result together with the prompts sent to the model so far, in order. */
  datatype Trace<+T> = Trace(result: Result<T, Failure>, calls: seq<string>)

  /** `run_inference_async`: an empty answer is a `ValueError`. */
  function Infer(env: Env, n: nat, prompt: string): Result<string, Failure>
  {
    match env.infer(n, prompt)
    case Answer(c) => if c == "" then Err(EmptyReply) else Ok(c)
    case NoApiKey => Err(ApiKeyMissing)
    case ApiFailure => Err(InferenceFailed)
  }

  /** `SimpleClassification` validated from a parsed reply. */
  function DecodeClassification(j: Json): Option<Classification>
  {
    if !j.JObj? then None
    else
      var t := Get(j.fields, "type");
      var d := Get(j.fields, "description");
      if !(t.Some? && t.value.JStr? && d.Some? && d.value.JStr?) then None
      else if t.value.s == "resume" then Some(Classification(Resume, d.value.s))
      else if t.value.s == "citation" then Some(Classification(Citation, d.value.s))
      else if t.value.s == "readme" then Some(Classification(Readme, d.value.s))
      else if t.value.s == "other" then Some(Classification(Other, d.value.s))
      else None
  }

  /** `content[:CHUNK_SIZE]`. */
  function FirstChunk(content: string): (r: string)
    ensures |r| == if |content| < ChunkSize then |content| else ChunkSize
    ensures r <= content
  {
    if |content| < ChunkSize then content else content[..ChunkSize]
  }

  function ClassificationPrompt(env: Env, content: string): Result<string, PromptError>
  {
    PreparedPrompt(env.prompts, "classification", env.classificationSchema,
                   [("document_content", FirstChunk(content))], None)
  }

  /** `_classify_document_async(content[:CHUNK_SIZE])`, the first call of a request. */
  function ClassifyStep(env: Env, content: string): Trace<Classification>
  {
    match ClassificationPrompt(env, content)
    case Err(e) => Trace(Err(PromptMissing(e)), [])
    case Ok(prompt) =>
      match Infer(env, 0, prompt)
      case Err(f) => Trace(Err(f), [prompt])
      case Ok(reply) =>
        var c := env.parse(reply);
        if c.Some? && DecodeClassification(c.value).Some? then Trace(Ok(DecodeClassification(c.value).value), [prompt])
        else Trace(Err(BadClassification), [prompt])
  }

  /** `doc_type.value.lower()`, the name of the document type's rules template. */
  function RulesKey(t: DocumentType): string
  {
    Lower(TypeValue(t))
  }

  /** The accumulator of the chunk loop: the merged data and the covered keys. */
  datatype Acc = Acc(data: Fields, covered: set<string>)

  /** The variables of the extraction prompt, in the order the source builds them. */
  function ExtractionVars(chunk: string, t: DocumentType, fieldNames: set<string>, covered: set<string>): seq<(string, string)>
  {
    [("document_content", chunk),
     ("document_type", TypeValue(t)),
     ("extracted_keys", CoveredText(covered)),
     ("missing_keys", MissingText(fieldNames, covered))]
  }

  function ExtractionPrompt(env: Env, t: DocumentType, s: Schema, chunk: string, covered: set<string>): Result<string, PromptError>
  {
    PreparedPrompt(env.prompts, "extraction_stateful", env.schemaJson(s),
                   ExtractionVars(chunk, t, FieldNames(env, s), covered), Some(RulesKey(t)))
  }

  /** `_extract_from_chunk_async`'s parse: a reply that is not JSON reads as `{}`. */
  function ParseOrEmpty(env: Env, reply: string): Json
  {
    var p := env.parse(reply);
    if p.Some? then p.value else JObj([])
  }

  /** Folding a parsed chunk reply in: falsy replies are skipped, a dict is merged into the data. */
  function Absorb(acc: Acc, partial: Json): Result<Acc, Failure>
  {
    if !Truthy(partial) then Ok(acc)
    else if !partial.JObj? then Err(NotAnObject)
    else
      match Merge(partial.fields, acc.data)
      case Err(NotADict(k)) => Err(MergeFailed(k))
      case Ok(d) => Ok(Acc(d, acc.covered + NonNullKeys(partial.fields)))
  }

  /** One pass of the chunk loop: extract from `chunk`, then fold the reply in. */
  function ChunkStep(env: Env, t: DocumentType, s: Schema, chunk: string, acc: Acc, calls: seq<string>): Trace<Acc>
  {
    match ExtractionPrompt(env, t, s, chunk, acc.covered)
    case Err(e) => Trace(Err(PromptMissing(e)), calls)
    case Ok(prompt) =>
      match Infer(env, |calls|, prompt)
      case Err(f) => Trace(Err(f), calls + [prompt])
      case Ok(reply) => Trace(Absorb(acc, ParseOrEmpty(env, reply)), calls + [prompt])
  }

  /** The chunk loop from chunk `i` on. */
  function Chunks(env: Env, t: DocumentType, s: Schema, chunks: seq<string>, i: nat, acc: Acc, calls: seq<string>): Trace<Acc>
    requires i <= |chunks|
    decreases |chunks| - i
  {
    if i == |chunks| then Trace(Ok(acc), calls)
    else
      var step := ChunkStep(env, t, s, chunks[i], acc, calls);
      if step.result.Err? then step
      else Chunks(env, t, s, chunks, i + 1, step.result.value, step.calls)
  }

  /** The request's result. */
  datatype Processed = Processed(classification: Classification, structuredData: StructuredData)

  function CorrectionPrompt(env: Env, t: DocumentType, s: Schema, data: Fields, errors: seq<string>): Result<string, PromptError>
  {
    PreparedPrompt(env.prompts, "correction", env.schemaJson(s),
                   [("invalid_json", env.dumps(data)), ("validation_errors", env.describe(errors))],
                   Some(RulesKey(t)))
  }

  /** Steps 3 and 4: validate the accumulator; on a validation error, one correction call. */
  function Finish(env: Env, c: Classification, s: Schema, data: Fields, calls: seq<string>): Trace<Processed>
  {
    match Validate(env, s, JObj(data))
    case Valid(v) => Trace(Ok(Processed(c, v)), calls)
    case Raised => Trace(Err(ValidatorRaised), calls)
    case Invalid(errors) => Correct(env, c, s, data, errors, calls)
  }

  /** The correction pass: one call with the invalid data and its errors, no retry. */
  function Correct(env: Env, c: Classification, s: Schema, data: Fields, errors: seq<string>,
                   calls: seq<string>): Trace<Processed>
  {
    match CorrectionPrompt(env, c.docType, s, data, errors)
    case Err(e) => Trace(Err(PromptMissing(e)), calls)
    case Ok(prompt) =>
      match Infer(env, |calls|, prompt)
      case Err(f) => Trace(Err(f), calls + [prompt])
      case Ok(reply) => Trace(Revalidate(env, c, s, reply), calls + [prompt])
  }

  /** Parsing and validating the corrected reply: either failure is final (422). */
  function Revalidate(env: Env, c: Classification, s: Schema, reply: string): Result<Processed, Failure>
  {
    match env.parse(reply)
    case None => Err(CorrectionFailed)
    case Some(j) =>
      match Validate(env, s, j)
      case Valid(v) => Ok(Processed(c, v))
      case Invalid(_) => Err(CorrectionFailed)
      case Raised => Err(ValidatorRaised)
  }

  /** `run_async` on the text of a document. */
  function Run(env: Env, content: string): Trace<Processed>
  {
    var c := ClassifyStep(env, content);
    if c.result.Err? then Trace(Err(c.result.error), c.calls)
    else
      var t := c.result.value.docType;
      if t == Other then Trace(Err(Undetermined), c.calls)
      else if t !in Registry then Trace(Err(NoSchema(t)), c.calls)
      else
        var s := Registry[t].model;
        var ex := Chunks(env, t, s, env.split(content), 0, Acc([], {}), c.calls);
        if ex.result.Err? then Trace(Err(ex.result.error), ex.calls)
        else Finish(env, c.result.value, s, ex.result.value.data, ex.calls)
  }

  /** What the endpoint answers. */
  datatype Response =
    | Ok200(result: Processed)
    | HttpError(status: int, failure: Failure, detail: Option<string>)  // detail: None where it is the exception's own text

  /** `process_document_v2` once the upload has been read and turned into text. */
  function Endpoint(env: Env, content: string): (r: Response)
    ensures r.HttpError? ==> r.status == Status(r.failure) && Run(env, content).result == Err(r.failure)
    ensures r.Ok200? ==> Run(env, content).result == Ok(r.result)
  {
    match Run(env, content).result
    case Ok(p) => Ok200(p)
    case Err(f) => HttpError(Status(f), f, FixedDetail(f))
  }

  // ----- The imperative run ---------------------------------------------------------------------

  /**
   * `run_async` as the source runs it: the loop over the chunks updates the accumulated data
   * and the covered keys, using the imperative merge and prompt preparation.
   */
  method RunAsync(env: Env, content: string) returns (result: Result<Processed, Failure>, calls: seq<string>)
    ensures Trace(result, calls) == Run(env, content)
  {
    var classified := ClassifyStep(env, content);
    calls := classified.calls;
    if classified.result.Err? {
      return Err(classified.result.error), calls;
    }
    var c := classified.result.value;
    var t := c.docType;
    if t == Other {
      return Err(Undetermined), calls;
    }
    if t !in Registry {
      return Err(NoSchema(t)), calls;
    }
    var s := Registry[t].model;
    var chunks := env.split(content);
    var data: Fields := [];
    var covered: set<string> := {};
    var i := 0;
    while i < |chunks|
      invariant i <= |chunks|
      invariant Chunks(env, t, s, chunks, i, Acc(data, covered), calls) ==
                Chunks(env, t, s, chunks, 0, Acc([], {}), classified.calls)
      decreases |chunks| - i
    {
      var prompt := PreparePrompt(env.prompts, "extraction_stateful", env.schemaJson(s),
                                  ExtractionVars(chunks[i], t, FieldNames(env, s), covered), Some(RulesKey(t)));
      if prompt.Err? {
        return Err(PromptMissing(prompt.error)), calls;
      }
      var reply := Infer(env, |calls|, prompt.value);
      calls := calls + [prompt.value];
      if reply.Err? {
        return Err(reply.error), calls;
      }
      var partial := ParseOrEmpty(env, reply.value);
      if Truthy(partial) {
        if !partial.JObj? {
          return Err(NotAnObject), calls;
        }
        var merged := DeepMergeDicts(partial.fields, data);
        if merged.Err? {
          return Err(MergeFailed(merged.error.key)), calls;
        }
        data := merged.value;
        covered := covered + NonNullKeys(partial.fields);
      }
      i := i + 1;
    }
    var finished := Finish(env, c, s, data, calls);
    result, calls := finished.result, finished.calls;
  }
}
