/** What a request does: which calls it makes, in which order, and how it ends. */
module PipelineProperties {
  import opened JsonValue
  import opened Text
  import opened DictMerge
  import opened KeyLists
  import opened Prompts
  import opened Pipeline

  // ----- Registry and endpoint --------------------------------------------------------------

  /** Every document type but OTHER has an extraction schema. */
  lemma RegistryHoldsEveryKnownType(t: DocumentType)
    ensures t in Registry <==> t != Other
  {
  }

  /** The rules template of a document type is named by its value, which is already lower case. */
  lemma RulesKeyIsTypeValue(t: DocumentType)
    ensures RulesKey(t) == TypeValue(t)
  {
    var v := TypeValue(t);
    assert forall i :: 0 <= i < |v| ==> !('A' <= v[i] <= 'Z');
    LowerOfLowercase(v);
  }

  /**
   * The endpoint's status codes: 400 for the `ValueError`s and for OTHER, 404 for a type
   * without a schema, 422 for a failed correction, 500 for everything else.
   */
  lemma StatusCodes(f: Failure)
    ensures Status(f) == 400 <==>
            f.PromptMissing? || f.ApiKeyMissing? || f.EmptyReply? || f.BadClassification? || f.Undetermined?
    ensures Status(f) == 404 <==> f.NoSchema?
    ensures Status(f) == 422 <==> f.CorrectionFailed?
    ensures Status(f) == 500 <==>
            f.InferenceFailed? || f.NotAnObject? || f.MergeFailed? || f.ValidatorRaised?
  {
  }

  // ----- How many calls, and which --------------------------------------------------------------

  /** The three ways a chunk step ends, case by case. */
  lemma ChunkStepCases(env: Env, t: DocumentType, s: Schema, chunk: string, acc: Acc, calls: seq<string>)
    ensures var p := ExtractionPrompt(env, t, s, chunk, acc.covered);
            var r := ChunkStep(env, t, s, chunk, acc, calls);
            (p.Err? ==> r.result == Err(PromptMissing(p.error)) && r.calls == calls) &&
            (p.Ok? && Infer(env, |calls|, p.value).Err? ==>
               r.result == Err(Infer(env, |calls|, p.value).error) && r.calls == calls + [p.value]) &&
            (p.Ok? && Infer(env, |calls|, p.value).Ok? ==>
               r.result == Absorb(acc, ParseOrEmpty(env, Infer(env, |calls|, p.value).value)) &&
               r.calls == calls + [p.value])
  {
    var p := ExtractionPrompt(env, t, s, chunk, acc.covered);
    if p.Ok? {
      var i := Infer(env, |calls|, p.value);
      if i.Ok? {
        assert ChunkStep(env, t, s, chunk, acc, calls) == Trace(Absorb(acc, ParseOrEmpty(env, i.value)), calls + [p.value]);
      } else {
        assert ChunkStep(env, t, s, chunk, acc, calls) == Trace(Err(i.error), calls + [p.value]);
      }
    } else {
      assert ChunkStep(env, t, s, chunk, acc, calls) == Trace(Err(PromptMissing(p.error)), calls);
    }
  }

  /**
   * Folding a parsed reply in: a falsy one changes nothing, a truthy one that is not a dict
   * fails, a dict is merged and its non-null keys become covered. Covered keys only grow, and
   * a key newly covered is a non-null key of the reply.
   */
  lemma AbsorbReply(acc: Acc, partial: Json)
    ensures !Truthy(partial) ==> Absorb(acc, partial) == Ok(acc)
    ensures Truthy(partial) && !partial.JObj? ==> Absorb(acc, partial) == Err(NotAnObject)
    ensures partial.JObj? && partial.fields != [] ==>
            Absorb(acc, partial) ==
              match Merge(partial.fields, acc.data)
              case Ok(d) => Ok(Acc(d, acc.covered + NonNullKeys(partial.fields)))
              case Err(e) => Err(MergeFailed(e.key))
    ensures Absorb(acc, partial).Err? ==> Absorb(acc, partial).error.NotAnObject? || Absorb(acc, partial).error.MergeFailed?
    ensures Absorb(acc, partial).Ok? ==> acc.covered <= Absorb(acc, partial).value.covered
    ensures Absorb(acc, partial).Ok? ==>
            forall k :: k in Absorb(acc, partial).value.covered && k !in acc.covered ==>
              partial.JObj? && k in NonNullKeys(partial.fields)
  {
    if Truthy(partial) && partial.JObj? {
      match Merge(partial.fields, acc.data)
      case Ok(d) =>
        assert Absorb(acc, partial) == Ok(Acc(d, acc.covered + NonNullKeys(partial.fields)));
      case Err(e) =>
    }
  }

  /** A chunk step adds at most its one prompt to the calls, and exactly that when it succeeds. */
  lemma ChunkStepCalls(env: Env, t: DocumentType, s: Schema, chunk: string, acc: Acc, calls: seq<string>)
    ensures var r := ChunkStep(env, t, s, chunk, acc, calls);
            calls <= r.calls && |r.calls| <= |calls| + 1 && (r.result.Ok? ==> |r.calls| == |calls| + 1)
  {
    ChunkStepCases(env, t, s, chunk, acc, calls);
  }

  /**
   * The chunk loop makes one call per chunk and adds nothing else to the calls made before it;
   * when it completes it has made exactly one call per chunk.
   */
  lemma {:induction false} ChunksCalls(env: Env, t: DocumentType, s: Schema, chunks: seq<string>, i: nat,
                                       acc: Acc, calls: seq<string>)
    requires i <= |chunks|
    ensures var r := Chunks(env, t, s, chunks, i, acc, calls);
            calls <= r.calls && |r.calls| <= |calls| + (|chunks| - i) &&
            (r.result.Ok? ==> |r.calls| == |calls| + (|chunks| - i))
    decreases |chunks| - i
  {
    if i < |chunks| {
      var step := ChunkStep(env, t, s, chunks[i], acc, calls);
      ChunkStepCalls(env, t, s, chunks[i], acc, calls);
      if step.result.Ok? {
        ChunksCalls(env, t, s, chunks, i + 1, step.result.value, step.calls);
      }
    }
  }

  /** Validation and correction add at most one call. */
  lemma FinishCalls(env: Env, c: Classification, s: Schema, data: Fields, calls: seq<string>)
    ensures var r := Finish(env, c, s, data, calls);
            calls <= r.calls && |r.calls| <= |calls| + 1
  {
  }

  /** A request makes at most one classification call, one call per chunk and one correction call. */
  lemma CallsBounded(env: Env, content: string)
    ensures |Run(env, content).calls| <= 1 + |env.split(content)| + 1
  {
    var c := ClassifyStep(env, content);
    if c.result.Ok? && c.result.value.docType != Other {
      var t := c.result.value.docType;
      var s := Registry[t].model;
      var ex := Chunks(env, t, s, env.split(content), 0, Acc([], {}), c.calls);
      ChunksCalls(env, t, s, env.split(content), 0, Acc([], {}), c.calls);
      if ex.result.Ok? {
        FinishCalls(env, c.result.value, s, ex.result.value.data, ex.calls);
      }
    }
  }

  /**
   * The first call of a request, and the only one before any chunking, classifies the first
   * `CHUNK_SIZE` characters; without a classification template no call is made at all.
   */
  lemma ClassificationComesFirst(env: Env, content: string)
    ensures Run(env, content).calls != [] ==>
            ClassificationPrompt(env, content).Ok? &&
            Run(env, content).calls[0] == ClassificationPrompt(env, content).value
    ensures ClassificationPrompt(env, content) ==
            PreparedPrompt(env.prompts, "classification", env.classificationSchema,
                           [("document_content", content[..if |content| < 3000 then |content| else 3000])], None)
    ensures ClassificationPrompt(env, content).Err? ==>
            Run(env, content) == Trace(Err(PromptMissing(PromptNotFound("classification"))), [])
    ensures |ClassifyStep(env, content).calls| <= 1
    ensures ClassifyStep(env, content).calls <= Run(env, content).calls
  {
    var c := ClassifyStep(env, content);
    assert FirstChunk(content) == content[..if |content| < 3000 then |content| else 3000];
    if c.result.Ok? && c.result.value.docType != Other {
      var t := c.result.value.docType;
      var s := Registry[t].model;
      var ex := Chunks(env, t, s, env.split(content), 0, Acc([], {}), c.calls);
      ChunksCalls(env, t, s, env.split(content), 0, Acc([], {}), c.calls);
      if ex.result.Ok? {
        FinishCalls(env, c.result.value, s, ex.result.value.data, ex.calls);
      }
    }
  }

  /** A document classified as OTHER is rejected with 400 after the classification call alone. */
  lemma OtherRejectedBeforeExtraction(env: Env, content: string)
    requires ClassifyStep(env, content).result.Ok?
    requires ClassifyStep(env, content).result.value.docType == Other
    ensures Run(env, content).result == Err(Undetermined)
    ensures |Run(env, content).calls| == 1
    ensures Status(Undetermined) == 400
  {
    StatusCodes(Undetermined);
  }

  /** The exceptions a call of the language model can raise. */
  predicate InferenceFailure(f: Failure)
  {
    f.ApiKeyMissing? || f.EmptyReply? || f.InferenceFailed?
  }

  /** A chunk step fails only for a missing template, a failed call, or a reply it cannot fold in. */
  lemma ChunkStepFailures(env: Env, t: DocumentType, s: Schema, chunk: string, acc: Acc, calls: seq<string>)
    ensures var r := ChunkStep(env, t, s, chunk, acc, calls);
            r.result.Err? ==>
              r.result.error.PromptMissing? || InferenceFailure(r.result.error) ||
              r.result.error.NotAnObject? || r.result.error.MergeFailed?
  {
    ChunkStepCases(env, t, s, chunk, acc, calls);
    var p := ExtractionPrompt(env, t, s, chunk, acc.covered);
    if p.Ok? && Infer(env, |calls|, p.value).Ok? {
      AbsorbReply(acc, ParseOrEmpty(env, Infer(env, |calls|, p.value).value));
    }
  }

  /** The chunk loop fails only the way a chunk step does. */
  lemma {:induction false} ChunksFailures(env: Env, t: DocumentType, s: Schema, chunks: seq<string>, i: nat,
                                          acc: Acc, calls: seq<string>)
    requires i <= |chunks|
    ensures var r := Chunks(env, t, s, chunks, i, acc, calls);
            r.result.Err? ==>
              r.result.error.PromptMissing? || InferenceFailure(r.result.error) ||
              r.result.error.NotAnObject? || r.result.error.MergeFailed?
    decreases |chunks| - i
  {
    if i < |chunks| {
      var step := ChunkStep(env, t, s, chunks[i], acc, calls);
      ChunkStepFailures(env, t, s, chunks[i], acc, calls);
      if step.result.Ok? {
        ChunksFailures(env, t, s, chunks, i + 1, step.result.value, step.calls);
      }
    }
  }

  /** Validation and correction fail only for a missing template, a failed call, or the validator. */
  lemma FinishFailures(env: Env, c: Classification, s: Schema, data: Fields, calls: seq<string>)
    ensures var r := Finish(env, c, s, data, calls);
            r.result.Err? ==>
              r.result.error.PromptMissing? || InferenceFailure(r.result.error) ||
              r.result.error.ValidatorRaised? || r.result.error.CorrectionFailed?
  {
    var v := Validate(env, s, JObj(data));
    if v.Invalid? {
      var p := CorrectionPrompt(env, c.docType, s, data, v.errors);
      assert Finish(env, c, s, data, calls) == Correct(env, c, s, data, v.errors, calls);
      if p.Ok? {
        var i := Infer(env, |calls|, p.value);
        if i.Ok? {
          assert Finish(env, c, s, data, calls).result == Revalidate(env, c, s, i.value);
        }
      }
    }
  }

  /**
   * How a request can fail: the classification step fails for a missing template, a failed
   * call or an unusable reply; OTHER is rejected; then only the chunk loop and the final
   * validation can fail. In particular no request ends in 404, since every type the classifier
   * can name but OTHER is registered.
   */
  lemma RunFailures(env: Env, content: string)
    ensures var r := Run(env, content);
            r.result.Err? ==>
              r.result.error.PromptMissing? || InferenceFailure(r.result.error) ||
              r.result.error.BadClassification? || r.result.error.Undetermined? ||
              r.result.error.NotAnObject? || r.result.error.MergeFailed? ||
              r.result.error.ValidatorRaised? || r.result.error.CorrectionFailed?
    ensures !Run(env, content).result.Err? || !Run(env, content).result.error.NoSchema?
  {
    var c := ClassifyStep(env, content);
    if c.result.Ok? && c.result.value.docType != Other {
      var d := c.result.value.docType;
      var s := Registry[d].model;
      var ex := Chunks(env, d, s, env.split(content), 0, Acc([], {}), c.calls);
      ChunksFailures(env, d, s, env.split(content), 0, Acc([], {}), c.calls);
      if ex.result.Ok? {
        FinishFailures(env, c.result.value, s, ex.result.value.data, ex.calls);
      }
    }
  }

  /**
   * What the endpoint answers: the run's result, or an error whose status is 400, 422 or 500
   * and never 404. A 400 comes from a `ValueError` or from OTHER, a 422 from a failed
   * correction, and a 500 from anything else, always with the same generic detail.
   */
  lemma EndpointReplies(env: Env, content: string)
    ensures Endpoint(env, content).Ok200? <==> Run(env, content).result.Ok?
    ensures var r := Endpoint(env, content);
            r.HttpError? ==> r.status in {400, 422, 500} && Run(env, content).result == Err(r.failure)
    ensures var r := Endpoint(env, content);
            r.HttpError? ==>
              (r.status == 400 <==>
                 r.failure.PromptMissing? || r.failure.ApiKeyMissing? || r.failure.EmptyReply? ||
                 r.failure.BadClassification? || r.failure.Undetermined?)
    ensures var r := Endpoint(env, content);
            r.HttpError? ==> (r.status == 422 <==> r.failure.CorrectionFailed?)
    ensures var r := Endpoint(env, content);
            r.HttpError? ==>
              (r.status == 500 <==>
                 r.failure.InferenceFailed? || r.failure.NotAnObject? || r.failure.MergeFailed? ||
                 r.failure.ValidatorRaised?)
    ensures var r := Endpoint(env, content);
            r.HttpError? && r.status == 500 ==>
              r.detail == Some("An internal error occurred while processing the file.")
    ensures var r := Endpoint(env, content);
            r.HttpError? && r.failure.Undetermined? ==> r.detail == Some("Document type could not be determined.")
  {
    RunFailures(env, content);
    var r := Endpoint(env, content);
    if r.HttpError? {
      StatusCodes(r.failure);
    }
  }

  // ----- Chunk bookkeeping ------------------------------------------------------------------

  /** The last variable of the extraction prompt. */
  lemma MissingKeysVariable(chunk: string, t: DocumentType, fieldNames: set<string>, covered: set<string>)
    ensures Get(ExtractionVars(chunk, t, fieldNames, covered), "missing_keys") == Some(MissingText(fieldNames, covered))
  {
    var vars := ExtractionVars(chunk, t, fieldNames, covered);
    assert Get(vars[2..], "missing_keys") == Some(MissingText(fieldNames, covered)) by {
      assert vars[2..][1..] == [("missing_keys", MissingText(fieldNames, covered))];
    }
    assert vars[1..][1..] == vars[2..];
  }

  /**
   * The extraction prompt of a chunk gets the chunk, the type's value, the covered keys sorted
   * and joined, and the schema's field names not yet covered, sorted and joined. The covered
   * keys read "None" exactly when none has been found, or the only one is the empty key or the
   * key "None" itself.
   */
  lemma ExtractionVariables(chunk: string, t: DocumentType, fieldNames: set<string>, covered: set<string>)
    ensures var vars := ExtractionVars(chunk, t, fieldNames, covered);
            Get(vars, "document_content") == Some(chunk) &&
            Get(vars, "document_type") == Some(TypeValue(t)) &&
            Get(vars, "extracted_keys") == Some(CoveredText(covered)) &&
            Get(vars, "missing_keys") == Some(Join(Sorted(fieldNames - covered), ", "))
    ensures Get(ExtractionVars(chunk, t, fieldNames, covered), "extracted_keys") == Some("None") <==>
            covered == {} || covered == {""} || covered == {"None"}
    ensures !(covered == {} || covered == {""} || covered == {"None"}) ==>
            Get(ExtractionVars(chunk, t, fieldNames, covered), "extracted_keys") == Some(Join(Sorted(covered), ", "))
  {
    MissingKeysVariable(chunk, t, fieldNames, covered);
    CoveredTextNone(covered);
  }

  /**
   * One chunk, once its prompt is sent and answered: a reply that is not JSON or is falsy
   * leaves the data and the covered keys as they were; a truthy reply that is not a dict
   * crashes; a dict is merged in, and the covered keys grow by exactly its keys whose value is
   * not null. Either way exactly that one prompt is added to the calls.
   */
  lemma ChunkBookkeeping(env: Env, t: DocumentType, s: Schema, chunk: string, acc: Acc, calls: seq<string>,
                         prompt: string, reply: string)
    requires ExtractionPrompt(env, t, s, chunk, acc.covered) == Ok(prompt)
    requires Infer(env, |calls|, prompt) == Ok(reply)
    ensures ChunkStep(env, t, s, chunk, acc, calls).calls == calls + [prompt]
    ensures env.parse(reply).None? ==> ChunkStep(env, t, s, chunk, acc, calls).result == Ok(acc)
    ensures env.parse(reply).Some? && !Truthy(env.parse(reply).value) ==>
            ChunkStep(env, t, s, chunk, acc, calls).result == Ok(acc)
    ensures env.parse(reply).Some? && Truthy(env.parse(reply).value) && !env.parse(reply).value.JObj? ==>
            ChunkStep(env, t, s, chunk, acc, calls).result == Err(NotAnObject)
    ensures env.parse(reply).Some? && env.parse(reply).value.JObj? && env.parse(reply).value.fields != [] ==>
            var f := env.parse(reply).value.fields;
            ChunkStep(env, t, s, chunk, acc, calls).result ==
              match Merge(f, acc.data)
              case Ok(d) => Ok(Acc(d, acc.covered + NonNullKeys(f)))
              case Err(e) => Err(MergeFailed(e.key))
  {
    var partial := ParseOrEmpty(env, reply);
    assert ChunkStep(env, t, s, chunk, acc, calls) == Trace(Absorb(acc, partial), calls + [prompt]);
    AbsorbReply(acc, partial);
    if env.parse(reply).None? {
      assert partial == JObj([]);
    } else {
      assert partial == env.parse(reply).value;
    }
  }

  /** The covered keys only grow along the chunk loop. */
  lemma {:induction false} CoveredKeysOnlyGrow(env: Env, t: DocumentType, s: Schema, chunks: seq<string>, i: nat,
                                               acc: Acc, calls: seq<string>)
    requires i <= |chunks|
    requires Chunks(env, t, s, chunks, i, acc, calls).result.Ok?
    ensures acc.covered <= Chunks(env, t, s, chunks, i, acc, calls).result.value.covered
    decreases |chunks| - i
  {
    if i < |chunks| {
      var step := ChunkStep(env, t, s, chunks[i], acc, calls);
      ChunkStepCases(env, t, s, chunks[i], acc, calls);
      var p := ExtractionPrompt(env, t, s, chunks[i], acc.covered);
      AbsorbReply(acc, ParseOrEmpty(env, Infer(env, |calls|, p.value).value));
      CoveredKeysOnlyGrow(env, t, s, chunks, i + 1, step.result.value, step.calls);
    }
  }

  /**
   * A covered key was supplied with a non-null value by some chunk reply: every key the loop
   * adds is a key whose value was not null in a reply the model gave to one of its calls.
   */
  lemma {:induction false} CoveredKeysCameFromReplies(env: Env, t: DocumentType, s: Schema, chunks: seq<string>,
                                                      i: nat, acc: Acc, calls: seq<string>, k: string)
    requires i <= |chunks|
    requires Chunks(env, t, s, chunks, i, acc, calls).result.Ok?
    requires k in Chunks(env, t, s, chunks, i, acc, calls).result.value.covered && k !in acc.covered
    ensures exists n, p :: |calls| <= n < |Chunks(env, t, s, chunks, i, acc, calls).calls| &&
              Chunks(env, t, s, chunks, i, acc, calls).calls[n] == p &&
              Infer(env, n, p).Ok? && env.parse(Infer(env, n, p).value).Some? &&
              env.parse(Infer(env, n, p).value).value.JObj? &&
              k in NonNullKeys(env.parse(Infer(env, n, p).value).value.fields)
    decreases |chunks| - i
  {
    var step := ChunkStep(env, t, s, chunks[i], acc, calls);
    var next := step.result.value;
    var prompt := ExtractionPrompt(env, t, s, chunks[i], acc.covered).value;
    ChunkStepCases(env, t, s, chunks[i], acc, calls);
    ChunksCalls(env, t, s, chunks, i + 1, next, step.calls);
    if k in next.covered {
      var reply := Infer(env, |calls|, prompt).value;
      AbsorbReply(acc, ParseOrEmpty(env, reply));
      assert env.parse(reply).Some? && env.parse(reply).value.JObj?;
      assert |calls| < |step.calls|;
      assert step.calls[|calls|] == prompt;
    } else {
      CoveredKeysCameFromReplies(env, t, s, chunks, i + 1, next, step.calls, k);
    }
  }

  // ----- Validate, then correct once -------------------------------------------------------------

  /** When the accumulated data validates, the request succeeds with no correction call. */
  lemma NoCorrectionWhenValid(env: Env, c: Classification, s: Schema, data: Fields, calls: seq<string>)
    requires Validate(env, s, JObj(data)).Valid?
    ensures Finish(env, c, s, data, calls) == Trace(Ok(Processed(c, Validate(env, s, JObj(data)).value)), calls)
  {
  }

  /**
   * When it does not, exactly one correction call is made, with the serialized data and the
   * error text, whatever its outcome: the request then succeeds only if the corrected reply
   * parses and validates.
   */
  lemma OneCorrectionCall(env: Env, c: Classification, s: Schema, data: Fields, calls: seq<string>)
    requires Validate(env, s, JObj(data)).Invalid?
    requires Lookup(env.prompts, "correction") != ""
    ensures var errors := Validate(env, s, JObj(data)).errors;
            var prompt := CorrectionPrompt(env, c.docType, s, data, errors);
            prompt.Ok? &&
            prompt.value == Substitute(env.prompts["correction"],
                              AllVars(env.schemaJson(s), Lookup(env.prompts, RulesKey(c.docType)),
                                      [("invalid_json", env.dumps(data)), ("validation_errors", env.describe(errors))])) &&
            Finish(env, c, s, data, calls).calls == calls + [prompt.value]
    ensures var errors := Validate(env, s, JObj(data)).errors;
            var prompt := CorrectionPrompt(env, c.docType, s, data, errors).value;
            Finish(env, c, s, data, calls).result.Ok? <==>
              Infer(env, |calls|, prompt).Ok? && env.parse(Infer(env, |calls|, prompt).value).Some? &&
              Validate(env, s, env.parse(Infer(env, |calls|, prompt).value).value).Valid?
  {
  }

  /** An unparsable or still invalid corrected reply ends the request with 422, with no further call. */
  lemma FailedCorrectionIs422(env: Env, c: Classification, s: Schema, data: Fields, calls: seq<string>,
                              prompt: string, reply: string)
    requires Validate(env, s, JObj(data)).Invalid?
    requires CorrectionPrompt(env, c.docType, s, data, Validate(env, s, JObj(data)).errors) == Ok(prompt)
    requires Infer(env, |calls|, prompt) == Ok(reply)
    requires env.parse(reply).None? || Validate(env, s, env.parse(reply).value).Invalid?
    ensures Finish(env, c, s, data, calls) == Trace(Err(CorrectionFailed), calls + [prompt])
    ensures Status(CorrectionFailed) == 422
  {
    var errors := Validate(env, s, JObj(data)).errors;
    assert Finish(env, c, s, data, calls) == Correct(env, c, s, data, errors, calls);
    assert Correct(env, c, s, data, errors, calls) == Trace(Revalidate(env, c, s, reply), calls + [prompt]);
    assert Revalidate(env, c, s, reply) == Err(CorrectionFailed);
    StatusCodes(CorrectionFailed);
  }

  /** A request that validates at once makes one call plus one per chunk. */
  lemma CallsWithoutCorrection(env: Env, content: string)
    requires ClassifyStep(env, content).result.Ok?
    requires ClassifyStep(env, content).result.value.docType != Other
    requires var t := ClassifyStep(env, content).result.value.docType;
             var ex := Chunks(env, t, Registry[t].model, env.split(content), 0, Acc([], {}),
                              ClassifyStep(env, content).calls);
             ex.result.Ok? && Validate(env, Registry[t].model, JObj(ex.result.value.data)).Valid?
    ensures Run(env, content).result.Ok?
    ensures |Run(env, content).calls| == 1 + |env.split(content)|
  {
    var c := ClassifyStep(env, content);
    var t := c.result.value.docType;
    ChunksCalls(env, t, Registry[t].model, env.split(content), 0, Acc([], {}), c.calls);
  }

  // ----- An end-to-end example -------------------------------------------------------------------

  const Ann: Json := JObj([("name", JStr("Ann"))])
  const Go: Json := JList([JObj([("name", JStr("Go"))])])
  /** `{basics: {name: "Ann"}}` */
  const FirstReply: Fields := [("basics", Ann)]
  /** `{basics: {name: "Other"}, skills: [{name: "Go"}]}` */
  const SecondReply: Fields := [("basics", JObj([("name", JStr("Other"))])), ("skills", Go)]
  /** `{basics: {name: "Ann"}, skills: [{name: "Go"}]}` */
  const BothReplies: Fields := [("basics", Ann), ("skills", Go)]

  /** The first reply is folded into the empty accumulator as it is, covering `basics`. */
  lemma FirstReplyAbsorbed()
    ensures Absorb(Acc([], {}), JObj(FirstReply)) == Ok(Acc(FirstReply, {"basics"}))
  {
    var p1 := FirstReply;
    assert MergeObject([("name", JStr("Ann"))], []) == Ok(Ann) by {
      assert MergeFields([("name", JStr("Ann"))], 1, [("name", JStr("Ann"))]) == Ok([("name", JStr("Ann"))]);
    }
    assert MergeValue("basics", Ann, Get([], "basics")) == Ok(Ann);
    assert Merge(p1, []) == Ok(p1) by {
      assert Put([], "basics", Ann) == p1;
      assert MergeFields(p1, 0, []) == MergeFields(p1, 1, p1);
      assert MergeFields(p1, 1, p1) == Ok(p1);
    }
    assert NonNullKeys(p1) == {"basics"} by { assert p1[0].1 != JNull; }
    assert Truthy(JObj(p1));
    assert {} + {"basics"} == {"basics"};
  }

  /** The second reply keeps the first `name` and adds `skills`, covering both keys. */
  lemma SecondReplyAbsorbed()
    ensures Absorb(Acc(FirstReply, {"basics"}), JObj(SecondReply)) == Ok(Acc(BothReplies, {"basics", "skills"}))
  {
    var p1, p2 := FirstReply, SecondReply;
    assert MergeObject([("name", JStr("Other"))], [("name", JStr("Ann"))]) == Ok(Ann) by {
      PutSpec([("name", JStr("Ann"))], "name", JStr("Ann"));
      assert MergeFields([("name", JStr("Other"))], 1, [("name", JStr("Ann"))]) == Ok([("name", JStr("Ann"))]);
    }
    assert !AllPrimitive(Go.items) by { assert !IsPrimitive(Go.items[0]); }
    assert [] + Go.items == Go.items;
    assert MergeValue("skills", Go, None) == Ok(Go);
    assert Get(p1, "skills") == None;
    assert Merge(p2, p1) == Ok(BothReplies) by {
      assert MergeFields(p2, 0, p1) == MergeFields(p2, 1, p1);
      assert Put(p1, "skills", Go) == BothReplies;
      assert MergeFields(p2, 2, BothReplies) == Ok(BothReplies);
    }
    assert NonNullKeys(p2) == {"basics", "skills"} by {
      assert p2[0].1 != JNull && p2[1].1 != JNull;
      assert forall k :: k in NonNullKeys(p2) ==> k == "basics" || k == "skills";
    }
    assert Truthy(JObj(p2));
    assert {"basics"} + {"basics", "skills"} == {"basics", "skills"};
  }

  /**
   * Two resume chunks answering `{basics: {name: "Ann"}}` and then
   * `{basics: {name: "Other"}, skills: [{name: "Go"}]}` leave
   * `{basics: {name: "Ann"}, skills: [{name: "Go"}]}` with `basics` and `skills` covered:
   * the first writer wins on `name`, `skills` is added.
   */
  lemma TwoChunkResume(env: Env, c1: string, c2: string, first: string, r1: string, r2: string)
    requires Lookup(env.prompts, "extraction_stateful") != ""
    requires forall p :: env.infer(1, p) == Answer(r1)
    requires forall p :: env.infer(2, p) == Answer(r2)
    requires r1 != "" && r2 != ""
    requires env.parse(r1) == Some(JObj(FirstReply))
    requires env.parse(r2) == Some(JObj(SecondReply))
    ensures Chunks(env, Resume, ResumeModel, [c1, c2], 0, Acc([], {}), [first]).result ==
            Ok(Acc(BothReplies, {"basics", "skills"}))
  {
    var e1 := ExtractionPrompt(env, Resume, ResumeModel, c1, {});
    var e2 := ExtractionPrompt(env, Resume, ResumeModel, c2, {"basics"});
    PromptFailsIffNoTemplate(env.prompts, "extraction_stateful", env.schemaJson(ResumeModel),
                             ExtractionVars(c1, Resume, ResumeFields, {}), Some(RulesKey(Resume)));
    PromptFailsIffNoTemplate(env.prompts, "extraction_stateful", env.schemaJson(ResumeModel),
                             ExtractionVars(c2, Resume, ResumeFields, {"basics"}), Some(RulesKey(Resume)));
    var a0 := Acc([], {});
    var a1 := Acc(FirstReply, {"basics"});
    var a2 := Acc(BothReplies, {"basics", "skills"});
    // The first chunk is call number 1, the second call number 2.
    ChunkStepCases(env, Resume, ResumeModel, c1, a0, [first]);
    assert Infer(env, 1, e1.value) == Ok(r1);
    FirstReplyAbsorbed();
    var s1 := ChunkStep(env, Resume, ResumeModel, c1, a0, [first]);
    assert s1.result == Ok(a1) && |s1.calls| == 2;
    ChunkStepCases(env, Resume, ResumeModel, c2, a1, s1.calls);
    assert Infer(env, 2, e2.value) == Ok(r2);
    SecondReplyAbsorbed();
    var s2 := ChunkStep(env, Resume, ResumeModel, c2, a1, s1.calls);
    assert s2.result == Ok(a2);
    assert Chunks(env, Resume, ResumeModel, [c1, c2], 2, a2, s2.calls).result == Ok(a2);
    assert Chunks(env, Resume, ResumeModel, [c1, c2], 1, a1, s1.calls) ==
           Chunks(env, Resume, ResumeModel, [c1, c2], 2, a2, s2.calls);
  }
}
