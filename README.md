# DocumentExtraction core, modelled in Dafny

A model of the document-to-JSON service in `main.py` and of the GitHub Action descriptor model in
`models/githubActionModel.py`. The service works in four steps:

1. Classify the first `CHUNK_SIZE` (3000) characters with one language-model call.
2. Look the document type up in `SCHEMA_REGISTRY`.
3. Extract from every chunk of the text in turn. Each partial reply is folded into an
   accumulator with the destination-biased deep merge `_deep_merge_dicts`, and the top-level
   keys found so far are tracked.
4. Validate the accumulator with the type's pydantic model. On a validation error, make exactly
   one correction call.

The `/process_document_v2/` endpoint maps every exception to a status code.

## Modules

| file | module | what it holds |
|---|---|---|
| `json.dfy` | `JsonValue` | The shared pieces. `Json` covers parsed JSON values. A dict is an insertion-ordered `seq` of pairs, with `Get`/`Put` for lookup and `d[k] = v`. `Outcome` is the result of a pydantic validation: valid, a validation error listing the failed locations, or an exception pydantic lets escape. Also truthiness and the non-null keys of a dict. |
| `text.dfy` | `Text` | Python's `in`, `str.replace` and (ASCII) `str.lower`. |
| `keys.dfy` | `KeyLists` | Python's string order, `sorted(list(keys))`, `", ".join`, and the two key-list prompt variables. |
| `merge.dfy` | `DictMerge` | `_deep_merge_dicts`. `MergeValue`/`MergeFields` are the specification functions. `DeepMergeDicts` is the loop as in the source, proved equal to them. |
| `merge_props.dfy` | `MergeProperties` | What the merge promises. |
| `prompts.dfy` | `Prompts` | `PromptManager.get_prepared_prompt`: template lookup, default variables with caller ones laid over them, and the replace-all fold. `PreparePrompt` is the loop. |
| `pipeline.dfy` | `Pipeline` | The registry, the failures and their status codes, and `run_async` step by step (`ClassifyStep`, `ChunkStep`/`Chunks`, `Finish`/`Correct`/`Revalidate`, `Run`). It also has the endpoint, and `RunAsync`, the chunk loop as the source runs it, proved equal to `Run`. |
| `pipeline_props.dfy` | `PipelineProperties` | Call counts and order, how a request can fail, chunk bookkeeping, and the validate-then-correct-once rule. |
| `action.dfy` | `GitHubAction` | `GitHubAction.model_validate` on a parsed JSON value. It covers the field shapes, the `using`-tagged `runs` union, `check_run_or_uses` and `validate_outputs`. |
| `action_props.dfy` | `GitHubActionProperties` | What that validator accepts and rejects. |

Everything outside the code is a field of the world value `Pipeline.Env`:

- the loaded prompt templates;
- the JSON schema text of each model;
- the text splitter;
- the language model, which answers call number `n` with prompt `p`;
- `json.loads` and `json.dumps`;
- the text of a `ValidationError`;
- pydantic's validation of the resume and citation models;
- the `BrandingIcon` values.

A run returns a `Trace`: its result together with the prompts it sent, in order.

Behaviour of the code worth noting:

- Empty document text is not rejected up front. The code has no such check.
- The accumulator keeps every key a reply supplies, not only the schema's field names. Nothing
  removes the others.
- The covered-keys variable reads `"None"` whenever the joined text is empty. That happens for
  no key and also for the single key `""`. The single key `"None"` gives the same text.

## Model

| member | source | states |
|---|---|---|
| JsonValue.PutSpec | main.py:96-108 | After `d[k] = v`, `k` maps to `v` and every other key keeps its value. The key set gains `k`. Writing the value already stored changes nothing. |
| JsonValue.PutKeepsUnique | main.py:100-108 | Assigning into a dict never creates a second entry for a key. |
| JsonValue.NonNullKeysByLookup | main.py:156 | In a dict, a key is newly found exactly when looking it up gives a value other than null. |
| Text.ReplaceAbsent | main.py:77 | Replacing a placeholder that does not occur leaves the template as it is. |
| Text.ReplaceBySelf | main.py:77 | Replacing a placeholder by itself leaves the template as it is. |
| Text.ReplaceWhole | main.py:77 | A template that is exactly the placeholder becomes exactly the value. |
| Text.LowerOfLowercase | main.py:66 | `lower()` leaves a string without upper-case letters unchanged. |
| KeyLists.SortedSpec | main.py:220-221 | `sorted(list(keys))` is strictly ascending in Python's string order. It holds every key once and nothing else. |
| KeyLists.SortedUnique | main.py:220-221 | Any strictly ascending listing of a key set is `Sorted`, so the rendered key lists are determined by the sets. |
| KeyLists.CoveredTextNone | main.py:220 | The covered keys read `"None"` exactly when there are none, when the only one is `""`, or when the only one is `"None"`. |
| DictMerge.Unseen | main.py:103 | An item is appended exactly when it is in the incoming list and not in the destination list. No more items are appended than arrive, and none when every item is already there. |
| DictMerge.UnseenCounts | main.py:103 | An item already in the destination list is appended zero times. Any other item is appended as often as it occurs in the incoming list, so incoming duplicates survive. |
| DictMerge.UnseenKeepsOrder | main.py:103 | The appended items are a subsequence of the incoming list: they keep the order they arrive in. |
| DictMerge.DeepMergeDicts | main.py:92-109 | The loop over the source entries, which updates the destination and recurses into nested dicts, computes `Merge`, including the error it raises. |
| DictMerge.MergeEntry | main.py:94-108 | One iteration stores the merged value of its key, or raises with the merge's error. |
| DictMerge.MergeIntoNonDict | main.py:96-97 | Recursing into a non-dict destination value succeeds exactly when every nested entry is a scalar whose key is `in` that value. |
| MergeProperties.MergeFieldsOkAt | main.py:94-109 | The loop from entry `i` on raises exactly when one of the remaining values cannot be merged into the destination value at its key. |
| MergeProperties.MergeFieldsValueAt | main.py:94-109 | When the loop from entry `i` on succeeds, the remaining keys take their merged values and all other keys keep theirs. |
| MergeProperties.MergePointwise | main.py:92-109 | The merge raises exactly when some key's value cannot be merged. Otherwise the keys are those of both dicts, source keys take the merged value, and other keys keep the destination's. |
| MergeProperties.ScalarFirstWriterWins | main.py:106-108 | A scalar or null is written only when the key is absent. A value already there, even null, is never overwritten. |
| MergeProperties.ObjectMergedRecursively | main.py:95-97 | A nested dict merges into the destination's dict at that key, or into `{}` when the key is absent. Against a non-dict value it raises unless every nested entry is a scalar whose key is `in` that value, and then that value is left alone. A non-empty dict raises against null, a bool or an int. |
| MergeProperties.ListMerge | main.py:98-105 | A non-list destination value is reset to `[]`. An all-primitive list, an empty one included, appends in order the items not in the destination list as it was. Any other list is appended whole. |
| MergeProperties.MergeValueTwice | main.py:94-108 | Merging a value with no list of non-primitive items into the result of merging it gives the same result. |
| MergeProperties.MergeTwiceIsOnce | main.py:92-109 | Idempotence: if `p` holds no list with a non-primitive item at any depth and `merge(p, d)` succeeds, merging `p` into the result changes nothing. |
| MergeProperties.ObjectListsDuplicate | main.py:104-105 | With a list of dicts, the second merge appends the entries again, so idempotence needs its premise. |
| MergeProperties.ExampleScalarKept | main.py:106-108 | `{a: 1}` merged with `{a: 2}` stays `{a: 1}`. |
| MergeProperties.ExamplePrimitiveListDeduplicated | main.py:102-103 | `{tags: ["x"]}` merged with `{tags: ["x", "y"]}` gives `{tags: ["x", "y"]}`. |
| Prompts.OverlayLookup | main.py:70-74 | In `{**defaults, **variables}` a caller variable shadows a default of the same name. Other defaults stay, and the keys are those of both. |
| Prompts.OverlayKeepsOrder | main.py:70-74 | The merged variables start with the defaults, in their order. |
| Prompts.SubstituteAbsent | main.py:76-77 | A template that contains none of the placeholders comes back unchanged. |
| Prompts.NoBracesUnchanged | main.py:76-78 | A template without `{{` comes back unchanged, whatever the variables. |
| Prompts.SubstituteOne | main.py:76-77 | A template that is the placeholder of one variable becomes its value. This holds when no earlier placeholder occurs in it and no later one occurs in the value. |
| Prompts.PreparePrompt | main.py:56-78 | The method's lookup, rules lookup and replace loop compute `PreparedPrompt`, error included. |
| Prompts.PromptFailsIffNoTemplate | main.py:59-61 | Preparation fails exactly when the template is missing or empty, and the error names it. |
| Prompts.CallerOverridesDefaults | main.py:64-74 | A caller variable wins over `pydantic_schema_json`/`schema_specific_rules`. Otherwise the defaults stay: the schema text and the type's rules, or `""`. The two defaults come first. |
| Prompts.EarlierValuesAreRescanned | main.py:76-77 | Substitution follows the order of the variables: a value put in for an earlier key is scanned for later keys, not for earlier ones. |
| Pipeline.FirstChunk | main.py:131 | `content[:CHUNK_SIZE]` is a prefix of the content, of length `min(len(content), 3000)`. |
| Pipeline.RunAsync | main.py:125-195 | `run_async`'s chunk loop, which updates the data and the covered keys, gives the same result and the same calls as `Run`. |
| PipelineProperties.RegistryHoldsEveryKnownType | main.py:86-90 | A document type has an extraction schema exactly when it is not OTHER. |
| PipelineProperties.RulesKeyIsTypeValue | main.py:66 | A type's rules template is named by the type's value. |
| PipelineProperties.EndpointReplies | main.py:247-258 | The endpoint answers 200 exactly when the run succeeds, with its result. An error reply carries the run's failure and its status is 400, 422 or 500, never 404. 400 is exactly the `ValueError`s and OTHER, 422 exactly a failed correction, 500 exactly the rest. Every 500 carries the generic detail text, and OTHER carries its fixed text. |
| PipelineProperties.StatusCodes | main.py:252-258 | 400 exactly for the `ValueError`s (missing template, missing API key, empty reply, bad classification) and for OTHER. 404 exactly for a type without a schema, 422 exactly for a failed correction, 500 for everything else. |
| PipelineProperties.AbsorbReply | main.py:154-157 | A falsy reply changes nothing. A truthy non-dict reply raises. A dict is merged, and its non-null keys become covered. Covered keys only grow. |
| PipelineProperties.ChunksCalls | main.py:151-157 | The chunk loop makes at most one call per chunk. It keeps the calls made before it, and a completed loop made exactly one call per chunk. |
| PipelineProperties.FinishCalls | main.py:161-195 | Validation and correction add at most one call. |
| PipelineProperties.CallsBounded | main.py:125-195 | A request makes at most 1 + (number of chunks) + 1 calls. |
| PipelineProperties.ClassificationComesFirst | main.py:131-132 | The classification step makes at most one call, and its calls begin the request's calls, so it is the only one before chunking. The first call sends the classification prompt for `content[:3000]`. Without that template no call is made. |
| PipelineProperties.OtherRejectedBeforeExtraction | main.py:136-137 | OTHER ends the request with 400 after the classification call alone. |
| PipelineProperties.FinishFailures | main.py:161-195 | Validation and correction fail only for a missing template, a failed call, an escaping validator exception or a failed correction. |
| PipelineProperties.RunFailures | main.py:125-195 | Lists every way a request can fail, and shows no request ends in 404. |
| PipelineProperties.ExtractionVariables | main.py:211-224 | A chunk's prompt gets the chunk, the type's value, the covered keys sorted and joined, and the schema's field names minus the covered keys, sorted and joined. The covered keys read `"None"` exactly in the cases above. |
| PipelineProperties.ChunkBookkeeping | main.py:151-157 | Once a chunk's prompt is answered, exactly that prompt is added to the calls. An unparsable reply (read as `{}`) or a falsy one changes nothing. A truthy non-dict raises. A dict is merged, and the covered keys grow by exactly its non-null keys. |
| PipelineProperties.CoveredKeysOnlyGrow | main.py:156-157 | The covered keys only grow along the chunk loop. |
| PipelineProperties.CoveredKeysCameFromReplies | main.py:153-157 | Every key the loop covers came with a non-null value in a dict reply to one of the loop's own calls: some call number `n` made by the loop, whose recorded prompt is the one answered. |
| PipelineProperties.NoCorrectionWhenValid | main.py:161-165 | Valid data is returned with no correction call. |
| PipelineProperties.OneCorrectionCall | main.py:167-189 | Invalid data leads to exactly one correction call. It carries the serialized data and the error text. The request then succeeds exactly when the reply parses and validates. |
| PipelineProperties.FailedCorrectionIs422 | main.py:184-195 | An unparsable or still invalid corrected reply ends in 422, with no further call. |
| PipelineProperties.CallsWithoutCorrection | main.py:145-165 | A request whose data validates at once succeeds with one call plus one per chunk. |
| PipelineProperties.TwoChunkResume | main.py:148-157 | Two resume chunks answering `{basics: {name: Ann}}` and then `{basics: {name: Other}, skills: [{name: Go}]}` leave `{basics: {name: Ann}, skills: [{name: Go}]}`, with both keys covered. |
| GitHubAction.FirstOffending | models/githubActionModel.py:381-393 | Finds the first output, in dict order, of the kind the action may not have, or none exactly when no output offends. |
| GitHubActionProperties.StepNeedsUsesOrRunAndShell | models/githubActionModel.py:323-330 | A dict step passes the before-validator exactly when it has the key `uses`, or both `run` and `shell`. Otherwise it is rejected with the validator's message only. |
| GitHubActionProperties.UsesNullIsAccepted | models/githubActionModel.py:326-327 | Key presence is what counts: `{"uses": null}` is a valid step. |
| GitHubActionProperties.RunAndShellKeysSuffice | models/githubActionModel.py:326-329 | `{"run": null, "shell": null}` is a valid step. `run` alone is rejected. |
| GitHubActionProperties.NonObjectSteps | models/githubActionModel.py:323-330 | A step that is not a dict never validates. On null, a bool or an int the `in` test raises `TypeError`, which escapes validation. |
| GitHubActionProperties.ShellTakesAnyString | models/githubActionModel.py:313 | `shell` takes any string, one of the six `Shell` names or not. |
| GitHubActionProperties.RunsNeedAKnownTag | models/githubActionModel.py:353 | `runs` validates only with a tag among `node12`/`node16`/`node20`/`composite`/`docker`. Another tag, a missing tag, a non-dict or a missing block is rejected at the block. |
| GitHubActionProperties.NodeTags | models/githubActionModel.py:304 | The JavaScript tags are exactly `node12`, `node16` and `node20`, each naming its own version. |
| GitHubActionProperties.JavascriptRunsFields | models/githubActionModel.py:303-305 | A JavaScript block carries its Node tag and a string `main`. |
| GitHubActionProperties.CompositeRunsFields | models/githubActionModel.py:332-334 | A composite block is tagged `composite` and carries a list `steps`. |
| GitHubActionProperties.DockerRunsFields | models/githubActionModel.py:336-338 | A docker block is tagged `docker` and carries a string `image`. |
| GitHubActionProperties.OutputKinds | models/githubActionModel.py:292-296 | An output validates exactly with a string `description`. It is of the composite kind exactly when it also has a string `value`. |
| GitHubActionProperties.OutputsMatchTheAction | models/githubActionModel.py:366-394 | No or empty outputs always pass. Otherwise a composite action passes exactly when every output is composite, any other action exactly when none is. The action comes back unchanged, and the rule never raises. |
| GitHubActionProperties.OutputErrorNamesFirstOffender | models/githubActionModel.py:381-393 | A rejected action gets one error naming the first output, in dict order, of the wrong kind. |
| GitHubActionProperties.ActionRequiredFields | models/githubActionModel.py:351-353 | A valid action had a string `name`, a string `description` and a valid `runs` block, and holds exactly those. |
| GitHubActionProperties.ActionOptionalFields | models/githubActionModel.py:354-357 | `author`, `inputs`, `outputs` and `branding` may all be absent, and are then `None`. |
| GitHubActionProperties.ValidatedActionOutputs | models/githubActionModel.py:366-394 | In every validated action, an output is composite exactly when the action is. |
| GitHubActionProperties.InputNeedsDescription | models/githubActionModel.py:286-290 | An input needs a string `description`. The other three fields are optional. |
| GitHubActionProperties.ColorsRoundTrip | models/githubActionModel.py:7-16 | The branding colour is one of exactly nine values, and each colour and its string map to each other. |

## Left out

- Reading the upload and turning it into text (`utils/textExtraction.py`, main.py:241-245): file I/O and foreign parsers. The model starts from the text.
- `RecursiveCharacterTextSplitter` (main.py:120-123, 145) is the oracle `Env.split`, a foreign library. No claim about chunk sizes or overlap is made, and `CHUNK_OVERLAP` does not appear.
- `run_inference_async` (`utils/inference.py`) is the oracle `Env.infer`, because it is a network call. Its two `ValueError`s (no API key, empty reply) and a failing call are modelled. The model name and the request format are not.
- `json.loads`, `json.dumps`, `str(ValidationError)` and `model_json_schema()` are the oracles `parse`, `dumps`, `describe` and `schemaJson`. They are library calls.
- Prompt file loading (main.py:45-51) is file I/O: the template table is a given map.
- pydantic validation of `Resume` and `CitationFile` is the oracle `validateOther`, a foreign library. `CitationFile`'s source is not part of this model; its field names are the parameter `citationFields`. The resume's field names are the 13 top-level names of `models/resumeModel.py`.
- `SimpleClassification` decoding: only `type` and `description` as strings are checked. Whitespace stripping is not modelled.
- pydantic error messages are replaced by the failing field's location, or by the validator's own message. `str_strip_whitespace`, and alias versus field-name population, are not modelled. Fields are read under their aliases.
- The 258 `BrandingIcon` values are the parameter `icons`. Whether an icon is valid is membership in it.
- `Union[Shell, str]` is a plain string. Which Python type the value gets does not change what validates.
- Floating-point numbers are left out: numbers are integers. Python's `True == 1` in the list deduplication is left out too: a boolean and an integer are never equal here.
- `Text.Lower` lower-cases ASCII letters only, while Python's `str.lower` covers every alphabet. It is applied to the four document-type values, where only ASCII letters occur, and to pydantic's lax boolean words in `GitHubAction.LaxBool`, which pydantic also compares in ASCII only.
- `DictMerge.DeepMergeDicts` works on values, not on shared dict objects. The merge only ever stores fresh containers or dicts appended as list items, and later merges never modify list items, so the sharing is not observable.
- `async`/`await`, `print` logging and the FastAPI transport are left out. The error reply's `detail` text is modelled only where the code fixes it (`Pipeline.FixedDetail`).
- Recursion-depth limits of Python on deeply nested replies are left out.
- `Env.parse` is not constrained to return dicts with unique keys. The merge lemmas that need unique keys (`UniqueKeys`, `WellFormed`) take them as a premise. The pipeline lemmas do not need them.
