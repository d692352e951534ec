# Qiniu model-catalogue sync and storage tools, modelled in Dafny

This project models three parts of a Dify plugin for the Qiniu cloud:

- **The model-catalogue sync script.** It fetches the marketplace model list and keeps the records that have an id, speak the OpenAI protocol and are text-in/text-out language models. It turns each one into a YAML descriptor named after its sanitised id. Then it reconciles the descriptor directory: new models are added, existing ones updated, and stale ones deleted. Finally it rewrites `_position.yaml` (newest first when creation times exist) and picks the exit status.
- **The bucket-listing tool.** It normalises its parameters, checks bucket access, turns one page of the listing into file records with defaults and a next-page marker, and attaches access URLs.
- **The upload tool.** It validates its parameters in order, joins the key prefix, chooses the upload policy and the failure message, and reports the stored key and URL.

The layout is one module per concern:

- `Wrappers`: `Option`.
- `PyText`: the Python string built-ins the code relies on.
- `Sanitizer`: `sanitize_filename`.
- `Catalog`: records and the fetch filter.
- `Descriptors`: features, defaults, warnings and the descriptor.
- `Ordering`: the position order.
- `Reconciler`: the descriptor directory as a class `ModelDirectory` whose `files` map changes in place.
- `SyncRun`: `main`.
- `StorageCommon`: code repeated verbatim in both tools, defined once.
- `ListBucketFiles` and `FileUpload`: the two tools.

The parts written as loops are methods, each proved against a reference function: `sanitize_filename`, the filter loop, `get_model_features`, the write and delete loops of `update_model_files`, `update_position_file`, the item loop of `_list_files` and the URL loop of `_invoke`. Properties of the reference functions are proved as lemmas.

Inputs that come from outside are parameters:

- The decoded marketplace reply (`Catalog.MarketResponse`).
- The value of the `CI` variable (`SyncRun.CiFlag` reads it; everything else takes the resulting flag).
- Each remote answer of the storage SDK (`StorageCommon.Probe`, `ListBucketFiles.ListCall`, `FileUpload.PutReply`).

The module-level list `models_with_missing_fields` is an explicit accumulator of `Descriptors.Warning` values threaded through every call.

Descriptor features come from the record's `features` field (`tools` maps to `tool-call`, `vision` to `vision`). A record whose only known feature is `vision` gets `["vision"]` with no tool features (`Descriptors.FeaturesFromApi`).

## Model

| member | source | states |
|---|---|---|
| PyText.StripSpec | scripts/update_models.py:344 | `strip(chars)` yields a contiguous slice of its input that neither starts nor ends with one of `chars` |
| PyText.StripUnchanged | scripts/update_models.py:344 | a string that neither starts nor ends with one of `chars` is left as it is by `strip` |
| PyText.NatToString | tools/file_upload.py:94 | `str(n)` of a non-negative integer is a non-empty digit string without a leading zero (unless `n` is 0) whose decimal value is `n` |
| Sanitizer.SanitizeFilename | scripts/update_models.py:324-345 | the replace chain, the `while "--" in filename` loop and `strip("-")` compute the reference stem `Sanitize` (the loop is proved to terminate and to preserve the collapsed form) |
| Sanitizer.SanitizedIsSafe | scripts/update_models.py:336-344 | a stem contains none of `/ : space @`, no `--`, and neither starts nor ends with `-` |
| Sanitizer.SanitizeIdempotent | scripts/update_models.py:324-345 | sanitising a stem again leaves it unchanged |
| Sanitizer.SanitizeExamples | scripts/update_models.py:335-336 | the two documented examples map to `deepseek-deepseek-v3.2-speciale` and `google-gemini-2.5-flash` |
| Catalog.FilterModels | scripts/update_models.py:268-302 | the filter loop keeps exactly the records of the reference `Retained`; the skip counters count the no-openai and non-LLM verdicts; kept plus skipped plus id-less records add up to the input |
| Catalog.FetchModels | scripts/update_models.py:246-311 | a failed or unreadable request or a falsy `status` gives the empty list; otherwise the filtered records, each with a truthy id, `openai` support and text in and out |
| Catalog.VerdictsPartition | scripts/update_models.py:274-298 | every raw record gets exactly one verdict: kept, no id, no openai, or not an LLM |
| Catalog.RetainedIffUsable | scripts/update_models.py:87-102 | a record is kept iff it is in the input, has a truthy id, lists `openai` and `is_llm_model` holds |
| Catalog.RetainedKeepsOrder | scripts/update_models.py:274-298 | filtering a concatenation is the concatenation of the filtered parts, so kept records keep their relative order |
| Descriptors.GetModelFeatures | scripts/update_models.py:105-138 | the feature loop computes the reference `Features` of the record's `features` field |
| Descriptors.FeaturesWellFormed | scripts/update_models.py:105-138 | the feature list is never empty, holds only `tool-call`, `stream-tool-call` and `vision`, and has `stream-tool-call` iff it has `tool-call` |
| Descriptors.FeaturesFromApi | scripts/update_models.py:118-136 | `vision` iff the API lists `vision`; `tool-call` iff the API lists `tools` or does not list `vision`; both tool features alone when no known feature is listed |
| Descriptors.UnknownFeatureIgnored | scripts/update_models.py:121-128 | inserting an API feature the mapping does not know leaves the feature list unchanged |
| Descriptors.ContextSize | scripts/update_models.py:141-167 | the context size is positive; it equals the constraint iff the constraint is positive, and 65536 otherwise |
| Descriptors.MaxTokensOf | scripts/update_models.py:170-195 | the output limit is positive; it equals the constraint iff the constraint is positive, and 4096 otherwise |
| Descriptors.GetModelContextSize | scripts/update_models.py:141-167 | returns the context size and appends one warning exactly when CI mode is on and the constraint is not positive |
| Descriptors.GetModelMaxTokens | scripts/update_models.py:170-195 | returns the output limit and appends one warning exactly when CI mode is on and the constraint is not positive |
| Descriptors.GenerateModelYaml | scripts/update_models.py:198-243 | the descriptor carries the record's id as model, the name (defaulting to the id) as both labels, `llm`/`chat`, positive sizes and the three parameter rules in order; the warnings of both getters are appended in order |
| Descriptors.MissingWarningsCharacterised | scripts/update_models.py:159-166 | a descriptor records at most two warnings, none outside CI mode, one per defaulted field, each naming the record's id (or `unknown`) |
| Descriptors.MessageInjective | scripts/update_models.py:159-164 | two warnings with the same text `模型 <id> 缺少 <field> 字段` name the same id and field, so the model keeps warnings as (id, field) pairs without losing anything |
| Ordering.Timestamp | scripts/update_models.py:429 | the sort key is the first truthy of `created_at`, `created`, `creation_time`, and 0 iff none is truthy |
| Ordering.NewestFirstIsStableSort | scripts/update_models.py:427-431 | the newest-first order is a permutation of the records, non-increasing by key, and records with equal keys keep their input order |
| Ordering.PositionOrderCharacterised | scripts/update_models.py:409-437 | the manifest lists one stem per record (a permutation of the records' stems); sorted and stable when any record has a truthy creation time, in input order otherwise |
| Reconciler.NewModelFilenames | scripts/update_models.py:368 | the set built from the records is exactly the set of their stems |
| Reconciler.ModelDirectory.ExistingModels | scripts/update_models.py:348-355 | the existing models are every stem of the directory except `_position` |
| Reconciler.ModelDirectory.UpdateModelFiles | scripts/update_models.py:357-406 | the directory becomes `Reconciled` (the position manifest as it was plus exactly the published descriptors); `added`/`updated` classify each record against the stems present before; `removed` is duplicate-free and holds exactly the stale stems; warnings are appended record by record |
| Reconciler.ModelDirectory.PublishAll | scripts/update_models.py:374-396 | the write loop overlays every record's descriptor on the directory and classifies each record against the stems present before the loop |
| Reconciler.ModelDirectory.RemoveStale | scripts/update_models.py:398-404 | the delete loop removes exactly the existing stems no record produced, reporting each once, in any set order |
| Reconciler.ModelDirectory.UpdatePositionFile | scripts/update_models.py:409-441 | the manifest is rewritten with `PositionOrder` and no other file changes |
| Reconciler.PublishedKeys | scripts/update_models.py:374-396 | the descriptors written are keyed by exactly the records' stems |
| Reconciler.PublishedHoldsLastDescriptor | scripts/update_models.py:377-396 | when two records share a stem, the file holds the descriptor of the later one |
| Reconciler.ReconcileConverges | scripts/update_models.py:357-406 | after the run the model stems are exactly the records' stems, each holding a descriptor, and the manifest survives untouched unless a record's stem is `_position` |
| Reconciler.ClassificationCounts | scripts/update_models.py:385-391 | every record is reported once, as added or as updated: `|added| + |updated|` is the number of records |
| Reconciler.ClassificationIsPartition | scripts/update_models.py:385-391 | `added` and `updated` together hold the records' ids with the same multiplicities |
| Reconciler.AddedIffNewStem | scripts/update_models.py:385-388 | an id is reported as added iff it belongs to a record and its stem was not an existing stem |
| Reconciler.UpdatedIffExistingStem | scripts/update_models.py:389-391 | an id is reported as updated iff it belongs to a record and its stem was an existing stem |
| Reconciler.ReconcileIdempotent | scripts/update_models.py:357-406 | reconciling a reconciled directory with the same records changes nothing and deletes nothing |
| Reconciler.RerunReportsUpdates | scripts/update_models.py:385-391 | on such a rerun, an id is reported as added only if its stem is `_position` |
| SyncRun.CiFlagAccepts | scripts/update_models.py:81 | `TRUE`, `Yes` and `1` switch CI mode on |
| SyncRun.CiFlagRejects | scripts/update_models.py:81 | an unset variable, `0` and `false` leave CI mode off |
| SyncRun.CiFlagIgnoresCase | scripts/update_models.py:81 | for every value, lower-casing it first does not change whether CI mode is on |
| SyncRun.ExitCode | scripts/update_models.py:486-508 | the status is 0 or 1; 1 when CI mode collected warnings; otherwise 0 iff something was added, updated or removed |
| SyncRun.RunUpdate | scripts/update_models.py:446-508 | an empty model list exits 1 before any file changes; otherwise the directory is reconciled, the manifest rewritten, and the status is 1 iff CI mode collected warnings |
| SyncRun.CiGateIff | scripts/update_models.py:486 | warnings exist iff CI mode is on and some record has a non-positive context length or output limit |
| SyncRun.OutsideCiSucceeds | scripts/update_models.py:502-504 | outside CI mode, a run over a non-empty list always exits 0 |
| StorageCommon.AuthError | tools/list_bucket_files.py:21-29 | a credential error iff either key is missing or empty (the same method appears at tools/file_upload.py:21-29) |
| StorageCommon.BucketAccessError | tools/list_bucket_files.py:31-52 | access is confirmed iff the keys are present and the probe replies 200; 401 and 631 map to their own messages; missing keys are reported first (the same method appears at tools/file_upload.py:31-52) |
| StorageCommon.AccessUrl | tools/list_bucket_files.py:132-142 | without a domain the URL is the key; with one it has an `http://` or `https://` scheme and ends with `/` + key (the same method appears at tools/file_upload.py:111-121) |
| StorageCommon.AccessUrlKeepsKey | tools/file_upload.py:111-121 | with a domain, the URL is the domain with only its trailing `/` characters removed, `https://` prepended unless it already has a scheme, then `/` and the unchanged key |
| StorageCommon.TrailingSlashIgnored | tools/list_bucket_files.py:136 | a trailing `/` on the domain does not change the URL |
| StorageCommon.DomainWithSchemeKept | tools/list_bucket_files.py:137-139 | a domain that has a scheme and no trailing slash is used verbatim |
| ListBucketFiles.ClampLimit | tools/list_bucket_files.py:174 | the page size is within 1..1000, equals the request iff the request is in range, and is 1 or 1000 at the ends |
| ListBucketFiles.ClampMonotone | tools/list_bucket_files.py:174 | clamping never reorders two limits |
| ListBucketFiles.EmptyToNone | tools/list_bucket_files.py:168-171 | an empty or missing prefix or marker becomes `None`; any other value is kept |
| ListBucketFiles.ListFiles | tools/list_bucket_files.py:54-130 | the item loop computes the reference `ListOutcome`; a page's count is its number of files, never more than its entries |
| ListBucketFiles.MappedShrinks | tools/list_bucket_files.py:83-101 | non-dictionary entries are skipped: at most one record per entry, exactly one when all are dictionaries |
| ListBucketFiles.MappedFromEntries | tools/list_bucket_files.py:83-98 | every record is the defaulted form of some dictionary entry |
| ListBucketFiles.DescribeDefaults | tools/list_bucket_files.py:86-97 | a missing size is 0, a missing key is empty, and a missing `lastModify` falls back to `putTime`, then 0 |
| ListBucketFiles.MarkerIsLastEntryKey | tools/list_bucket_files.py:103-105 | without a marker in the reply, the next marker is the key of the last dictionary entry |
| ListBucketFiles.ListStatusCases | tools/list_bucket_files.py:68-122 | 200 lists; 401 and 631 raise credential errors; any other code fails with a message naming the code |
| ListBucketFiles.Invoke | tools/list_bucket_files.py:144-248 | a page request is sent iff the bucket name is present and access is confirmed, with the clamped limit and normalised prefix and marker; the reply is the reference `InvokeReply` |
| ListBucketFiles.BucketRequiredFirst | tools/list_bucket_files.py:163-165 | without a bucket name the tool yields only its text message, whatever the credentials or the remote side |
| ListBucketFiles.ReplyWellFormed | tools/list_bucket_files.py:184-248 | in every JSON message the count is the number of files, the next marker is `None` on the last page, errors carry no files, and each file has a URL iff a domain is configured |
| ListBucketFiles.RequestNormalised | tools/list_bucket_files.py:156-174 | the page size sent is within 1..1000 (100 by default), and the prefix and marker are never empty strings |
| FileUpload.ApplyPrefix | tools/file_upload.py:54-64 | the key always ends with the filename; a missing or empty prefix gives the filename itself |
| FileUpload.PrefixJoin | tools/file_upload.py:59-64 | the part before the filename is the whitespace-stripped prefix, with `/` appended exactly when that is non-empty and does not already end in `/`; it is empty iff the prefix strips to nothing |
| FileUpload.BlankPrefixIgnored | tools/file_upload.py:60-64 | a whitespace-only prefix leaves the bare filename |
| FileUpload.SlashTerminatedPrefixKept | tools/file_upload.py:60-64 | a prefix without surrounding whitespace that ends in `/` is used as it is |
| FileUpload.MissingParameter | tools/file_upload.py:142-153 | the first missing of content, filename and bucket, in that order, decides the message; none iff all three are present |
| FileUpload.UploadPolicy | tools/file_upload.py:71-81 | an insert-only policy exists iff overwriting is off |
| FileUpload.PolicyScope | tools/file_upload.py:77-80 | the policy scope is the bucket, `:`, then the key |
| FileUpload.UploadErrorMessage | tools/file_upload.py:93-99 | the already-exists message iff the status is 614 and error text is present; otherwise the message starts with `上传失败: HTTP <code>` |
| FileUpload.ErrorTextReported | tools/file_upload.py:95-96 | present error text with a status other than 614 ends the message after ` - ` |
| FileUpload.UploadOutcome | tools/file_upload.py:66-109 | the upload succeeds iff the keys are present and the reply is 200; a success names the bucket and reports the server's key, defaulting to the requested one; missing keys and exceptions fail with the `上传过程中发生错误: ` message; any other status fails with `UploadErrorMessage` of the status and error text, which is the already-exists message iff the status is 614 with error text |
| FileUpload.Invoke | tools/file_upload.py:123-211 | only a missing parameter suppresses the JSON message; a key is reported iff the parameters are valid, access is confirmed and the upload replies 200, and it is the server's key or else the prefixed filename |
| FileUpload.ValidationFirst | tools/file_upload.py:142-153 | a missing parameter stops the tool with a text message only, whatever the credentials or the remote side |
| FileUpload.ReplyWellFormed | tools/file_upload.py:164-211 | in every JSON message the error is present iff the key is absent, and a URL appears iff there is a key and a domain, ending with `/` + key |
| FileUpload.DefaultKeyIsPrefixed | tools/file_upload.py:89 | a successful reply without a `key` reports the prefixed filename as the key |

## Left out

- The HTTP request, JSON decoding and the two exception handlers of `fetch_models_from_api`: the decoded reply, or its failure, is the input `MarketResponse`.
- YAML serialisation and the filesystem calls (`glob`, `open`, `unlink`): the directory is a map from stem to file content, and a descriptor is a value.
- Console output and logging throughout; the skip counters are returned but their printing is not modelled.
- Reading the environment: `SyncRun.CiFlag` states how the `CI` value is read, and every other member takes the resulting flag. `str.lower` is modelled on ASCII letters only; no other letter lowers to a character of `true`, `1` or `yes`.
- Field types: record fields are typed (`contextLength: int`, creation times as natural numbers). String, float or `null` values where the code expects numbers or lists are not modelled, nor are the type errors they would raise.
- A `name` key present with the value `null`: the model treats it like a missing name (falling back to the id), whereas Python would put `null` in the labels.
- An id that sanitises to the empty string: the script writes `.yaml`, whose `stem` pathlib reports as `.yaml`, never one of the new stems. Whenever that file already exists, a run reports the record as added, rewrites the file and then deletes it as stale. The model keys the file by the empty stem instead, so `Reconciler.ReconcileConverges` and `Reconciler.ReconcileIdempotent` hold for the model only, not for such an id in the script.
- The first, shadowed definition of `get_existing_models` (scripts/update_models.py:314-321): Python uses the later one, and both compute the same stems.
- The Qiniu SDK (`Auth`, `BucketManager.list`, `put_data`) and the plugin runtime: each remote answer is a parameter, and the credentials are a value.
- The generic `except Exception` branches of both tools' `_invoke` (`系统错误` / `执行失败`): they fire only on type errors in the parameters, which the typed model cannot express.
- A listing body with an `items` value that is not a list, or entries whose field values have other types: the model takes `items` as a list of dictionaries or non-dictionaries with typed fields.
- The missing-key branch of `_upload_to_qiniu` is modelled in `FileUpload.UploadOutcome` but cannot be reached from `FileUpload.Invoke`, because `_validate_bucket_access` rejects the same credentials first.
- `content.encode('utf-8')` and the uploaded bytes: the content is only checked for presence.
