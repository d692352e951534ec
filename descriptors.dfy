/** The descriptor builder of the model-catalogue sync script:
    `get_model_features`, `get_model_context_size`, `get_model_max_tokens` and
    `generate_model_yaml`. The module-level warning list the script appends to
    in CI mode is an explicit accumulator here, threaded through every call,
    and the CI flag is a parameter. YAML serialisation is not modelled: a
    descriptor is a value. */
module Descriptors {
  import opened Wrappers
  import opened Catalog

  const ToolCall: string := "tool-call"
  const StreamToolCall: string := "stream-tool-call"
  const Vision: string := "vision"

  const DefaultContextSize: int := 65536
  const DefaultMaxTokens: int := 4096

  /** `feature_mapping`: the API features the script knows. */
  function MapFeature(apiFeature: string): Option<string> {
    if apiFeature == "tools" then Some(ToolCall)
    else if apiFeature == "vision" then Some(Vision)
    else None
  }

  /** The mapped features, in the order the API lists them. */
  function MappedFeatures(api: seq<string>): seq<string> {
    if api == [] then []
    else
      var last := MapFeature(api[|api| - 1]);
      MappedFeatures(api[..|api| - 1]) + (if last.Some? then [last.value] else [])
  }

  /** The feature list of a descriptor, for the record's `features` field. */
  function Features(api: seq<string>): seq<string> {
    var mapped := MappedFeatures(api);
    var withStream := if ToolCall in mapped then mapped + [StreamToolCall] else mapped;
    if withStream == [] then [ToolCall, StreamToolCall] else withStream
  }

  /** `get_model_features`: collect the mapped features, add `stream-tool-call`
      after a `tool-call`, and fall back to both tool features when nothing
      mapped. */
  method GetModelFeatures(m: ModelRecord) returns (features: seq<string>)
    ensures features == Features(m.features)
  {
    features := [];
    var api := m.features;
    for i := 0 to |api|
      invariant features == MappedFeatures(api[..i])
    {
      assert api[..i + 1][..i] == api[..i];
      var mapped := MapFeature(api[i]);
      if mapped.Some? {
        features := features + [mapped.value];
      }
    }
    assert api[..|api|] == api;
    if ToolCall in features {
      features := features + [StreamToolCall];
    }
    if features == [] {
      features := [ToolCall, StreamToolCall];
    }
  }

  // ---------------------------------------------------------------------------
  // Defaults and data-quality warnings

  datatype Field = ContextLength | MaxTokens

  function FieldName(field: Field): string {
    if field == ContextLength then "context_length" else "max_tokens"
  }

  /** The part of a warning's text after the model id. */
  function FieldSuffix(field: Field): string {
    " 缺少 " + FieldName(field) + " 字段"
  }

  /** One entry of `models_with_missing_fields`, kept as the id and the field
      its text names. */
  datatype Warning = MissingField(modelId: string, field: Field) {
    /** The text the script records. */
    function Message(): string {
      "模型 " + modelId + FieldSuffix(field)
    }
  }

  /** Different warnings have different texts, so keeping the id and the field
      instead of the text loses nothing. */
  lemma MessageInjective(w1: Warning, w2: Warning)
    requires w1.Message() == w2.Message()
    ensures w1 == w2
  {
    var m := w1.Message();
    FourthFromEnd("模型 " + w1.modelId, FieldSuffix(w1.field));
    FourthFromEnd("模型 " + w2.modelId, FieldSuffix(w2.field));
    assert FieldSuffix(ContextLength)[|FieldSuffix(ContextLength)| - 4] == 'h';
    assert FieldSuffix(MaxTokens)[|FieldSuffix(MaxTokens)| - 4] == 's';
    ConcatCancel("模型 ", w1.modelId, w2.modelId, FieldSuffix(w1.field));
  }

  lemma FourthFromEnd(a: string, b: string)
    requires |b| >= 4
    ensures (a + b)[|a + b| - 4] == b[|b| - 4]
  {
  }

  /** A middle part is determined by the whole and the two ends around it. */
  lemma ConcatCancel(p: string, a: string, b: string, q: string)
    requires p + a + q == p + b + q
    ensures a == b
  {
    assert |a| == |b|;
    assert a == (p + a + q)[|p|..|p| + |a|];
    assert b == (p + b + q)[|p|..|p| + |b|];
  }

  /** `model_info.get("id", "unknown")`, the id a warning names. */
  function WarningId(m: ModelRecord): string {
    m.id.GetOr("unknown")
  }

  /** The context size a descriptor gets. */
  function ContextSize(m: ModelRecord): (size: int)
    ensures size > 0
    ensures size == m.contextLength <==> m.contextLength > 0
    ensures m.contextLength <= 0 ==> size == DefaultContextSize
  {
    if m.contextLength > 0 then m.contextLength else DefaultContextSize
  }

  /** The maximum output tokens a descriptor gets. */
  function MaxTokensOf(m: ModelRecord): (tokens: int)
    ensures tokens > 0
    ensures tokens == m.maxTokens <==> m.maxTokens > 0
    ensures m.maxTokens <= 0 ==> tokens == DefaultMaxTokens
  {
    if m.maxTokens > 0 then m.maxTokens else DefaultMaxTokens
  }

  /** The warning recorded for one field: only in CI mode and only when the
      field had to be defaulted. */
  function FieldWarning(m: ModelRecord, field: Field, isCi: bool): seq<Warning> {
    var value := if field == ContextLength then m.contextLength else m.maxTokens;
    if isCi && value <= 0 then [MissingField(WarningId(m), field)] else []
  }

  /** `get_model_context_size`: the constraint when positive, otherwise 65536
      and, in CI mode, a warning appended to the accumulator. */
  method GetModelContextSize(m: ModelRecord, isCi: bool, warnings: seq<Warning>)
    returns (size: int, warnings': seq<Warning>)
    ensures size > 0
    ensures size == (if m.contextLength > 0 then m.contextLength else DefaultContextSize)
    ensures warnings' == warnings + FieldWarning(m, ContextLength, isCi)
    ensures |warnings'| <= |warnings| + 1
    ensures |warnings'| == |warnings| + 1 <==> isCi && m.contextLength <= 0
  {
    if m.contextLength > 0 {
      return m.contextLength, warnings;
    }
    warnings' := warnings;
    if isCi {
      warnings' := warnings' + [MissingField(WarningId(m), ContextLength)];
    }
    size := DefaultContextSize;
  }

  /** `get_model_max_tokens`: the constraint when positive, otherwise 4096 and,
      in CI mode, a warning appended to the accumulator. */
  method GetModelMaxTokens(m: ModelRecord, isCi: bool, warnings: seq<Warning>)
    returns (tokens: int, warnings': seq<Warning>)
    ensures tokens > 0
    ensures tokens == (if m.maxTokens > 0 then m.maxTokens else DefaultMaxTokens)
    ensures warnings' == warnings + FieldWarning(m, MaxTokens, isCi)
    ensures |warnings'| <= |warnings| + 1
    ensures |warnings'| == |warnings| + 1 <==> isCi && m.maxTokens <= 0
  {
    if m.maxTokens > 0 {
      return m.maxTokens, warnings;
    }
    warnings' := warnings;
    if isCi {
      warnings' := warnings' + [MissingField(WarningId(m), MaxTokens)];
    }
    tokens := DefaultMaxTokens;
  }

  /** The warnings building one descriptor records, context size first. */
  function MissingWarnings(m: ModelRecord, isCi: bool): seq<Warning> {
    FieldWarning(m, ContextLength, isCi) + FieldWarning(m, MaxTokens, isCi)
  }

  // ---------------------------------------------------------------------------
  // The descriptor

  datatype Label = Label(zhHans: string, enUS: string)
  datatype ModelProperties = ModelProperties(mode: string, contextSize: int, maxTokens: int)
  datatype ParameterRule = ParameterRule(name: string, useTemplate: string)

  /** The configuration written to `<stem>.yaml`. */
  datatype Descriptor = Descriptor(
    model: string,
    labels: Label,
    modelType: string,
    features: seq<string>,
    modelProperties: ModelProperties,
    parameterRules: seq<ParameterRule>)

  const ParameterRules: seq<ParameterRule> := [
    ParameterRule("temperature", "temperature"),
    ParameterRule("top_p", "top_p"),
    ParameterRule("max_tokens", "max_tokens")
  ]

  /** The descriptor `generate_model_yaml` builds for a record. */
  function DescriptorOf(m: ModelRecord): Descriptor {
    var modelId := m.id.GetOr("");
    var modelName := m.name.GetOr(modelId);
    Descriptor(modelId, Label(modelName, modelName), "llm", Features(m.features),
               ModelProperties("chat", ContextSize(m), MaxTokensOf(m)), ParameterRules)
  }

  /** `generate_model_yaml`: features, then context size, then max tokens,
      each default recorded as the getters do. */
  method GenerateModelYaml(m: ModelRecord, isCi: bool, warnings: seq<Warning>)
    returns (config: Descriptor, warnings': seq<Warning>)
    ensures config == DescriptorOf(m)
    ensures config.model == m.id.GetOr("")
    ensures config.labels.zhHans == config.labels.enUS == m.name.GetOr(config.model)
    ensures config.modelType == "llm" && config.modelProperties.mode == "chat"
    ensures config.modelProperties.contextSize > 0 && config.modelProperties.maxTokens > 0
    ensures |config.parameterRules| == 3
    ensures config.parameterRules[0].name == "temperature"
    ensures config.parameterRules[1].name == "top_p"
    ensures config.parameterRules[2].name == "max_tokens"
    ensures forall r :: r in config.parameterRules ==> r.name == r.useTemplate
    ensures warnings' == warnings + MissingWarnings(m, isCi)
  {
    var modelId := m.id.GetOr("");
    var modelName := m.name.GetOr(modelId);
    var features := GetModelFeatures(m);
    var contextSize, maxTokens;
    contextSize, warnings' := GetModelContextSize(m, isCi, warnings);
    maxTokens, warnings' := GetModelMaxTokens(m, isCi, warnings');
    config := Descriptor(modelId, Label(modelName, modelName), "llm", features,
                         ModelProperties("chat", contextSize, maxTokens), ParameterRules);
  }

  // ---------------------------------------------------------------------------
  // Properties of the feature list

  /** The mapped features are exactly the known API features, translated. */
  lemma {:induction false} MappedFeaturesFromApi(api: seq<string>)
    ensures forall f :: f in MappedFeatures(api) ==> f == ToolCall || f == Vision
    ensures ToolCall in MappedFeatures(api) <==> "tools" in api
    ensures Vision in MappedFeatures(api) <==> "vision" in api
    ensures MappedFeatures(api) == [] <==> "tools" !in api && "vision" !in api
  {
    if api != [] {
      var init := api[..|api| - 1];
      MappedFeaturesFromApi(init);
      assert api == init + [api[|api| - 1]];
    }
  }

  /** The feature list is never empty, uses only the three descriptor
      features, and has `stream-tool-call` iff it has `tool-call`. */
  lemma FeaturesWellFormed(api: seq<string>)
    ensures Features(api) != []
    ensures forall f :: f in Features(api) ==> f == ToolCall || f == StreamToolCall || f == Vision
    ensures StreamToolCall in Features(api) <==> ToolCall in Features(api)
  {
    MappedFeaturesFromApi(api);
    assert StreamToolCall != ToolCall && StreamToolCall != Vision;
  }

  /** Which descriptor features a record gets: `vision` iff the API lists it,
      `tool-call` iff the API lists `tools` or nothing known at all, and both
      tool features alone when no known feature is listed. */
  lemma FeaturesFromApi(api: seq<string>)
    ensures Vision in Features(api) <==> "vision" in api
    ensures ToolCall in Features(api) <==> "tools" in api || "vision" !in api
    ensures "tools" !in api && "vision" !in api ==> Features(api) == [ToolCall, StreamToolCall]
  {
    MappedFeaturesFromApi(api);
    assert StreamToolCall != ToolCall && StreamToolCall != Vision && ToolCall != Vision;
  }

  lemma {:induction false} MappedFeaturesAppend(a: seq<string>, b: seq<string>)
    ensures MappedFeatures(a + b) == MappedFeatures(a) + MappedFeatures(b)
  {
    if b == [] {
      assert a + b == a;
    } else {
      var init, last := b[..|b| - 1], MapFeature(b[|b| - 1]);
      var tail := if last.Some? then [last.value] else [];
      MappedFeaturesAppend(a, init);
      assert (a + b)[..|a + b| - 1] == a + init;
      assert (a + b)[|a + b| - 1] == b[|b| - 1];
      assert MappedFeatures(a + b) == MappedFeatures(a + init) + tail;
      assert MappedFeatures(b) == MappedFeatures(init) + tail;
    }
  }

  /** An API feature the mapping does not know changes nothing. */
  lemma UnknownFeatureIgnored(a: seq<string>, x: string, b: seq<string>)
    requires MapFeature(x).None?
    ensures Features(a + [x] + b) == Features(a + b)
  {
    assert MappedFeatures([x]) == [] by {
      assert [x][..0] == [];
    }
    calc {
      MappedFeatures(a + [x] + b);
      { MappedFeaturesAppend(a + [x], b); }
      MappedFeatures(a + [x]) + MappedFeatures(b);
      { MappedFeaturesAppend(a, [x]); }
      MappedFeatures(a) + MappedFeatures(b);
      { MappedFeaturesAppend(a, b); }
      MappedFeatures(a + b);
    }
  }

  // ---------------------------------------------------------------------------
  // Properties of the warnings

  /** A descriptor records at most one warning per defaulted field, none
      outside CI mode, and each names the record's id. */
  lemma MissingWarningsCharacterised(m: ModelRecord, isCi: bool)
    ensures |MissingWarnings(m, isCi)| <= 2
    ensures MissingWarnings(m, isCi) != [] <==> isCi && (m.contextLength <= 0 || m.maxTokens <= 0)
    ensures forall w :: w in MissingWarnings(m, isCi) ==> w.modelId == WarningId(m)
    ensures MissingField(WarningId(m), ContextLength) in MissingWarnings(m, isCi) <==> isCi && m.contextLength <= 0
    ensures MissingField(WarningId(m), MaxTokens) in MissingWarnings(m, isCi) <==> isCi && m.maxTokens <= 0
  {
  }
}
