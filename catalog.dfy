/** The marketplace records the model-catalogue sync script receives, and the
    filter in `fetch_models_from_api` that keeps the text chat models usable
    through the OpenAI-compatible protocol. The HTTP request and the JSON
    decoding are not modelled: the decoded response, or the failure, is an
    input. */
module Catalog {
  import opened Wrappers

  /** One decoded record of the listing. A list-valued key the record lacks is
      the empty list, a missing `model_constraints` entry is 0 and a missing
      scalar is `None`. */
  datatype ModelRecord = ModelRecord(
    id: Option<string>,
    name: Option<string>,
    supportApiProtocols: seq<string>,
    inputModalities: seq<string>,    // architecture.input_modalities
    outputModalities: seq<string>,   // architecture.output_modalities
    features: seq<string>,
    contextLength: int,              // model_constraints.context_length
    maxTokens: int,                  // model_constraints.max_tokens
    createdAt: Option<nat>,
    created: Option<nat>,
    creationTime: Option<nat>)

  /** What the marketplace request produced. */
  datatype MarketResponse =
    | RequestFailed                                  // connection error, timeout or HTTP error status
    | Unreadable                                     // any other exception while reading the body
    | Envelope(status: bool, data: seq<ModelRecord>) // `status` is the truthiness of the flag

  /** The value `model_info.get("id", "")`, taken for its truthiness. */
  predicate HasId(m: ModelRecord) {
    m.id.Some? && m.id.value != ""
  }

  /** `m["id"]` for a record that has one. */
  function IdOf(m: ModelRecord): string {
    m.id.GetOr("")
  }

  /** `is_llm_model`: text in and text out. */
  predicate IsLlmModel(m: ModelRecord) {
    "text" in m.inputModalities && "text" in m.outputModalities
  }

  /** The three conditions a record must meet to be published. */
  predicate Usable(m: ModelRecord) {
    HasId(m) && "openai" in m.supportApiProtocols && IsLlmModel(m)
  }

  /** Where the filter loop sends one record, checked in the loop's order. */
  datatype Verdict = NoId | NoOpenai | NotLlm | Kept

  function VerdictOf(m: ModelRecord): Verdict {
    if !HasId(m) then NoId
    else if "openai" !in m.supportApiProtocols then NoOpenai
    else if !IsLlmModel(m) then NotLlm
    else Kept
  }

  /** The records the filter keeps, in their input order. */
  function Retained(raw: seq<ModelRecord>): seq<ModelRecord> {
    if raw == [] then []
    else Retained(raw[..|raw| - 1]) + (if VerdictOf(raw[|raw| - 1]) == Kept then [raw[|raw| - 1]] else [])
  }

  /** How many records of `raw` get verdict `v`. */
  function CountOf(raw: seq<ModelRecord>, v: Verdict): nat {
    if raw == [] then 0
    else CountOf(raw[..|raw| - 1], v) + (if VerdictOf(raw[|raw| - 1]) == v then 1 else 0)
  }

  /** The skip counters the script reports. */
  datatype SkipCounts = SkipCounts(noOpenai: nat, notLlm: nat)

  /** The loop of `fetch_models_from_api` over the decoded records. */
  method FilterModels(rawModels: seq<ModelRecord>) returns (filtered: seq<ModelRecord>, skipped: SkipCounts)
    ensures filtered == Retained(rawModels)
    ensures skipped == SkipCounts(CountOf(rawModels, NoOpenai), CountOf(rawModels, NotLlm))
    ensures |filtered| + skipped.noOpenai + skipped.notLlm + CountOf(rawModels, NoId) == |rawModels|
  {
    filtered := [];
    var noOpenai, notLlm := 0, 0;
    for i := 0 to |rawModels|
      invariant filtered == Retained(rawModels[..i])
      invariant noOpenai == CountOf(rawModels[..i], NoOpenai)
      invariant notLlm == CountOf(rawModels[..i], NotLlm)
    {
      var m := rawModels[i];
      assert rawModels[..i + 1][..i] == rawModels[..i];
      if !HasId(m) {
        continue;
      }
      if "openai" !in m.supportApiProtocols {
        noOpenai := noOpenai + 1;
        continue;
      }
      if !IsLlmModel(m) {
        notLlm := notLlm + 1;
        continue;
      }
      filtered := filtered + [m];
    }
    assert rawModels[..|rawModels|] == rawModels;
    skipped := SkipCounts(noOpenai, notLlm);
    VerdictsPartition(rawModels);
  }

  /** The models `fetch_models_from_api` returns for a response. */
  function Fetched(response: MarketResponse): seq<ModelRecord> {
    if response.Envelope? && response.status then Retained(response.data) else []
  }

  /** `fetch_models_from_api` once the response is in hand: a failed request,
      an unreadable body or a falsy `status` give the empty list, otherwise
      the filtered records. */
  method FetchModels(response: MarketResponse) returns (models: seq<ModelRecord>)
    ensures !(response.Envelope? && response.status) ==> models == []
    ensures response.Envelope? && response.status ==> models == Retained(response.data)
    ensures forall m :: m in models ==> Usable(m)
  {
    if !response.Envelope? {
      return [];
    }
    if !response.status {
      return [];
    }
    var skipped;
    models, skipped := FilterModels(response.data);
    forall m | m in models ensures Usable(m) {
      RetainedIffUsable(response.data, m);
    }
  }

  // ---------------------------------------------------------------------------
  // Properties of the filter

  /** Every record gets exactly one verdict: kept plus the three skip counts is
      the raw count. */
  lemma {:induction false} VerdictsPartition(raw: seq<ModelRecord>)
    ensures |Retained(raw)| + CountOf(raw, NoOpenai) + CountOf(raw, NotLlm) + CountOf(raw, NoId) == |raw|
  {
    if raw != [] {
      VerdictsPartition(raw[..|raw| - 1]);
    }
  }

  /** A record is kept iff it is in the input and has an id, the `openai`
      protocol and text in and out. */
  lemma {:induction false} RetainedIffUsable(raw: seq<ModelRecord>, m: ModelRecord)
    ensures m in Retained(raw) <==> m in raw && Usable(m)
  {
    if raw != [] {
      var init := raw[..|raw| - 1];
      RetainedIffUsable(init, m);
      assert raw == init + [raw[|raw| - 1]];
    }
  }

  /** Filtering distributes over concatenation, so kept records keep their
      relative order. */
  lemma {:induction false} RetainedKeepsOrder(a: seq<ModelRecord>, b: seq<ModelRecord>)
    ensures Retained(a + b) == Retained(a) + Retained(b)
  {
    if b == [] {
      assert a + b == a;
    } else {
      var init := b[..|b| - 1];
      RetainedKeepsOrder(a, init);
      assert (a + b)[..|a + b| - 1] == a + init;
    }
  }
}
