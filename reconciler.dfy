/** `update_model_files`, `get_existing_models` and `update_position_file` of
    the model-catalogue sync script. The descriptor directory is the mutable
    state: a map from file stem (the name without `.yaml`) to what the file
    holds. Writing a file is a map update, `unlink` a key removal. */
module Reconciler {
  import opened Catalog
  import opened Sanitizer
  import opened Descriptors
  import opened Ordering

  /** The stem of the position manifest, never treated as a model. */
  const PositionStem: string := "_position"

  datatype YamlFile = DescriptorFile(descriptor: Descriptor) | PositionFile(order: seq<string>)

  /** Every record has an `id` key (`m["id"]` raises otherwise); the filter
      guarantees it. */
  predicate AllHaveIds(models: seq<ModelRecord>) {
    forall i :: 0 <= i < |models| ==> models[i].id.Some?
  }

  predicate NoDuplicates(s: seq<string>) {
    forall i, j :: 0 <= i < j < |s| ==> s[i] != s[j]
  }

  /** `new_model_filenames`: the stems of all records. */
  function NewStems(models: seq<ModelRecord>): set<string> {
    set m | m in models :: Stem(m)
  }

  /** `set(sanitize_filename(m["id"]) for m in models)`. */
  method NewModelFilenames(models: seq<ModelRecord>) returns (names: set<string>)
    requires AllHaveIds(models)
    ensures names == NewStems(models)
  {
    names := {};
    for i := 0 to |models|
      invariant names == NewStems(models[..i])
    {
      NewStemsSnoc(models[..i], models[i]);
      assert models[..i + 1] == models[..i] + [models[i]];
      var stem := SanitizeFilename(models[i].id.value);
      names := names + {stem};
    }
    assert models[..|models|] == models;
  }

  /** The descriptor files the first loop writes; a later record with the same
      stem overwrites an earlier one. */
  function Published(models: seq<ModelRecord>): map<string, YamlFile> {
    if models == [] then map[]
    else
      var last := models[|models| - 1];
      Published(models[..|models| - 1])[Stem(last) := DescriptorFile(DescriptorOf(last))]
  }

  /** The ids reported as added: records whose stem was not an existing stem. */
  function AddedIds(models: seq<ModelRecord>, existing: set<string>): seq<string> {
    if models == [] then []
    else
      var last := models[|models| - 1];
      AddedIds(models[..|models| - 1], existing) + (if Stem(last) !in existing then [IdOf(last)] else [])
  }

  /** The ids reported as updated: records whose stem was an existing stem. */
  function UpdatedIds(models: seq<ModelRecord>, existing: set<string>): seq<string> {
    if models == [] then []
    else
      var last := models[|models| - 1];
      UpdatedIds(models[..|models| - 1], existing) + (if Stem(last) in existing then [IdOf(last)] else [])
  }

  /** The warnings building every descriptor records, in record order. */
  function AllMissingWarnings(models: seq<ModelRecord>, isCi: bool): seq<Warning> {
    if models == [] then []
    else AllMissingWarnings(models[..|models| - 1], isCi) + MissingWarnings(models[|models| - 1], isCi)
  }

  /** The directory after `update_model_files`: the position manifest as it
      was, and exactly the published descriptors besides. */
  function Reconciled(files: map<string, YamlFile>, models: seq<ModelRecord>): map<string, YamlFile> {
    (map s | s in files && s == PositionStem :: files[s]) + Published(models)
  }

  class ModelDirectory {
    /** Every `*.yaml` file of the directory, by stem. */
    var files: map<string, YamlFile>

    constructor (initial: map<string, YamlFile>)
      ensures files == initial
    {
      files := initial;
    }

    /** `get_existing_models`: every stem except the position manifest's. */
    function ExistingModels(): (stems: set<string>)
      reads this
      ensures PositionStem !in stems
      ensures forall s :: s in files && s != PositionStem ==> s in stems
      ensures stems <= files.Keys
    {
      files.Keys - {PositionStem}
    }

    /** `update_model_files`: write a descriptor for every record, classifying
        it as added or updated against the stems present beforehand, then
        delete every existing stem that no record produced. The deletion loop
        walks a Python set, so `removed` may come in any order. */
    method UpdateModelFiles(models: seq<ModelRecord>, isCi: bool, warnings: seq<Warning>)
      returns (added: seq<string>, updated: seq<string>, removed: seq<string>, warnings': seq<Warning>)
      requires AllHaveIds(models)
      modifies this
      ensures files == Reconciled(old(files), models)
      ensures added == AddedIds(models, old(ExistingModels()))
      ensures updated == UpdatedIds(models, old(ExistingModels()))
      ensures forall s :: s in removed <==> s in old(ExistingModels()) && s !in NewStems(models)
      ensures NoDuplicates(removed)
      ensures warnings' == warnings + AllMissingWarnings(models, isCi)
    {
      var existing := ExistingModels();
      ghost var before := files;
      var newNames := NewModelFilenames(models);

      added, updated, warnings' := PublishAll(models, existing, isCi, warnings);
      removed := RemoveStale(existing, newNames);
      PublishedKeys(models);
      ReconciledAfterRemoval(before, models);
    }

    /** The writing loop: one descriptor per record, each classified against
        the stems `existing` held before the loop. */
    method PublishAll(models: seq<ModelRecord>, existing: set<string>, isCi: bool, warnings: seq<Warning>)
      returns (added: seq<string>, updated: seq<string>, warnings': seq<Warning>)
      requires AllHaveIds(models)
      modifies this
      ensures files == old(files) + Published(models)
      ensures added == AddedIds(models, existing)
      ensures updated == UpdatedIds(models, existing)
      ensures warnings' == warnings + AllMissingWarnings(models, isCi)
    {
      added, updated, warnings' := [], [], warnings;
      for i := 0 to |models|
        invariant files == old(files) + Published(models[..i])
        invariant added == AddedIds(models[..i], existing)
        invariant updated == UpdatedIds(models[..i], existing)
        invariant warnings' == warnings + AllMissingWarnings(models[..i], isCi)
      {
        var m := models[i];
        PrefixStep(old(files), models, i, existing, isCi, warnings);
        var modelId := m.id.value;
        var filename := SanitizeFilename(modelId);
        assert filename == Stem(m);
        var config;
        config, warnings' := GenerateModelYaml(m, isCi, warnings');
        if filename !in existing {
          added := added + [modelId];
        } else {
          updated := updated + [modelId];
        }
        files := files[filename := DescriptorFile(config)];
      }
      assert models[..|models|] == models;
    }

    /** The deletion loop: every stem of `existing` outside `keep` is unlinked
        and reported, in the order the set is walked. */
    method RemoveStale(existing: set<string>, keep: set<string>) returns (removed: seq<string>)
      modifies this
      ensures files == old(files) - (existing - keep)
      ensures forall s :: s in removed <==> s in existing && s !in keep
      ensures NoDuplicates(removed)
    {
      removed := [];
      var pending := existing;
      while pending != {}
        invariant pending <= existing
        invariant files == old(files) - ((existing - pending) - keep)
        invariant forall s :: s in removed <==> s in existing - pending && s !in keep
        invariant NoDuplicates(removed)
        decreases pending
      {
        var stem :| stem in pending;
        if stem !in keep {
          files := files - {stem};
          removed := removed + [stem];
        }
        pending := pending - {stem};
      }
    }

    /** `update_position_file`: the manifest is rewritten with the stems in
        position order; nothing else changes. */
    method UpdatePositionFile(models: seq<ModelRecord>)
      requires AllHaveIds(models)
      modifies this
      ensures files == old(files)[PositionStem := PositionFile(PositionOrder(models))]
    {
      var ordered := if HasTimestamp(models) then NewestFirst(models) else models;
      var stems: seq<string> := [];
      for i := 0 to |ordered|
        invariant files == old(files)
        invariant |stems| == i
        invariant forall k :: 0 <= k < i ==> stems[k] == Stem(ordered[k])
      {
        var stem := SanitizeFilename(ordered[i].id.GetOr(""));
        stems := stems + [stem];
      }
      assert stems == Stems(ordered);
      assert ordered == PositionModels(models);
      files := files[PositionStem := PositionFile(stems)];
    }
  }

  // ---------------------------------------------------------------------------
  // Properties of the reconciliation

  /** What one more iteration of the writing loop adds to each accumulator. */
  lemma PrefixStep(before: map<string, YamlFile>, models: seq<ModelRecord>, i: nat,
                   existing: set<string>, isCi: bool, warnings: seq<Warning>)
    requires i < |models|
    ensures var m := models[i];
            && before + Published(models[..i + 1])
               == (before + Published(models[..i]))[Stem(m) := DescriptorFile(DescriptorOf(m))]
            && AddedIds(models[..i + 1], existing)
               == AddedIds(models[..i], existing) + (if Stem(m) !in existing then [IdOf(m)] else [])
            && UpdatedIds(models[..i + 1], existing)
               == UpdatedIds(models[..i], existing) + (if Stem(m) in existing then [IdOf(m)] else [])
            && warnings + AllMissingWarnings(models[..i + 1], isCi)
               == (warnings + AllMissingWarnings(models[..i], isCi)) + MissingWarnings(m, isCi)
  {
    var m := models[i];
    assert models[..i + 1][..i] == models[..i];
    PublishedStep(before, models[..i], models[..i + 1], m);
    WarningsStep(warnings, AllMissingWarnings(models[..i], isCi), MissingWarnings(m, isCi));
  }

  lemma PublishedStep(before: map<string, YamlFile>, init: seq<ModelRecord>, models: seq<ModelRecord>, m: ModelRecord)
    requires models != [] && models[..|models| - 1] == init && models[|models| - 1] == m
    ensures before + Published(models) == (before + Published(init))[Stem(m) := DescriptorFile(DescriptorOf(m))]
  {
  }

  lemma WarningsStep(w: seq<Warning>, a: seq<Warning>, b: seq<Warning>)
    ensures w + (a + b) == (w + a) + b
  {
  }

  lemma NewStemsSnoc(init: seq<ModelRecord>, last: ModelRecord)
    ensures NewStems(init + [last]) == NewStems(init) + {Stem(last)}
  {
  }

  lemma {:induction false} PublishedKeys(models: seq<ModelRecord>)
    ensures Published(models).Keys == NewStems(models)
  {
    if models != [] {
      var init := models[..|models| - 1];
      PublishedKeys(init);
      assert models == init + [models[|models| - 1]];
      NewStemsSnoc(init, models[|models| - 1]);
    }
  }

  /** Writing every descriptor over the old directory and then deleting the
      stale model stems leaves exactly `Reconciled`. */
  lemma ReconciledAfterRemoval(before: map<string, YamlFile>, models: seq<ModelRecord>)
    requires Published(models).Keys == NewStems(models)
    ensures (before + Published(models)) - ((before.Keys - {PositionStem}) - NewStems(models))
         == Reconciled(before, models)
  {
  }

  /** The file for a stem holds the descriptor of the last record with that stem. */
  lemma {:induction false} PublishedHoldsLastDescriptor(models: seq<ModelRecord>, i: int)
    requires 0 <= i < |models|
    requires forall j :: i < j < |models| ==> Stem(models[j]) != Stem(models[i])
    ensures Stem(models[i]) in Published(models)
    ensures Published(models)[Stem(models[i])] == DescriptorFile(DescriptorOf(models[i]))
  {
    if i < |models| - 1 {
      PublishedHoldsLastDescriptor(models[..|models| - 1], i);
    }
  }

  /** After the run the model stems are exactly the stems of the records, every
      record's stem holds a descriptor, and the position manifest is never
      deleted. */
  lemma ReconcileConverges(files: map<string, YamlFile>, models: seq<ModelRecord>)
    ensures Reconciled(files, models).Keys - {PositionStem} == NewStems(models) - {PositionStem}
    ensures forall s :: s in NewStems(models) ==> s in Reconciled(files, models) && Reconciled(files, models)[s].DescriptorFile?
    ensures PositionStem in files ==> PositionStem in Reconciled(files, models)
    ensures PositionStem in files && PositionStem !in NewStems(models) ==>
              Reconciled(files, models)[PositionStem] == files[PositionStem]
  {
    PublishedKeys(models);
    forall s | s in NewStems(models) ensures Published(models)[s].DescriptorFile? {
      PublishedAreDescriptors(models, s);
    }
  }

  lemma {:induction false} PublishedAreDescriptors(models: seq<ModelRecord>, s: string)
    requires s in Published(models)
    ensures Published(models)[s].DescriptorFile?
  {
    if models != [] && s != Stem(models[|models| - 1]) {
      PublishedAreDescriptors(models[..|models| - 1], s);
    }
  }

  /** Every record is reported exactly once, as added or as updated. */
  lemma {:induction false} ClassificationCounts(models: seq<ModelRecord>, existing: set<string>)
    ensures |AddedIds(models, existing)| + |UpdatedIds(models, existing)| == |models|
  {
    if models != [] {
      ClassificationCounts(models[..|models| - 1], existing);
    }
  }

  /** Together the two reports hold each record's id exactly as often as the
      records do. */
  lemma {:induction false} ClassificationIsPartition(models: seq<ModelRecord>, existing: set<string>)
    ensures multiset(AddedIds(models, existing) + UpdatedIds(models, existing)) == multiset(MapSeq(models, IdOf))
  {
    if models != [] {
      var init := models[..|models| - 1];
      var last := models[|models| - 1];
      ClassificationIsPartition(init, existing);
      IdsSnoc(models);
      var a, u, x := AddedIds(init, existing), UpdatedIds(init, existing), IdOf(last);
      assert multiset(AddedIds(models, existing) + UpdatedIds(models, existing))
          == multiset(a + u) + multiset{x} by {
        if Stem(last) !in existing {
          assert AddedIds(models, existing) == a + [x];
          assert UpdatedIds(models, existing) == u;
        } else {
          assert AddedIds(models, existing) == a;
          assert UpdatedIds(models, existing) == u + [x];
        }
      }
    }
  }

  lemma IdsSnoc(models: seq<ModelRecord>)
    requires models != []
    ensures multiset(MapSeq(models, IdOf))
         == multiset(MapSeq(models[..|models| - 1], IdOf)) + multiset{IdOf(models[|models| - 1])}
  {
    var init, last := models[..|models| - 1], models[|models| - 1];
    assert models == init + [last];
    MapConcat(init, [last], IdOf);
    assert MapSeq([last], IdOf) == [IdOf(last)];
  }

  /** A record is reported as added iff its stem was not an existing stem. */
  lemma {:induction false} AddedIffNewStem(models: seq<ModelRecord>, existing: set<string>, x: string)
    ensures x in AddedIds(models, existing) <==> x in MapSeq(models, IdOf) && Sanitize(x) !in existing
  {
    if models != [] {
      var init := models[..|models| - 1];
      var last := models[|models| - 1];
      AddedIffNewStem(init, existing, x);
      assert models == init + [last];
      MapConcat(init, [last], IdOf);
      assert MapSeq([last], IdOf) == [IdOf(last)];
    }
  }

  /** A record is reported as updated iff its stem was an existing stem. */
  lemma {:induction false} UpdatedIffExistingStem(models: seq<ModelRecord>, existing: set<string>, x: string)
    ensures x in UpdatedIds(models, existing) <==> x in MapSeq(models, IdOf) && Sanitize(x) in existing
  {
    if models != [] {
      var init := models[..|models| - 1];
      var last := models[|models| - 1];
      UpdatedIffExistingStem(init, existing, x);
      assert models == init + [last];
      MapConcat(init, [last], IdOf);
      assert MapSeq([last], IdOf) == [IdOf(last)];
    }
  }

  /** Running the reconciliation again on its own result with the same records
      leaves the directory as it is and deletes nothing. */
  lemma ReconcileIdempotent(files: map<string, YamlFile>, models: seq<ModelRecord>)
    ensures var after := Reconciled(files, models);
            && Reconciled(after, models) == after
            && (after.Keys - {PositionStem}) - NewStems(models) == {}
  {
    ReconcileConverges(files, models);
  }

  /** On a rerun every record is reported as updated, except one whose stem is
      the position manifest's own. */
  lemma RerunReportsUpdates(files: map<string, YamlFile>, models: seq<ModelRecord>, x: string)
    requires x in AddedIds(models, Reconciled(files, models).Keys - {PositionStem})
    ensures Sanitize(x) == PositionStem
  {
    var existing := Reconciled(files, models).Keys - {PositionStem};
    ReconcileConverges(files, models);
    AddedIffNewStem(models, existing, x);
    var i :| 0 <= i < |models| && MapSeq(models, IdOf)[i] == x;
    assert Stem(models[i]) in NewStems(models);
  }
}
