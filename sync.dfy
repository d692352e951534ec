/** `main` of the model-catalogue sync script: fetch, reconcile the descriptor
    directory, rewrite the position manifest and pick the exit status. The CI
    switch comes from the `CI` environment variable, read once at start-up. */
module SyncRun {
  import opened Wrappers
  import opened Catalog
  import opened Descriptors
  import opened Ordering
  import opened Reconciler

  /** ASCII lower-casing. Python's `str.lower` also folds other letters, but
      none of them folds to a character of "true", "1" or "yes". */
  function LowerChar(c: char): char {
    if 'A' <= c <= 'Z' then c - 'A' + 'a' else c
  }

  function Lower(s: string): string {
    seq(|s|, i requires 0 <= i < |s| => LowerChar(s[i]))
  }

  /** `IS_CI`: the variable, defaulting to the empty string, lower-cased, is
      one of the three accepted spellings. */
  predicate CiFlag(env: Option<string>) {
    Lower(env.GetOr("")) in {"true", "1", "yes"}
  }

  /** Any capitalisation of an accepted spelling switches CI mode on. */
  lemma CiFlagAccepts()
    ensures CiFlag(Some("TRUE")) && CiFlag(Some("Yes")) && CiFlag(Some("1"))
  {
    assert Lower("TRUE") == "true";
    assert Lower("Yes") == "yes";
    assert Lower("1") == "1";
  }

  /** An unset variable and other values leave it off. */
  lemma CiFlagRejects()
    ensures !CiFlag(None) && !CiFlag(Some("0")) && !CiFlag(Some("false"))
  {
    assert Lower("") == "";
    assert Lower("0") == "0";
  }

  /** The flag ignores case: lower-casing the value first changes nothing. */
  lemma CiFlagIgnoresCase(s: string)
    ensures CiFlag(Some(Lower(s))) == CiFlag(Some(s))
  {
    assert Lower(Lower(s)) == Lower(s);
  }

  /** The exit status `main` picks once both files are written: 1 when CI
      mode collected warnings, otherwise 0 exactly when something changed. */
  function ExitCode(isCi: bool, warnings: seq<Warning>, added: seq<string>, updated: seq<string>, removed: seq<string>): (code: int)
    ensures code == 0 || code == 1
    ensures isCi && warnings != [] ==> code == 1
    ensures !(isCi && warnings != []) ==> (code == 0 <==> |added| + |updated| + |removed| > 0)
  {
    if isCi && warnings != [] then 1
    else if added != [] || updated != [] || removed != [] then 0
    else 1
  }

  /** The whole run against the directory. An empty model list (a failed or
      unreadable request, a falsy `status`, or nothing surviving the filter)
      exits 1 before any file is touched. Otherwise the directory is
      reconciled, the manifest rewritten, and the status is 1 exactly when CI
      mode collected warnings: every record is reported as added or updated,
      so a non-empty list always counts as a change. */
  method RunUpdate(response: MarketResponse, isCi: bool, dir: ModelDirectory) returns (exitCode: int)
    modifies dir
    ensures Fetched(response) == [] ==> exitCode == 1 && dir.files == old(dir.files)
    ensures Fetched(response) != [] ==>
              dir.files == Reconciled(old(dir.files), Fetched(response))
                             [PositionStem := PositionFile(PositionOrder(Fetched(response)))]
    ensures Fetched(response) != [] ==>
              exitCode == (if isCi && AllMissingWarnings(Fetched(response), isCi) != [] then 1 else 0)
  {
    var models := FetchModels(response);
    if |models| == 0 {
      return 1;
    }
    forall i | 0 <= i < |models| ensures models[i].id.Some? {
      assert Usable(models[i]);
    }
    ghost var existing := dir.ExistingModels();
    var added, updated, removed, warnings := dir.UpdateModelFiles(models, isCi, []);
    dir.UpdatePositionFile(models);
    ClassificationCounts(models, existing);
    exitCode := ExitCode(isCi, warnings, added, updated, removed);
  }

  /** The CI gate fires exactly when CI mode is on and some published record
      lacks a positive context length or a positive output limit. */
  lemma {:induction false} CiGateIff(models: seq<ModelRecord>, isCi: bool)
    ensures AllMissingWarnings(models, isCi) != [] <==>
              isCi && exists i :: 0 <= i < |models| && (models[i].contextLength <= 0 || models[i].maxTokens <= 0)
  {
    if models != [] {
      var init, last := models[..|models| - 1], models[|models| - 1];
      CiGateIff(init, isCi);
      MissingWarningsCharacterised(last, isCi);
      if isCi && exists i :: 0 <= i < |init| && (init[i].contextLength <= 0 || init[i].maxTokens <= 0) {
        var i :| 0 <= i < |init| && (init[i].contextLength <= 0 || init[i].maxTokens <= 0);
        assert models[i] == init[i];
      }
    }
  }

  /** Outside CI mode a run that fetched any model always exits 0. */
  lemma OutsideCiSucceeds(models: seq<ModelRecord>, existing: set<string>, removed: seq<string>, warnings: seq<Warning>)
    requires models != []
    ensures ExitCode(false, warnings, AddedIds(models, existing), UpdatedIds(models, existing), removed) == 0
  {
    ClassificationCounts(models, existing);
  }
}
