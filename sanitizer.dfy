/** `sanitize_filename` of the model-catalogue sync script: the file stem under
    which a model's descriptor is stored. Each of `/`, `:`, space and `@` becomes
    a hyphen, every run of hyphens is reduced to one (the script repeats
    `replace("--", "-")` until no `--` is left) and leading and trailing hyphens
    are stripped. */
module Sanitizer {
  import opened PyText

  const Hyphen: char := '-'

  /** The characters that are replaced by a hyphen. */
  const Unsafe: set<char> := {'/', ':', ' ', '@'}

  /** Python's `s.replace(a, b)` for a single character `a`. */
  function ReplaceChar(s: string, a: char, b: char): string {
    seq(|s|, k requires 0 <= k < |s| => if s[k] == a then b else s[k])
  }

  /** Python's `s.replace("--", "-")`: scans left to right and replaces
      non-overlapping occurrences, so `"---"` becomes `"--"`. */
  function ReplaceDoubles(s: string): string {
    if |s| >= 2 && s[0] == Hyphen && s[1] == Hyphen then [Hyphen] + ReplaceDoubles(s[2..])
    else if s == [] then []
    else [s[0]] + ReplaceDoubles(s[1..])
  }

  /** Python's `"--" in s`. */
  predicate ContainsDouble(s: string) {
    |s| >= 2 && ((s[0] == Hyphen && s[1] == Hyphen) || ContainsDouble(s[1..]))
  }

  predicate DoubleAt(s: string, k: int) {
    0 <= k && k + 1 < |s| && s[k] == Hyphen && s[k + 1] == Hyphen
  }

  // ---------------------------------------------------------------------------
  // Reference definition

  function SafeChar(c: char): char {
    if c in Unsafe then Hyphen else c
  }

  /** Every unsafe character replaced by a hyphen. */
  function Hyphenate(s: string): string {
    seq(|s|, k requires 0 <= k < |s| => SafeChar(s[k]))
  }

  /** `c` put in front of an already collapsed `t`, merging two hyphens. */
  function Push(c: char, t: string): string {
    if c == Hyphen && |t| > 0 && t[0] == Hyphen then t else [c] + t
  }

  /** `s` with every run of hyphens reduced to a single hyphen. */
  function Collapse(s: string): string {
    if s == [] then [] else Push(s[0], Collapse(s[1..]))
  }

  /** The stem `sanitize_filename` computes, defined without the loop. */
  function Sanitize(modelId: string): string {
    Strip(Collapse(Hyphenate(modelId)), {Hyphen})
  }

  // ---------------------------------------------------------------------------
  // The script's procedure, proved to compute the reference definition

  /** `sanitize_filename(model_id)` as written: four single-character
      replacements, the `while "--" in filename` loop, then `strip("-")`. */
  method SanitizeFilename(modelId: string) returns (filename: string)
    ensures filename == Sanitize(modelId)
  {
    filename := ReplaceChar(ReplaceChar(ReplaceChar(ReplaceChar(modelId, '/', '-'), ':', '-'), ' ', '-'), '@', '-');
    ReplaceChainHyphenates(modelId);
    ghost var hyphenated := filename;
    while ContainsDouble(filename)
      invariant Collapse(filename) == Collapse(hyphenated)
      decreases |filename|
    {
      CollapseOfReplaceDoubles(filename);
      ReplaceDoublesShrinks(filename);
      filename := ReplaceDoubles(filename);
    }
    CollapseFixpoint(filename);
    filename := Strip(filename, {Hyphen});
  }

  // ---------------------------------------------------------------------------
  // Properties of the stem

  /** The stem holds none of `/`, `:`, space and `@`, no `--`, and neither
      starts nor ends with a hyphen. */
  lemma SanitizedIsSafe(modelId: string)
    ensures forall c :: c in Sanitize(modelId) ==> c !in Unsafe
    ensures !ContainsDouble(Sanitize(modelId))
    ensures var r := Sanitize(modelId); r == [] || (r[0] != Hyphen && r[|r| - 1] != Hyphen)
  {
    var h := Hyphenate(modelId);
    forall x | x in Sanitize(modelId) ensures x !in Unsafe {
      SanitizedCharacter(modelId, x);
    }
    CollapseHasNoDouble(h);
    StripKeepsNoDouble(Collapse(h), {Hyphen});
    var i, j := StripSpec(Collapse(h), {Hyphen});
  }

  lemma SanitizedCharacter(modelId: string, x: char)
    requires x in Sanitize(modelId)
    ensures x !in Unsafe
  {
    var h := Hyphenate(modelId);
    StripKeepsCharacters(Collapse(h), {Hyphen}, x);
    CollapseKeepsCharacters(h, x);
    var k :| 0 <= k < |h| && h[k] == x;
  }

  lemma StripKeepsNoDouble(s: string, chars: set<char>)
    requires !ContainsDouble(s)
    ensures !ContainsDouble(Strip(s, chars))
  {
    var i, j := StripSpec(s, chars);
    SliceKeepsNoDouble(s, i, j);
  }

  lemma SliceKeepsNoDouble(s: string, i: int, j: int)
    requires 0 <= i <= j <= |s|
    requires !ContainsDouble(s)
    ensures !ContainsDouble(s[i..j])
  {
    var r := s[i..j];
    if ContainsDouble(r) {
      var k := ContainsDoubleAt(r);
      assert r[k] == s[i + k] && r[k + 1] == s[i + k + 1];
      DoubleAtContains(s, i + k);
    }
  }

  /** Sanitising a stem again changes nothing. */
  lemma SanitizeIdempotent(modelId: string)
    ensures Sanitize(Sanitize(modelId)) == Sanitize(modelId)
  {
    var r := Sanitize(modelId);
    SanitizedIsSafe(modelId);
    assert Hyphenate(r) == r by {
      forall k | 0 <= k < |r| ensures SafeChar(r[k]) == r[k] {
        assert r[k] in r;
      }
    }
    if ContainsDouble(r) {
      var k := ContainsDoubleAt(r);
      assert false;
    }
    CollapseFixpoint(r);
    StripUnchanged(r, {Hyphen});
  }

  /** The two examples the script documents. */
  lemma SanitizeExamples()
    ensures Sanitize("deepseek/deepseek-v3.2-speciale") == "deepseek-deepseek-v3.2-speciale"
    ensures Sanitize("google/gemini-2.5-flash") == "google-gemini-2.5-flash"
  {
    DeepseekExample();
    GeminiExample();
  }

  lemma DeepseekExample()
    ensures Sanitize("deepseek/deepseek-v3.2-speciale") == "deepseek-deepseek-v3.2-speciale"
  {
    DeepseekHyphenated();
    DeepseekHasNoRuns();
    SanitizeWithoutRuns("deepseek/deepseek-v3.2-speciale", "deepseek-deepseek-v3.2-speciale");
  }

  lemma GeminiExample()
    ensures Sanitize("google/gemini-2.5-flash") == "google-gemini-2.5-flash"
  {
    GeminiHyphenated();
    GeminiHasNoRuns();
    SanitizeWithoutRuns("google/gemini-2.5-flash", "google-gemini-2.5-flash");
  }

  // ---------------------------------------------------------------------------
  // Helper lemmas

  lemma GeminiHyphenated()
    ensures Hyphenate("google/gemini-2.5-flash") == "google-gemini-2.5-flash"
  {
  }

  lemma GeminiHasNoRuns()
    ensures forall k :: !DoubleAt("google-gemini-2.5-flash", k)
  {
  }

  lemma DeepseekHyphenated()
    ensures Hyphenate("deepseek/deepseek-v3.2-speciale") == "deepseek-deepseek-v3.2-speciale"
  {
  }

  lemma DeepseekHasNoRuns()
    ensures forall k :: !DoubleAt("deepseek-deepseek-v3.2-speciale", k)
  {
  }

  lemma SanitizeWithoutRuns(modelId: string, stem: string)
    requires Hyphenate(modelId) == stem
    requires forall k :: !DoubleAt(stem, k)
    requires stem == [] || (stem[0] != Hyphen && stem[|stem| - 1] != Hyphen)
    ensures Sanitize(modelId) == stem
  {
    if ContainsDouble(stem) {
      var k := ContainsDoubleAt(stem);
    }
    CollapseFixpoint(stem);
    StripUnchanged(stem, {Hyphen});
  }

  lemma ReplaceChainHyphenates(s: string)
    ensures ReplaceChar(ReplaceChar(ReplaceChar(ReplaceChar(s, '/', '-'), ':', '-'), ' ', '-'), '@', '-') == Hyphenate(s)
  {
  }

  lemma {:induction false} ReplaceDoublesShrinks(s: string)
    ensures |ReplaceDoubles(s)| <= |s|
    ensures ContainsDouble(s) ==> |ReplaceDoubles(s)| < |s|
  {
    if |s| >= 2 && s[0] == Hyphen && s[1] == Hyphen {
      ReplaceDoublesShrinks(s[2..]);
    } else if s != [] {
      ReplaceDoublesShrinks(s[1..]);
    }
  }

  lemma {:induction false} CollapseOfReplaceDoubles(s: string)
    ensures Collapse(ReplaceDoubles(s)) == Collapse(s)
  {
    if |s| >= 2 && s[0] == Hyphen && s[1] == Hyphen {
      var rest := s[2..];
      CollapseOfReplaceDoubles(rest);
      assert ReplaceDoubles(s)[1..] == ReplaceDoubles(rest);
      assert s[1..][1..] == rest;
      var t := Collapse(rest);
      calc {
        Collapse(ReplaceDoubles(s));
        Push(Hyphen, Collapse(ReplaceDoubles(rest)));
        Push(Hyphen, t);
        { assert Push(Hyphen, t)[0] == Hyphen; }
        Push(Hyphen, Push(Hyphen, t));
        Push(Hyphen, Collapse(s[1..]));
        Collapse(s);
      }
    } else if s != [] {
      CollapseOfReplaceDoubles(s[1..]);
      assert ReplaceDoubles(s)[1..] == ReplaceDoubles(s[1..]);
    }
  }

  lemma {:induction false} CollapseFixpoint(s: string)
    requires !ContainsDouble(s)
    ensures Collapse(s) == s
  {
    if s != [] {
      CollapseFixpoint(s[1..]);
      assert [s[0]] + s[1..] == s;
    }
  }

  lemma {:induction false} CollapseHasNoDouble(s: string)
    ensures !ContainsDouble(Collapse(s))
  {
    if s != [] {
      CollapseHasNoDouble(s[1..]);
      var t := Collapse(s[1..]);
      if !(s[0] == Hyphen && |t| > 0 && t[0] == Hyphen) {
        assert ([s[0]] + t)[1..] == t;
      }
    }
  }

  lemma {:induction false} CollapseKeepsCharacters(s: string, c: char)
    requires c in Collapse(s)
    ensures c in s
  {
    if s != [] {
      var t := Collapse(s[1..]);
      if c in t {
        CollapseKeepsCharacters(s[1..], c);
        assert c in s[1..];
      } else {
        assert c == s[0];
      }
    }
  }

  /** A `--` at position `k` is seen by `"--" in s`. */
  lemma {:induction false} DoubleAtContains(s: string, k: int)
    requires DoubleAt(s, k)
    ensures ContainsDouble(s)
  {
    if k > 0 {
      assert DoubleAt(s[1..], k - 1);
      DoubleAtContains(s[1..], k - 1);
    }
  }

  /** `"--" in s` finds a position of `--`. */
  lemma {:induction false} ContainsDoubleAt(s: string) returns (k: int)
    requires ContainsDouble(s)
    ensures DoubleAt(s, k)
  {
    if s[0] == Hyphen && s[1] == Hyphen {
      k := 0;
    } else {
      k := ContainsDoubleAt(s[1..]);
      k := k + 1;
    }
  }
}
