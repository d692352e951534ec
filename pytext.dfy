/** The few Python string built-ins the scripts and tools rely on, stated once:
    `startswith`, `endswith`, `strip`/`lstrip`/`rstrip` with a character set,
    `str()` of an integer and the f-string rendering of an optional value. */
module PyText {
  import opened Wrappers

  predicate StartsWith(s: string, p: string) {
    |p| <= |s| && s[..|p|] == p
  }

  predicate EndsWith(s: string, p: string) {
    |p| <= |s| && s[|s| - |p|..] == p
  }

  /** The characters for which Python's `str.isspace()` holds: what `strip()`
      with no argument removes. */
  const Whitespace: set<char> := {
    '\t', '\n', '\U{000B}', '\U{000C}', '\r', '\U{001C}', '\U{001D}', '\U{001E}', '\U{001F}',
    ' ', '\U{0085}', '\U{00A0}', '\U{1680}',
    '\U{2000}', '\U{2001}', '\U{2002}', '\U{2003}', '\U{2004}', '\U{2005}', '\U{2006}',
    '\U{2007}', '\U{2008}', '\U{2009}', '\U{200A}',
    '\U{2028}', '\U{2029}', '\U{202F}', '\U{205F}', '\U{3000}'
  }

  /** `s.lstrip(chars)`. */
  function StripLeft(s: string, chars: set<char>): string {
    if |s| > 0 && s[0] in chars then StripLeft(s[1..], chars) else s
  }

  /** `s.rstrip(chars)`. */
  function StripRight(s: string, chars: set<char>): string {
    if |s| > 0 && s[|s| - 1] in chars then StripRight(s[..|s| - 1], chars) else s
  }

  /** `s.strip(chars)`. */
  function Strip(s: string, chars: set<char>): string {
    StripRight(StripLeft(s, chars), chars)
  }

  /** `lstrip` keeps the longest suffix of `s` that does not start with one of
      `chars`: what it removes is made of `chars` only. */
  lemma {:induction false} StripLeftSpec(s: string, chars: set<char>)
    ensures var r := StripLeft(s, chars);
            && |r| <= |s| && r == s[|s| - |r|..]
            && (r == [] || r[0] !in chars)
            && forall k :: 0 <= k < |s| - |r| ==> s[k] in chars
  {
    if |s| > 0 && s[0] in chars {
      StripLeftSpec(s[1..], chars);
    }
  }

  /** `rstrip` keeps the longest prefix of `s` that does not end with one of
      `chars`: what it removes is made of `chars` only. */
  lemma {:induction false} StripRightSpec(s: string, chars: set<char>)
    ensures var r := StripRight(s, chars);
            && |r| <= |s| && r == s[..|r|]
            && (r == [] || r[|r| - 1] !in chars)
            && forall k :: |r| <= k < |s| ==> s[k] in chars
  {
    if |s| > 0 && s[|s| - 1] in chars {
      StripRightSpec(s[..|s| - 1], chars);
    }
  }

  /** `strip` yields a contiguous piece of `s` that neither starts nor ends
      with one of `chars`. */
  lemma StripSpec(s: string, chars: set<char>) returns (i: nat, j: nat)
    ensures i <= j <= |s| && Strip(s, chars) == s[i..j]
    ensures var r := Strip(s, chars); r == [] || (r[0] !in chars && r[|r| - 1] !in chars)
  {
    var l := StripLeft(s, chars);
    StripLeftSpec(s, chars);
    StripRightSpec(l, chars);
    var r := StripRight(l, chars);
    i, j := |s| - |l|, |s| - |l| + |r|;
    assert r == s[|s| - |l|..][..|r|] == s[i..j];
  }

  /** Every character of `Strip(s, chars)` comes from `s`. */
  lemma StripKeepsCharacters(s: string, chars: set<char>, c: char)
    requires c in Strip(s, chars)
    ensures c in s
  {
    var i, j := StripSpec(s, chars);
    var k :| 0 <= k < |s[i..j]| && s[i..j][k] == c;
    assert s[i + k] == c;
  }

  /** A string that neither starts nor ends with one of `chars` is left as it is. */
  lemma StripUnchanged(s: string, chars: set<char>)
    requires s == [] || (s[0] !in chars && s[|s| - 1] !in chars)
    ensures Strip(s, chars) == s
  {
    if s != [] {
      assert s[|s| - 1] == StripLeft(s, chars)[|s| - 1];
    }
  }

  function DigitChar(d: nat): (c: char)
    requires d < 10
  {
    "0123456789"[d]
  }

  function DigitValue(c: char): nat {
    if '0' <= c <= '9' then (c as int - '0' as int) as nat else 0
  }

  predicate IsDigits(s: string) {
    forall k :: 0 <= k < |s| ==> '0' <= s[k] <= '9'
  }

  /** The value of a string of decimal digits. */
  function DecimalValue(s: string): nat {
    if s == [] then 0 else 10 * DecimalValue(s[..|s| - 1]) + DigitValue(s[|s| - 1])
  }

  /** `str(n)` for a non-negative integer: its shortest decimal spelling. */
  function NatToString(n: nat): (r: string)
    ensures |r| > 0 && IsDigits(r)
    ensures r[0] == '0' ==> n == 0
    ensures DecimalValue(r) == n
  {
    if n < 10 then
      assert DigitValue(DigitChar(n)) == n;
      [DigitChar(n)]
    else
      var r := NatToString(n / 10) + [DigitChar(n % 10)];
      assert r[..|r| - 1] == NatToString(n / 10);
      assert DigitValue(DigitChar(n % 10)) == n % 10;
      r
  }

  /** `str(n)` for any integer, with a leading `-` when negative. */
  function IntToString(n: int): string {
    if n >= 0 then NatToString(n) else "-" + NatToString(-n)
  }

  /** The truthiness of a string that may be `None`: present and not empty. */
  predicate Filled(o: Option<string>) {
    o.Some? && o.value != ""
  }

  /** How an f-string renders a value that may be `None`. */
  function Render(o: Option<string>): string {
    match o
    case Some(s) => s
    case None => "None"
  }
}
