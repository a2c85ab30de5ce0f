/** The few JavaScript string operations the stat engine relies on:
    `startsWith`, `endsWith`, `indexOf`, `includes`, `replace` with a string
    pattern (first occurrence only), `split(c)[0]` and `trim`. */
module Strings {

  predicate StartsWith(s: string, p: string) {
    |p| <= |s| && s[..|p|] == p
  }

  predicate EndsWith(s: string, p: string) {
    |p| <= |s| && s[|s| - |p|..] == p
  }

  /** `s.indexOf(pat, i)`: the first position at or after `i` where `pat`
      occurs, or -1. */
  function IndexFrom(s: string, pat: string, i: nat): (r: int)
    requires i <= |s|
    ensures r == -1 || i <= r <= |s| - |pat|
    ensures r >= 0 ==> StartsWith(s[r..], pat)
    ensures r >= 0 ==> forall j :: i <= j < r ==> !StartsWith(s[j..], pat)
    ensures r == -1 ==> forall j :: i <= j <= |s| ==> !StartsWith(s[j..], pat)
    decreases |s| - i
  {
    if StartsWith(s[i..], pat) then i
    else if i == |s| then -1
    else IndexFrom(s, pat, i + 1)
  }

  function IndexOf(s: string, pat: string): (r: int)
    ensures r == -1 || 0 <= r <= |s| - |pat|
  {
    IndexFrom(s, pat, 0)
  }

  /** `s.includes(pat)`. */
  predicate Contains(s: string, pat: string) {
    IndexOf(s, pat) >= 0
  }

  /** `pat` occurs at some position of `s`. */
  ghost predicate Occurs(s: string, pat: string) {
    exists j :: 0 <= j <= |s| && StartsWith(s[j..], pat)
  }

  /** `includes` holds exactly when `pat` occurs at some position of `s`. */
  lemma ContainsIff(s: string, pat: string)
    ensures Contains(s, pat) <==> Occurs(s, pat)
  {
    if !Contains(s, pat) {
      assert IndexFrom(s, pat, 0) == -1;
    }
  }

  /** A string that ends with `pat` contains it. */
  lemma EndsWithContains(s: string, pat: string)
    requires EndsWith(s, pat)
    ensures Contains(s, pat)
  {
    var j := |s| - |pat|;
    assert s[j..][..|pat|] == pat;
    ContainsIff(s, pat);
  }

  /** `s.replace(pat, rep)` with a string pattern: only the first
      occurrence is replaced; without one, `s` is returned unchanged. */
  function ReplaceFirst(s: string, pat: string, rep: string): (r: string)
    ensures !Contains(s, pat) ==> r == s
    ensures Contains(s, pat) ==> |r| == |s| - |pat| + |rep|
  {
    var i := IndexOf(s, pat);
    if i < 0 then s else s[..i] + rep + s[i + |pat|..]
  }

  /** Replacing the first occurrence in `p + pat + q`, where `pat` occurs in
      no position before `|p|`, removes exactly the displayed `pat`. */
  lemma ReplaceFirstAt(p: string, pat: string, q: string)
    requires forall j :: 0 <= j < |p| ==> !StartsWith((p + pat + q)[j..], pat)
    ensures IndexOf(p + pat + q, pat) == |p|
    ensures ReplaceFirst(p + pat + q, pat, "") == p + q
  {
    var s := p + pat + q;
    assert s[|p|..][..|pat|] == pat;
    var i := IndexOf(s, pat);
    assert i == |p|;
    assert s[..i] == p;
    assert s[i + |pat|..] == q;
  }

  /** The characters `String.prototype.trim` removes: the ECMAScript
      WhiteSpace and LineTerminator code points. */
  predicate IsWhiteSpace(c: char) {
    var n := c as int;
    n == 0x09 || n == 0x0A || n == 0x0B || n == 0x0C || n == 0x0D || n == 0x20 ||
    n == 0xA0 || n == 0x1680 || (0x2000 <= n <= 0x200A) || n == 0x2028 ||
    n == 0x2029 || n == 0x202F || n == 0x205F || n == 0x3000 || n == 0xFEFF
  }

  function TrimStart(s: string): string {
    if |s| > 0 && IsWhiteSpace(s[0]) then TrimStart(s[1..]) else s
  }

  function TrimEnd(s: string): string {
    if |s| > 0 && IsWhiteSpace(s[|s| - 1]) then TrimEnd(s[..|s| - 1]) else s
  }

  /** `trimStart` drops exactly the leading white space. */
  lemma {:induction false} TrimStartSpec(s: string)
    ensures |TrimStart(s)| <= |s| && TrimStart(s) == s[|s| - |TrimStart(s)|..]
    ensures forall k :: 0 <= k < |s| - |TrimStart(s)| ==> IsWhiteSpace(s[k])
    ensures |TrimStart(s)| > 0 ==> !IsWhiteSpace(TrimStart(s)[0])
  {
    if |s| > 0 && IsWhiteSpace(s[0]) {
      TrimStartSpec(s[1..]);
    }
  }

  /** `trimEnd` drops exactly the trailing white space. */
  lemma {:induction false} TrimEndSpec(s: string)
    ensures |TrimEnd(s)| <= |s| && TrimEnd(s) == s[..|TrimEnd(s)|]
    ensures forall k :: |TrimEnd(s)| <= k < |s| ==> IsWhiteSpace(s[k])
    ensures |TrimEnd(s)| > 0 ==> !IsWhiteSpace(TrimEnd(s)[|TrimEnd(s)| - 1])
  {
    if |s| > 0 && IsWhiteSpace(s[|s| - 1]) {
      TrimEndSpec(s[..|s| - 1]);
    }
  }

  /** `s.trim()`. */
  function Trim(s: string): string {
    TrimEnd(TrimStart(s))
  }

  /** The trimmed string is the slice of `s` left after removing white
      space at both ends; it neither starts nor ends with white space. */
  lemma TrimSpec(s: string)
    ensures exists i :: TrimmedAt(s, Trim(s), i)
    ensures |Trim(s)| > 0 ==> !IsWhiteSpace(Trim(s)[0]) && !IsWhiteSpace(Trim(s)[|Trim(s)| - 1])
  {
    var t := TrimStart(s);
    TrimStartSpec(s);
    var r := TrimEnd(t);
    TrimEndSpec(t);
    var i := |s| - |t|;
    assert r == s[i..i + |r|];
    assert forall k :: i + |r| <= k < |s| ==> s[k] == t[k - i];
    assert Trim(s) == r;
    assert TrimmedAt(s, Trim(s), i);
    if |r| > 0 {
      assert r[0] == t[0];
    }
  }

  /** `r` is the slice of `s` starting at `i`, and everything of `s`
      outside it is white space. */
  ghost predicate TrimmedAt(s: string, r: string, i: int) {
    0 <= i && i + |r| <= |s| && r == s[i..i + |r|] &&
    (forall k :: 0 <= k < i ==> IsWhiteSpace(s[k])) &&
    (forall k :: i + |r| <= k < |s| ==> IsWhiteSpace(s[k]))
  }

  /** `s.split(sep)[0]` for a one-character separator: everything before the
      first `sep`, or all of `s` when there is none. */
  function BeforeFirst(s: string, sep: char): string {
    if |s| == 0 || s[0] == sep then "" else [s[0]] + BeforeFirst(s[1..], sep)
  }

  /** `split(sep)[0]` is a prefix of `s` free of `sep`, and it stops only at
      a `sep`. */
  lemma {:induction false} BeforeFirstSpec(s: string, sep: char)
    ensures StartsWith(s, BeforeFirst(s, sep))
    ensures sep !in BeforeFirst(s, sep)
    ensures |BeforeFirst(s, sep)| < |s| ==> s[|BeforeFirst(s, sep)|] == sep
  {
    if |s| > 0 && s[0] != sep {
      BeforeFirstSpec(s[1..], sep);
      var r := BeforeFirst(s[1..], sep);
      assert s[..1 + |r|] == [s[0]] + s[1..][..|r|];
    }
  }

  function DigitChar(d: nat): char
    requires d < 10
  {
    ('0' as int + d) as char
  }

  /** The decimal representation JavaScript's template strings give a
      non-negative integer. */
  function NatToString(n: nat): (r: string)
    ensures |r| > 0
    ensures forall k :: 0 <= k < |r| ==> '0' <= r[k] <= '9'
  {
    if n < 10 then [DigitChar(n)] else NatToString(n / 10) + [DigitChar(n % 10)]
  }
}
