/**
 * The JavaScript string operations the staging and treatment engines rely on:
 * `toLowerCase`, `toUpperCase`, `startsWith` and `replace(pattern, replacement)`
 * with a string pattern, which replaces only the FIRST occurrence.
 * Case mapping is modelled over ASCII letters only; every other character maps to itself.
 */
module JsString {

  predicate IsUpperAscii(c: char) { 'A' <= c <= 'Z' }

  predicate IsLowerAscii(c: char) { 'a' <= c <= 'z' }

  function LowerChar(c: char): (r: char)
    ensures !IsUpperAscii(r)
    ensures IsUpperAscii(c) ==> IsLowerAscii(r) && r as int == c as int + 32
    ensures !IsUpperAscii(c) ==> r == c
  {
    if IsUpperAscii(c) then (c as int + 32) as char else c
  }

  function UpperChar(c: char): (r: char)
    ensures !IsLowerAscii(r)
    ensures IsLowerAscii(c) ==> IsUpperAscii(r) && r as int == c as int - 32
    ensures !IsLowerAscii(c) ==> r == c
  {
    if IsLowerAscii(c) then (c as int - 32) as char else c
  }

  /** No upper-case ASCII letter occurs in `s`. */
  predicate NoUpper(s: string) {
    forall i :: 0 <= i < |s| ==> !IsUpperAscii(s[i])
  }

  /** `s.toLowerCase()` */
  function ToLower(s: string): (r: string)
    ensures |r| == |s|
    ensures forall i :: 0 <= i < |s| ==> r[i] == LowerChar(s[i])
    ensures NoUpper(r)
  {
    seq(|s|, i requires 0 <= i < |s| => LowerChar(s[i]))
  }

  /** `s.toUpperCase()` */
  function ToUpper(s: string): (r: string)
    ensures |r| == |s|
    ensures forall i :: 0 <= i < |s| ==> r[i] == UpperChar(s[i])
  {
    seq(|s|, i requires 0 <= i < |s| => UpperChar(s[i]))
  }

  /** `s.startsWith(p)` */
  predicate StartsWith(s: string, p: string) {
    |p| <= |s| && s[..|p|] == p
  }

  /** `pat` occurs in `s` at index `i`. */
  predicate OccursAt(s: string, pat: string, i: int) {
    0 <= i && i + |pat| <= |s| && s[i..i + |pat|] == pat
  }

  /**
   * `s.replace(pat, rep)` with a string pattern: the first occurrence of `pat`
   * is replaced by `rep`; when `pat` does not occur, `s` is returned unchanged.
   * `rep` is inserted literally: the `$&`, `$$`, `` $` `` and `$'` patterns that
   * JavaScript expands are not modelled, and the core only passes replacements
   * without `$`.
   */
  function ReplaceFirst(s: string, pat: string, rep: string): (r: string)
    ensures |s| > 0 && |rep| > 0 ==> |r| > 0
    ensures NoUpper(s) && NoUpper(rep) ==> NoUpper(r)
    decreases |s|
  {
    if |pat| == 0 then rep + s
    else if |s| < |pat| then s
    else if s[..|pat|] == pat then rep + s[|pat|..]
    else [s[0]] + ReplaceFirst(s[1..], pat, rep)
  }

  /** Lower-casing a string that is already lower-case changes nothing. */
  lemma ToLowerOfNoUpper(s: string)
    requires NoUpper(s)
    ensures ToLower(s) == s
  {
  }

  /** `toLowerCase` is idempotent. */
  lemma ToLowerIdempotent(s: string)
    ensures ToLower(ToLower(s)) == ToLower(s)
  {
    ToLowerOfNoUpper(ToLower(s));
  }

  /** Two characters with the same lower-case form have the same upper-case form. */
  lemma UpperCharDeterminedByLower(c: char, d: char)
    requires LowerChar(c) == LowerChar(d)
    ensures UpperChar(c) == UpperChar(d)
  {
  }

  /**
   * Strings that lower-case alike also upper-case alike: the upper-cased codes
   * the engines show depend only on the lower-cased codes they branch on.
   */
  lemma {:induction false} ToUpperDeterminedByLower(s: string, s': string)
    requires ToLower(s) == ToLower(s')
    ensures ToUpper(s) == ToUpper(s')
  {
    assert |s| == |s'|;
    forall i | 0 <= i < |s|
      ensures ToUpper(s)[i] == ToUpper(s')[i]
    {
      assert ToLower(s)[i] == ToLower(s')[i];
      UpperCharDeterminedByLower(s[i], s'[i]);
    }
  }

  /** A pattern that does not occur leaves the string unchanged. */
  lemma {:induction false} ReplaceFirstAbsent(s: string, pat: string, rep: string)
    requires |pat| > 0
    requires forall i :: !OccursAt(s, pat, i)
    ensures ReplaceFirst(s, pat, rep) == s
    decreases |s|
  {
    if |s| >= |pat| {
      assert !OccursAt(s, pat, 0);
      assert s[0..|pat|] == s[..|pat|];
      forall i ensures !OccursAt(s[1..], pat, i) {
        OccursInTail(s, pat, i);
      }
      ReplaceFirstAbsent(s[1..], pat, rep);
      assert [s[0]] + s[1..] == s;
    }
  }

  /** An occurrence in the tail `s[1..]` is an occurrence in `s`, one index later. */
  lemma OccursInTail(s: string, pat: string, j: int)
    requires |s| > 0
    ensures OccursAt(s[1..], pat, j) <==> j >= 0 && OccursAt(s, pat, j + 1)
  {
    if 0 <= j && j + |pat| <= |s| - 1 {
      assert s[1..][j..j + |pat|] == s[j + 1..j + 1 + |pat|];
    }
  }

  /**
   * Only the first occurrence is replaced: if `pat` first occurs at `i`, the
   * result is `s` with exactly that occurrence swapped for `rep`.
   */
  lemma {:induction false} ReplaceFirstAt(s: string, pat: string, rep: string, i: nat)
    requires |pat| > 0
    requires OccursAt(s, pat, i)
    requires forall j :: 0 <= j < i ==> !OccursAt(s, pat, j)
    ensures ReplaceFirst(s, pat, rep) == s[..i] + rep + s[i + |pat|..]
    decreases i
  {
    if i == 0 {
      assert s[0..|pat|] == s[..|pat|];
      assert s[..0] == [];
    } else {
      assert !OccursAt(s, pat, 0);
      assert s[0..|pat|] == s[..|pat|];
      var t := s[1..];
      OccursInTail(s, pat, i - 1);
      forall j | 0 <= j < i - 1 ensures !OccursAt(t, pat, j) {
        OccursInTail(s, pat, j);
      }
      ReplaceFirstAt(t, pat, rep, i - 1);
      assert ReplaceFirst(s, pat, rep) == [s[0]] + ReplaceFirst(t, pat, rep);
      assert [s[0]] + t[..i - 1] == s[..i];
      assert t[i - 1 + |pat|..] == s[i + |pat|..];
    }
  }

  /** A string that starts with the pattern has its leading copy replaced. */
  lemma ReplaceFirstPrefix(s: string, pat: string, rep: string)
    requires |pat| > 0 && StartsWith(s, pat)
    ensures ReplaceFirst(s, pat, rep) == rep + s[|pat|..]
  {
  }
}
