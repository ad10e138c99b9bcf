/**
 * Character classes and string operations the Python code gets from `str`
 * and `re`: whitespace, digits, ASCII case mapping, `startswith`, `in`,
 * `join`, `strip`, `len(s.split())`, and decimal rendering of integers.
 */
module Text {

  /** Python's whitespace in the ASCII range: space, \t \n \v \f \r and \x1c-\x1f. */
  predicate IsSpace(c: char) {
    c == ' ' || ('\t' <= c <= '\r') || ('\U{001C}' <= c <= '\U{001F}')
  }

  predicate IsDigit(c: char) {
    '0' <= c <= '9'
  }

  predicate AllDigits(s: string) {
    forall i :: 0 <= i < |s| ==> IsDigit(s[i])
  }

  function ToLower(c: char): char {
    if 'A' <= c <= 'Z' then (c as int + 32) as char else c
  }

  function ToUpper(c: char): char {
    if 'a' <= c <= 'z' then (c as int - 32) as char else c
  }

  function Lower(s: string): (r: string)
    ensures |r| == |s|
  {
    seq(|s|, i requires 0 <= i < |s| => ToLower(s[i]))
  }

  function Upper(s: string): (r: string)
    ensures |r| == |s|
  {
    seq(|s|, i requires 0 <= i < |s| => ToUpper(s[i]))
  }

  predicate StartsWith(s: string, prefix: string) {
    |prefix| <= |s| && s[..|prefix|] == prefix
  }

  /** Python's `sub in s`. */
  predicate Contains(s: string, sub: string)
    decreases |s|
  {
    StartsWith(s, sub) || (|s| > 0 && Contains(s[1..], sub))
  }

  predicate OccursAt(s: string, sub: string, i: int) {
    0 <= i <= |s| - |sub| && s[i..i + |sub|] == sub
  }

  lemma {:induction false} ContainsIffOccurs(s: string, sub: string)
    ensures Contains(s, sub) <==> exists i :: OccursAt(s, sub, i)
  {
    if Contains(s, sub) {
      var i := OccurrenceOf(s, sub);
    }
    if exists i :: OccursAt(s, sub, i) {
      var i :| OccursAt(s, sub, i);
      ContainsAt(s, sub, i);
    }
  }

  /** An index where `sub` occurs in `s`, given that `sub in s`. */
  lemma {:induction false} OccurrenceOf(s: string, sub: string) returns (i: nat)
    requires Contains(s, sub)
    ensures OccursAt(s, sub, i)
    decreases |s|
  {
    if StartsWith(s, sub) {
      i := 0;
    } else {
      var j := OccurrenceOf(s[1..], sub);
      assert s[1..][j..j + |sub|] == s[j + 1..j + 1 + |sub|];
      i := j + 1;
    }
  }

  lemma {:induction false} ContainsAt(s: string, sub: string, i: int)
    requires OccursAt(s, sub, i)
    ensures Contains(s, sub)
    decreases i
  {
    if i == 0 {
      assert StartsWith(s, sub);
    } else {
      assert s[1..][i - 1..i - 1 + |sub|] == s[i..i + |sub|];
      ContainsAt(s[1..], sub, i - 1);
    }
  }

  /** Python's `sep.join(parts)`. */
  function Join(sep: string, parts: seq<string>): string {
    if |parts| == 0 then ""
    else if |parts| == 1 then parts[0]
    else parts[0] + sep + Join(sep, parts[1..])
  }

  /** The lists of `xss`, one after another. */
  function Concat<T>(xss: seq<seq<T>>): seq<T> {
    if xss == [] then [] else xss[0] + Concat(xss[1..])
  }

  predicate AllSpace(s: string) {
    forall i :: 0 <= i < |s| ==> IsSpace(s[i])
  }

  /** The end of the run of digits starting at `i`. */
  function SkipDigits(s: string, i: nat): (r: nat)
    requires i <= |s|
    ensures i <= r <= |s|
    ensures forall j :: i <= j < r ==> IsDigit(s[j])
    ensures r < |s| ==> !IsDigit(s[r])
    decreases |s| - i
  {
    if i < |s| && IsDigit(s[i]) then SkipDigits(s, i + 1) else i
  }

  /** The first index at or after `i` that is not whitespace (or |s|). */
  function SkipSpace(s: string, i: nat): (r: nat)
    requires i <= |s|
    ensures i <= r <= |s|
    ensures forall j :: i <= j < r ==> IsSpace(s[j])
    ensures r < |s| ==> !IsSpace(s[r])
    decreases |s| - i
  {
    if i < |s| && IsSpace(s[i]) then SkipSpace(s, i + 1) else i
  }

  /** The index where the whitespace run that ends just before `j` starts. */
  function SkipSpaceBack(s: string, j: nat): (r: nat)
    requires j <= |s|
    ensures r <= j
    ensures forall k :: r <= k < j ==> IsSpace(s[k])
    ensures r > 0 ==> !IsSpace(s[r - 1])
  {
    if j > 0 && IsSpace(s[j - 1]) then SkipSpaceBack(s, j - 1) else j
  }

  /** `s` is whitespace, then `r` from index `i`, then whitespace. */
  predicate PaddedAt(s: string, r: string, i: int) {
    0 <= i <= |s| - |r| && r == s[i..i + |r|]
    && (forall j :: 0 <= j < i ==> IsSpace(s[j]))
    && (forall j :: i + |r| <= j < |s| ==> IsSpace(s[j]))
  }

  /** Python's `s.strip()`. */
  function Strip(s: string): string {
    var a := SkipSpace(s, 0);
    var b := SkipSpaceBack(s, |s|);
    if a < b then s[a..b] else ""
  }

  /** `strip` removes the whitespace padding on both sides and nothing else. */
  lemma StripTrims(s: string)
    ensures exists i :: PaddedAt(s, Strip(s), i)
    ensures Strip(s) == [] <==> AllSpace(s)
    ensures var r := Strip(s); r != [] ==> !IsSpace(r[0]) && !IsSpace(r[|r| - 1])
  {
    var a := SkipSpace(s, 0);
    var b := SkipSpaceBack(s, |s|);
    if a < b {
      StripKeepsMiddle(s, a, b);
      assert Strip(s) == s[a..b];
    } else {
      StripOfBlank(s, a, b);
      assert Strip(s) == "" && PaddedAt(s, "", 0);
    }
  }

  lemma StripKeepsMiddle(s: string, a: nat, b: nat)
    requires a == SkipSpace(s, 0) && b == SkipSpaceBack(s, |s|) && a < b
    ensures PaddedAt(s, s[a..b], a) && !AllSpace(s)
    ensures var r := s[a..b]; !IsSpace(r[0]) && !IsSpace(r[|r| - 1])
  {
    var r := s[a..b];
    assert |r| == b - a && 0 < b;
    assert !IsSpace(s[b - 1]);
    assert r[|r| - 1] == s[b - 1];
    assert r[0] == s[a] && !IsSpace(s[a]);
    assert r == s[a..a + |r|];
  }

  lemma StripOfBlank(s: string, a: nat, b: nat)
    requires a == SkipSpace(s, 0) && b == SkipSpaceBack(s, |s|) && b <= a
    ensures AllSpace(s)
  {
    assert a == |s|;
  }

  /** Number of maximal runs of non-whitespace in `s`, counting a run that starts after whitespace (or at the start when `afterSpace`). */
  function CountRuns(s: string, afterSpace: bool): nat {
    if s == [] then 0
    else (if afterSpace && !IsSpace(s[0]) then 1 else 0) + CountRuns(s[1..], IsSpace(s[0]))
  }

  /** Python's `len(s.split())`. */
  function WordCount(s: string): nat {
    CountRuns(s, true)
  }

  lemma {:induction false} CountRunsAcrossSpace(a: string, b: string, afterSpace: bool)
    ensures CountRuns(a + " " + b, afterSpace) == CountRuns(a, afterSpace) + CountRuns(b, true)
    decreases |a|
  {
    if a == [] {
      assert a + " " + b == [' '] + b;
      assert ([' '] + b)[1..] == b;
    } else {
      assert (a + " " + b)[1..] == a[1..] + " " + b;
      CountRunsAcrossSpace(a[1..], b, IsSpace(a[0]));
    }
  }

  function SumWordCounts(parts: seq<string>): nat {
    if parts == [] then 0 else WordCount(parts[0]) + SumWordCounts(parts[1..])
  }

  /** Joining with single spaces neither merges nor splits words. */
  lemma {:induction false} WordCountOfSpaceJoin(parts: seq<string>)
    ensures WordCount(Join(" ", parts)) == SumWordCounts(parts)
  {
    if |parts| == 1 {
      assert parts[1..] == [];
    } else if |parts| > 1 {
      CountRunsAcrossSpace(parts[0], Join(" ", parts[1..]), true);
      WordCountOfSpaceJoin(parts[1..]);
    }
  }

  function DigitChar(d: nat): (c: char)
    requires d < 10
    ensures IsDigit(c)
  {
    ('0' as int + d) as char
  }

  /** Python's `str(n)` for a non-negative integer: decimal, no leading zeros. */
  function NatToString(n: nat): (r: string)
    ensures |r| >= 1 && AllDigits(r)
    ensures r[0] == '0' ==> n == 0
  {
    if n < 10 then [DigitChar(n)] else NatToString(n / 10) + [DigitChar(n % 10)]
  }

  /** Python's `str(i)` for any integer. */
  function IntToString(i: int): string {
    if i < 0 then "-" + NatToString(-i) else NatToString(i)
  }

  /** The value of a decimal digit string, as `int(s)` computes it. */
  function DigitsValue(s: string): nat
    requires AllDigits(s)
  {
    if s == [] then 0 else DigitsValue(s[..|s| - 1]) * 10 + (s[|s| - 1] as int - '0' as int)
  }

  lemma {:induction false} DigitsValueOfNatToString(n: nat)
    ensures DigitsValue(NatToString(n)) == n
  {
    if n >= 10 {
      var s := NatToString(n);
      assert s[..|s| - 1] == NatToString(n / 10);
      DigitsValueOfNatToString(n / 10);
    }
  }

  lemma NatToStringInjective(m: nat, n: nat)
    ensures NatToString(m) == NatToString(n) ==> m == n
  {
    DigitsValueOfNatToString(m);
    DigitsValueOfNatToString(n);
  }
}
