/**
 * The string operations of .NET that the plugin relies on, with ordinal
 * (culture-free) comparison: decimal formatting of integers, IndexOf,
 * LastIndexOf, StartsWith, EndsWith and Split.  Each has a partner:
 * integers parse back, indices are first or last occurrences, and a split
 * joins back to its input.
 */
module Strings {
  import opened Wrappers

  predicate IsDigit(c: char) {
    '0' <= c <= '9'
  }

  predicate AllDigits(s: string) {
    forall i :: 0 <= i < |s| ==> IsDigit(s[i])
  }

  function DigitChar(d: nat): (c: char)
    requires d < 10
    ensures IsDigit(c) && c as int - '0' as int == d
  {
    (d + '0' as int) as char
  }

  function DigitValue(c: char): nat
    requires IsDigit(c)
  {
    c as int - '0' as int
  }

  /** The decimal digits of n, most significant first, without leading zeros. */
  function NatToString(n: nat): (s: string)
    ensures |s| > 0 && AllDigits(s)
    ensures s[0] == '0' ==> n == 0 && |s| == 1
    decreases n
  {
    if n < 10 then [DigitChar(n)] else NatToString(n / 10) + [DigitChar(n % 10)]
  }

  /** The number a string of decimal digits denotes. */
  function DigitsValue(s: string): nat
    requires AllDigits(s)
  {
    if s == [] then 0 else DigitsValue(s[..|s| - 1]) * 10 + DigitValue(s[|s| - 1])
  }

  lemma {:induction false} NatToStringValue(n: nat)
    ensures DigitsValue(NatToString(n)) == n
    decreases n
  {
    var s := NatToString(n);
    if n < 10 {
      assert s[..|s| - 1] == [];
    } else {
      assert s[..|s| - 1] == NatToString(n / 10);
      NatToStringValue(n / 10);
    }
  }

  /** Int32.ToString(): a minus sign, then the digits of the magnitude. */
  function IntToString(n: int): (s: string)
    ensures |s| > 0
    ensures s[0] == '-' <==> n < 0
  {
    if n < 0 then "-" + NatToString(-n) else NatToString(n)
  }

  /** The length of the longest run of digits s starts with. */
  function DigitRun(s: string): (k: nat)
    ensures k <= |s| && AllDigits(s[..k])
    ensures k < |s| ==> !IsDigit(s[k])
  {
    if s == [] || !IsDigit(s[0]) then 0
    else
      var k := 1 + DigitRun(s[1..]);
      assert forall i :: 1 <= i < k ==> s[..k][i] == s[1..][..k - 1][i - 1];
      k
  }

  lemma {:induction false} DigitRunOf(d: string, rest: string)
    requires AllDigits(d)
    requires rest == [] || !IsDigit(rest[0])
    ensures DigitRun(d + rest) == |d|
    decreases |d|
  {
    if d != [] {
      assert (d + rest)[1..] == d[1..] + rest;
      DigitRunOf(d[1..], rest);
    }
  }

  /** Reads an optionally negative decimal integer at the start of s and returns it with the text after it. */
  function ParseIntPrefix(s: string): Option<(int, string)>
  {
    if |s| > 0 && s[0] == '-' then
      var k := DigitRun(s[1..]);
      var magnitude: int := DigitsValue(s[1..][..k]);
      if k == 0 then None else Some((-magnitude, s[1..][k..]))
    else
      var k := DigitRun(s);
      var magnitude: int := DigitsValue(s[..k]);
      if k == 0 then None else Some((magnitude, s[k..]))
  }

  lemma NonNegativeParses(n: nat, rest: string)
    requires rest == [] || !IsDigit(rest[0])
    ensures ParseIntPrefix(NatToString(n) + rest) == Some((n, rest))
  {
    var d := NatToString(n);
    NatToStringValue(n);
    DigitRunOf(d, rest);
    var s := d + rest;
    assert s[..|d|] == d;
    assert s[|d|..] == rest;
  }

  lemma NonNegativeParsesDigits(d: string, rest: string)
    requires |d| > 0 && AllDigits(d)
    requires rest == [] || !IsDigit(rest[0])
    ensures DigitRun(d + rest) == |d|
    ensures (d + rest)[..|d|] == d && (d + rest)[|d|..] == rest
  {
    DigitRunOf(d, rest);
  }

  lemma NegativeParses(n: int, rest: string)
    requires n < 0
    requires rest == [] || !IsDigit(rest[0])
    ensures ParseIntPrefix("-" + NatToString(-n) + rest) == Some((n, rest))
  {
    var d := NatToString(-n);
    NatToStringValue(-n);
    DigitRunOf(d, rest);
    var s := "-" + d + rest;
    assert s[0] == '-';
    assert s[1..] == d + rest;
    NonNegativeParsesDigits(d, rest);
  }

  /** Formatting an integer and reading it back gives the integer and the text that followed. */
  lemma IntToStringParses(n: int, rest: string)
    requires rest == [] || !IsDigit(rest[0])
    ensures ParseIntPrefix(IntToString(n) + rest) == Some((n, rest))
  {
    if n < 0 {
      NegativeParses(n, rest);
    } else {
      NonNegativeParses(n, rest);
    }
  }

  predicate StartsWith(s: string, prefix: string) {
    |prefix| <= |s| && s[..|prefix|] == prefix
  }

  predicate EndsWith(s: string, suffix: string) {
    |suffix| <= |s| && s[|s| - |suffix|..] == suffix
  }

  lemma EndsWithConcat(s: string, suffix: string)
    ensures EndsWith(s + suffix, suffix)
  {
    assert (s + suffix)[|s|..] == suffix;
  }

  /** A text ending with suffix still does after something is put in front of it. */
  lemma EndsWithExtend(front: string, t: string, suffix: string)
    requires EndsWith(t, suffix)
    ensures EndsWith(front + t, suffix)
  {
    assert (front + t)[|front + t| - |suffix|..] == t[|t| - |suffix|..];
  }

  /** s with prefix removed, when s starts with it. */
  function Expect(s: string, prefix: string): (r: Option<string>)
    ensures r.Some? <==> StartsWith(s, prefix)
    ensures r.Some? ==> s == prefix + r.value
  {
    if StartsWith(s, prefix) then Some(s[|prefix|..]) else None
  }

  lemma ExpectConcat(prefix: string, rest: string)
    ensures Expect(prefix + rest, prefix) == Some(rest)
  {
    assert (prefix + rest)[..|prefix|] == prefix;
  }

  predicate OccursAt(s: string, pattern: string, j: int) {
    0 <= j && j + |pattern| <= |s| && s[j..j + |pattern|] == pattern
  }

  /** k is the first position where pattern occurs in s. */
  predicate FirstAt(s: string, pattern: string, k: int) {
    OccursAt(s, pattern, k) && forall j :: 0 <= j < k ==> !OccursAt(s, pattern, j)
  }

  /** There is only one first occurrence. */
  lemma FirstAtUnique(s: string, pattern: string, k1: int, k2: int)
    requires FirstAt(s, pattern, k1) && FirstAt(s, pattern, k2)
    ensures k1 == k2
  {
  }

  function IndexOfFrom(s: string, pattern: string, from: nat): (r: int)
    ensures r == -1 || (from <= r && OccursAt(s, pattern, r))
    ensures r == -1 ==> forall j :: from <= j ==> !OccursAt(s, pattern, j)
    ensures r != -1 ==> forall j :: from <= j < r ==> !OccursAt(s, pattern, j)
    decreases |s| - from
  {
    if from + |pattern| > |s| then -1
    else if s[from..from + |pattern|] == pattern then from
    else IndexOfFrom(s, pattern, from + 1)
  }

  /** String.IndexOf(string): the first position where pattern occurs in s, or -1. */
  function IndexOf(s: string, pattern: string): (r: int)
    ensures r == -1 <==> forall j :: 0 <= j ==> !OccursAt(s, pattern, j)
    ensures r != -1 ==> OccursAt(s, pattern, r) && forall j :: 0 <= j < r ==> !OccursAt(s, pattern, j)
  {
    IndexOfFrom(s, pattern, 0)
  }

  /** A one-character pattern occurs exactly where that character is. */
  lemma OccursAtChar(s: string, c: char, j: int)
    ensures OccursAt(s, [c], j) <==> 0 <= j < |s| && s[j] == c
  {
    if 0 <= j < |s| {
      assert s[j..j + 1] == [s[j]];
    }
  }

  /** The first occurrence of a character is found by IndexOf. */
  lemma IndexOfCharAt(s: string, c: char, k: int)
    requires 0 <= k < |s| && s[k] == c && c !in s[..k]
    ensures IndexOf(s, [c]) == k
  {
    OccursAtChar(s, c, k);
    forall j | 0 <= j < k ensures !OccursAt(s, [c], j) {
      OccursAtChar(s, c, j);
      assert s[..k][j] == s[j];
    }
  }

  /** A character that does not occur is not found by IndexOf. */
  lemma IndexOfCharAbsent(s: string, c: char)
    requires c !in s
    ensures IndexOf(s, [c]) == -1
  {
    forall j | 0 <= j ensures !OccursAt(s, [c], j) {
      OccursAtChar(s, c, j);
    }
  }

  /** String.LastIndexOf(char): the last position of c in s, or -1. */
  function LastIndexOf(s: string, c: char): (r: int)
    ensures -1 <= r < |s|
    ensures r == -1 <==> c !in s
    ensures r != -1 ==> s[r] == c && forall j :: r < j < |s| ==> s[j] != c
  {
    if s == [] then -1
    else if s[|s| - 1] == c then |s| - 1
    else LastIndexOf(s[..|s| - 1], c)
  }

  /** String.Split(char): the pieces between occurrences of separator. */
  function Split(s: string, separator: char): (parts: seq<string>)
    ensures |parts| >= 1
    decreases |s|
  {
    var k := IndexOf(s, [separator]);
    if k == -1 then [s] else [s[..k]] + Split(s[k + 1..], separator)
  }

  /** No piece of a split holds the separator. */
  lemma {:induction false} SplitPiecesHaveNoSeparator(s: string, separator: char)
    ensures forall i :: 0 <= i < |Split(s, separator)| ==> separator !in Split(s, separator)[i]
    decreases |s|
  {
    var k := IndexOf(s, [separator]);
    var parts := Split(s, separator);
    if k == -1 {
      forall j | 0 <= j < |s| ensures s[j] != separator {
        OccursAtChar(s, separator, j);
      }
    } else {
      forall j | 0 <= j < k ensures s[..k][j] != separator {
        OccursAtChar(s, separator, j);
      }
      SplitPiecesHaveNoSeparator(s[k + 1..], separator);
      assert forall i :: 1 <= i < |parts| ==> parts[i] == Split(s[k + 1..], separator)[i - 1];
    }
  }

  function Join(parts: seq<string>, separator: char): string
    requires |parts| >= 1
  {
    if |parts| == 1 then parts[0] else parts[0] + [separator] + Join(parts[1..], separator)
  }

  lemma {:induction false} JoinSplit(s: string, separator: char)
    ensures Join(Split(s, separator), separator) == s
    decreases |s|
  {
    var k := IndexOf(s, [separator]);
    var parts := Split(s, separator);
    if k != -1 {
      var rest := s[k + 1..];
      assert parts == [s[..k]] + Split(rest, separator);
      assert parts[1..] == Split(rest, separator);
      JoinSplit(rest, separator);
      OccursAtChar(s, separator, k);
      assert Join(parts, separator) == s[..k] + [separator] + rest;
      assert s == s[..k] + [separator] + rest;
    }
  }
}
