/**
  Kotlin's ordinal string operations, on strings modelled as sequences of
  characters: `String.compareTo` (lexicographic by character code, a proper
  prefix first) and `String.endsWith(suffix, ignoreCase = true)`.
*/
module Ordinal {

  /** `a.compareTo(b) < 0`: the first differing character decides; otherwise the shorter string is smaller. */
  predicate Less(a: string, b: string)
    decreases |a|
  {
    if a == [] then b != []
    else if b == [] then false
    else if a[0] != b[0] then a[0] < b[0]
    else Less(a[1..], b[1..])
  }

  /** `a.compareTo(b) <= 0`. */
  predicate LessOrEqual(a: string, b: string) {
    !Less(b, a)
  }

  /** Length of the longest common prefix of `a` and `b`. */
  function CommonPrefix(a: string, b: string): (k: nat)
    ensures k <= |a| && k <= |b|
    ensures a[..k] == b[..k]
    ensures k < |a| && k < |b| ==> a[k] != b[k]
    decreases |a|
  {
    if a == [] || b == [] || a[0] != b[0] then 0
    else
      var k := 1 + CommonPrefix(a[1..], b[1..]);
      assert a[..k] == [a[0]] + a[1..][..k - 1];
      assert b[..k] == [b[0]] + b[1..][..k - 1];
      k
  }

  /**
    The order as the JDK documents `compareTo`: with k the first index where
    the strings differ, `a` is smaller when a[k] < b[k], or when `a` ends at k
    and `b` does not.
  */
  lemma {:induction false} LessAtFirstDifference(a: string, b: string)
    ensures var k := CommonPrefix(a, b);
      Less(a, b) <==> (k == |a| && k < |b|) || (k < |a| && k < |b| && a[k] < b[k])
    decreases |a|
  {
    if a != [] && b != [] && a[0] == b[0] {
      LessAtFirstDifference(a[1..], b[1..]);
    }
  }

  lemma {:induction false} LessIrreflexive(a: string)
    ensures !Less(a, a)
    decreases |a|
  {
    if a != [] {
      LessIrreflexive(a[1..]);
    }
  }

  lemma {:induction false} LessTransitive(a: string, b: string, c: string)
    requires Less(a, b) && Less(b, c)
    ensures Less(a, c)
    decreases |a|
  {
    if a != [] && b != [] && c != [] && a[0] == b[0] && b[0] == c[0] {
      LessTransitive(a[1..], b[1..], c[1..]);
    }
  }

  /** Any two different strings are ordered one way or the other. */
  lemma {:induction false} LessTotal(a: string, b: string)
    ensures a == b || Less(a, b) || Less(b, a)
    decreases |a|
  {
    if a != [] && b != [] && a[0] == b[0] {
      LessTotal(a[1..], b[1..]);
      if a[1..] == b[1..] {
        assert a == [a[0]] + a[1..] && b == [b[0]] + b[1..];
      }
    }
  }

  lemma LessAsymmetric(a: string, b: string)
    ensures !(Less(a, b) && Less(b, a))
  {
    if Less(a, b) && Less(b, a) {
      LessTransitive(a, b, a);
      LessIrreflexive(a);
    }
  }

  lemma LessOrEqualTransitive(a: string, b: string, c: string)
    requires LessOrEqual(a, b) && LessOrEqual(b, c)
    ensures LessOrEqual(a, c)
  {
    if Less(c, a) {
      LessTotal(a, b);
      if a != b {
        LessTransitive(c, a, b);
      }
    }
  }

  lemma LessOrEqualAntisymmetric(a: string, b: string)
    requires LessOrEqual(a, b) && LessOrEqual(b, a)
    ensures a == b
  {
    LessTotal(a, b);
  }

  /** ASCII lower-casing of one character. */
  function LowerAscii(c: char): (d: char)
    ensures 'A' <= c <= 'Z' ==> d as int == c as int + 32
    ensures !('A' <= c <= 'Z') ==> d == c
  {
    if 'A' <= c <= 'Z' then (c as int + 32) as char else c
  }

  function LowerAsciiString(s: string): (t: string)
    ensures |t| == |s|
    ensures forall i :: 0 <= i < |s| ==> t[i] == LowerAscii(s[i])
  {
    seq(|s|, i requires 0 <= i < |s| => LowerAscii(s[i]))
  }

  /** Kotlin's `Char.equals(other, ignoreCase = true)`, restricted to ASCII case folding. */
  predicate SameIgnoringCase(c: char, d: char) {
    LowerAscii(c) == LowerAscii(d)
  }

  /**
    `s.endsWith(suffix, ignoreCase = true)`: `s` is at least as long as `suffix`
    and its last |suffix| characters match those of `suffix`, compared from the last one back.
  */
  predicate EndsWithIgnoreCase(s: string, suffix: string)
    decreases suffix
  {
    |suffix| <= |s| &&
    (suffix == [] ||
     (SameIgnoringCase(s[|s| - 1], suffix[|suffix| - 1]) &&
      EndsWithIgnoreCase(s[..|s| - 1], suffix[..|suffix| - 1])))
  }

  /** Ending with `suffix` is matching the last |suffix| characters position by position. */
  lemma {:induction false} EndsWithIgnoreCaseCharwise(s: string, suffix: string)
    ensures EndsWithIgnoreCase(s, suffix) <==>
      |suffix| <= |s| &&
      forall i :: 0 <= i < |suffix| ==> SameIgnoringCase(s[|s| - |suffix| + i], suffix[i])
    decreases suffix
  {
    if suffix != [] && s != [] {
      var s', suffix' := s[..|s| - 1], suffix[..|suffix| - 1];
      EndsWithIgnoreCaseCharwise(s', suffix');
      if |suffix| <= |s| {
        assert forall i :: 0 <= i < |suffix'| ==> s'[|s'| - |suffix'| + i] == s[|s| - |suffix| + i] && suffix'[i] == suffix[i];
      }
    }
  }

  /** For a lower-case suffix, ending with it ignoring case is ending with it after lower-casing. */
  lemma EndsWithLowerSuffix(s: string, suffix: string)
    requires LowerAsciiString(suffix) == suffix
    ensures EndsWithIgnoreCase(s, suffix) <==>
      |suffix| <= |s| && LowerAsciiString(s[|s| - |suffix|..]) == suffix
  {
    EndsWithIgnoreCaseCharwise(s, suffix);
    if EndsWithIgnoreCase(s, suffix) {
      var t := LowerAsciiString(s[|s| - |suffix|..]);
      forall i | 0 <= i < |suffix| ensures t[i] == suffix[i] {
        assert LowerAscii(suffix[i]) == suffix[i];
      }
    }
    if |suffix| <= |s| && LowerAsciiString(s[|s| - |suffix|..]) == suffix {
      forall i | 0 <= i < |suffix| ensures SameIgnoringCase(s[|s| - |suffix| + i], suffix[i]) {
        assert LowerAsciiString(s[|s| - |suffix|..])[i] == suffix[i];
        assert LowerAsciiString(suffix)[i] == suffix[i];
      }
    }
  }
}
