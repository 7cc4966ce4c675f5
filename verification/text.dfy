/**
 * String helpers standing in for the .NET string operations the core uses:
 * `Equals(_, StringComparison.OrdinalIgnoreCase)` and `StartsWith`.
 */
module Text {

  /** Simple upper-case mapping, restricted to ASCII letters. */
  function UpperAscii(c: char): (u: char)
    ensures 'a' <= c <= 'z' ==> u as int == c as int - 32
    ensures !('a' <= c <= 'z') ==> u == c
    ensures !('a' <= u <= 'z')
  {
    if 'a' <= c <= 'z' then (c as int - 32) as char else c
  }

  /** The string with every character upper-cased. */
  function Fold(s: string): (r: string)
    ensures |r| == |s|
    ensures forall i :: 0 <= i < |s| ==> r[i] == UpperAscii(s[i])
  {
    if |s| == 0 then [] else [UpperAscii(s[0])] + Fold(s[1..])
  }

  /** Ordinal comparison ignoring case: equal length, equal after upper-casing each character. */
  predicate EqualsIgnoreCase(a: string, b: string) {
    |a| == |b| && forall i :: 0 <= i < |a| ==> UpperAscii(a[i]) == UpperAscii(b[i])
  }

  /** Ignoring case is the same as comparing the folded strings, so it is an equivalence. */
  lemma EqualsIgnoreCaseIsFoldEquality(a: string, b: string)
    ensures EqualsIgnoreCase(a, b) <==> Fold(a) == Fold(b)
  {
    if Fold(a) == Fold(b) {
      assert |a| == |b|;
      forall i | 0 <= i < |a|
        ensures UpperAscii(a[i]) == UpperAscii(b[i])
      {
        assert Fold(a)[i] == Fold(b)[i];
      }
    }
  }

  lemma EqualsIgnoreCaseEquivalence(a: string, b: string, c: string)
    ensures EqualsIgnoreCase(a, a)
    ensures EqualsIgnoreCase(a, b) ==> EqualsIgnoreCase(b, a)
    ensures EqualsIgnoreCase(a, b) && EqualsIgnoreCase(b, c) ==> EqualsIgnoreCase(a, c)
  {
    EqualsIgnoreCaseIsFoldEquality(a, a);
    EqualsIgnoreCaseIsFoldEquality(a, b);
    EqualsIgnoreCaseIsFoldEquality(b, a);
    EqualsIgnoreCaseIsFoldEquality(b, c);
    EqualsIgnoreCaseIsFoldEquality(a, c);
  }

  /** Ordinal prefix test. */
  predicate StartsWith(s: string, prefix: string) {
    |prefix| <= |s| && s[..|prefix|] == prefix
  }
}
