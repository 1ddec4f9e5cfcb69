/**
 * Case-insensitive comparison of C strings, as strcasecmp and strncasecmp
 * perform it in the "C" locale. A C string ends at its first NUL; a Dafny
 * string that runs out is read as if its terminator followed.
 */
module CStrings {

  /** The terminator of a C string. */
  const NUL: char := '\0'

  /** tolower() in the "C" locale: only the ASCII capitals are mapped. */
  function Lower(c: char): char
  {
    if 'A' <= c <= 'Z' then (c as int + 32) as char else c
  }

  /** The character a C string pointer points at. */
  function Head(s: string): char
  {
    if |s| == 0 then NUL else s[0]
  }

  /** The C string one character further on. */
  function Tail(s: string): string
  {
    if |s| == 0 then [] else s[1..]
  }

  /** A string without an embedded NUL: the whole sequence is the C string. */
  ghost predicate NoNul(s: string)
  {
    forall i :: 0 <= i < |s| ==> s[i] != NUL
  }

  /** Same length, and the same character at every position once lowered. */
  ghost predicate SameIgnoringCase(a: string, b: string)
  {
    |a| == |b| && forall i :: 0 <= i < |a| ==> Lower(a[i]) == Lower(b[i])
  }

  /** The first n characters of s (all of s when it is shorter). */
  function Take(s: string, n: nat): string
  {
    if n <= |s| then s[..n] else s
  }

  /** strcasecmp(a, b) == 0: compare lowered characters until they differ or both strings end. */
  predicate CaseEqual(a: string, b: string)
    decreases |a|
  {
    Lower(Head(a)) == Lower(Head(b)) && (Head(a) == NUL || CaseEqual(Tail(a), Tail(b)))
  }

  /** strncasecmp(a, b, n) == 0: as CaseEqual, but looking at no more than n characters. */
  predicate CaseEqualN(a: string, b: string, n: nat)
    decreases n
  {
    n == 0 || (Lower(Head(a)) == Lower(Head(b)) && (Head(a) == NUL || CaseEqualN(Tail(a), Tail(b), n - 1)))
  }

  lemma LowerIsNulOnlyForNul(c: char)
    ensures Lower(c) == NUL <==> c == NUL
  {
  }

  /** A string is equal ignoring case to itself. */
  lemma SameIgnoringCaseReflexive(s: string)
    ensures SameIgnoringCase(s, s)
  {
  }

  /** Taking one character off two strings that agree at the head. */
  lemma SameIgnoringCaseCons(a: string, b: string)
    requires |a| > 0 && |b| > 0
    ensures SameIgnoringCase(a, b) <==> Lower(a[0]) == Lower(b[0]) && SameIgnoringCase(a[1..], b[1..])
  {
    if Lower(a[0]) == Lower(b[0]) && SameIgnoringCase(a[1..], b[1..]) {
      forall i | 0 <= i < |a|
        ensures Lower(a[i]) == Lower(b[i])
      {
        if i > 0 {
          assert a[i] == a[1..][i - 1] && b[i] == b[1..][i - 1];
        }
      }
    }
  }

  /** On NUL-free strings, strcasecmp reports equality exactly when the strings are equal ignoring case. */
  lemma {:induction false} CaseEqualMeans(a: string, b: string)
    requires NoNul(a) && NoNul(b)
    ensures CaseEqual(a, b) <==> SameIgnoringCase(a, b)
    decreases |a|
  {
    LowerIsNulOnlyForNul(Head(a));
    LowerIsNulOnlyForNul(Head(b));
    if |a| > 0 && |b| > 0 {
      assert NoNul(a[1..]) && NoNul(b[1..]) by {
        forall i | 0 <= i < |a| - 1 ensures a[1..][i] != NUL { assert a[1..][i] == a[i + 1]; }
        forall i | 0 <= i < |b| - 1 ensures b[1..][i] != NUL { assert b[1..][i] == b[i + 1]; }
      }
      CaseEqualMeans(a[1..], b[1..]);
      SameIgnoringCaseCons(a, b);
    } else if |a| > 0 {
      assert a[0] != NUL;
    } else if |b| > 0 {
      assert b[0] != NUL;
    }
  }

  /**
   * On NUL-free strings, strncasecmp(a, b, n) reports equality exactly when the
   * first n characters of each are equal ignoring case.
   */
  lemma {:induction false} CaseEqualNMeans(a: string, b: string, n: nat)
    requires NoNul(a) && NoNul(b)
    ensures CaseEqualN(a, b, n) <==> SameIgnoringCase(Take(a, n), Take(b, n))
    decreases n
  {
    LowerIsNulOnlyForNul(Head(a));
    LowerIsNulOnlyForNul(Head(b));
    if n == 0 {
      assert Take(a, n) == [] == Take(b, n);
    } else if |a| > 0 && |b| > 0 {
      assert NoNul(a[1..]) && NoNul(b[1..]) by {
        forall i | 0 <= i < |a| - 1 ensures a[1..][i] != NUL { assert a[1..][i] == a[i + 1]; }
        forall i | 0 <= i < |b| - 1 ensures b[1..][i] != NUL { assert b[1..][i] == b[i + 1]; }
      }
      CaseEqualNMeans(a[1..], b[1..], n - 1);
      assert Take(a, n)[1..] == Take(a[1..], n - 1);
      assert Take(b, n)[1..] == Take(b[1..], n - 1);
      SameIgnoringCaseCons(Take(a, n), Take(b, n));
    } else if |a| > 0 {
      assert a[0] != NUL;
      assert |Take(a, n)| > 0 && |Take(b, n)| == 0;
    } else if |b| > 0 {
      assert b[0] != NUL;
      assert |Take(b, n)| > 0 && |Take(a, n)| == 0;
    }
  }
}
