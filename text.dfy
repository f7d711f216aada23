/** The two Python `str` operations the core relies on: `pat in s` and `s.replace(pat, rep)`. */
module Text {

  /** Python's `pat in s` on strings; the empty string is in every string. */
  predicate IsSubstring(pat: string, s: string)
  {
    if pat <= s then true
    else if s == [] then false
    else IsSubstring(pat, s[1..])
  }

  /**
   * `s.replace(pat, rep)` for a non-empty `pat`: scanning left to right, every occurrence
   * that does not overlap an earlier replaced one is replaced; the text put in is not
   * scanned again.
   */
  function ReplaceAll(s: string, pat: string, rep: string): string
    requires pat != []
    decreases |s|
  {
    if s == [] then []
    else if pat <= s then rep + ReplaceAll(s[|pat|..], pat, rep)
    else [s[0]] + ReplaceAll(s[1..], pat, rep)
  }

  /** Replacing a pattern that does not occur changes nothing. */
  lemma {:induction false} ReplaceAbsent(s: string, pat: string, rep: string)
    requires pat != [] && !IsSubstring(pat, s)
    ensures ReplaceAll(s, pat, rep) == s
    decreases |s|
  {
    if s != [] {
      ReplaceAbsent(s[1..], pat, rep);
      assert [s[0]] + s[1..] == s;
    }
  }

  /** Replacing a pattern by itself changes nothing. */
  lemma {:induction false} ReplaceBySelf(s: string, pat: string)
    requires pat != []
    ensures ReplaceAll(s, pat, pat) == s
    decreases |s|
  {
    if s != [] {
      if pat <= s {
        ReplaceBySelf(s[|pat|..], pat);
        assert pat + s[|pat|..] == s;
      } else {
        ReplaceBySelf(s[1..], pat);
        assert [s[0]] + s[1..] == s;
      }
    }
  }

  /** A string that contains `a + b` contains `a`. */
  lemma {:induction false} SubstringOfPrefix(a: string, b: string, s: string)
    requires IsSubstring(a + b, s)
    ensures IsSubstring(a, s)
    decreases |s|
  {
    if !(a + b <= s) {
      SubstringOfPrefix(a, b, s[1..]);
    } else {
      assert a <= s by { assert forall i :: 0 <= i < |a| ==> (a + b)[i] == a[i]; }
    }
  }

  /** A pattern longer than the string cannot occur in it. */
  lemma {:induction false} LongerNotSubstring(pat: string, s: string)
    requires |pat| > |s|
    ensures !IsSubstring(pat, s)
    decreases |s|
  {
    if s != [] {
      LongerNotSubstring(pat, s[1..]);
    }
  }

  /** Between strings of the same length, occurrence is equality. */
  lemma SameLengthSubstring(pat: string, s: string)
    requires |pat| == |s|
    ensures IsSubstring(pat, s) <==> pat == s
  {
    if s != [] {
      LongerNotSubstring(pat, s[1..]);
    }
  }

  /** A string that is exactly the pattern becomes exactly the replacement. */
  lemma ReplaceWhole(pat: string, rep: string)
    requires pat != []
    ensures ReplaceAll(pat, pat, rep) == rep
  {
    assert pat[|pat|..] == [];
  }

  /**
   * `s.lower()` on ASCII letters. Python also lower-cases other alphabets; every string this
   * model lower-cases is compared against ASCII words only, and no non-ASCII letter lower-cases
   * into one of their letters.
   */
  function Lower(s: string): string
  {
    if s == [] then []
    else [if 'A' <= s[0] <= 'Z' then (s[0] - 'A' + 'a') as char else s[0]] + Lower(s[1..])
  }

  /** A string without upper-case ASCII letters is its own lower case. */
  lemma {:induction false} LowerOfLowercase(s: string)
    requires forall i :: 0 <= i < |s| ==> !('A' <= s[i] <= 'Z')
    ensures Lower(s) == s
  {
    if s != [] {
      assert forall i :: 0 <= i < |s[1..]| ==> s[1..][i] == s[i + 1];
      LowerOfLowercase(s[1..]);
    }
  }
}
