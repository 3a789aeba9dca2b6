/** Small string toolkit used by the classifier: ASCII upper-casing (Python's
    `str.upper` on the ASCII strings the classifier handles), prefix slicing
    (`s[0:n]`), `startswith`, and substring search (`t in s`). */
module Strings {

  /** Upper-cases an ASCII letter and leaves every other character alone. */
  function UpperChar(c: char): char
  {
    if 'a' <= c <= 'z' then (c as int - 32) as char else c
  }

  /** A character that upper-casing leaves unchanged: anything but a lower-case ASCII
      letter, so digits, ':' and other punctuation qualify too. */
  predicate IsUpperChar(c: char)
  {
    !('a' <= c <= 'z')
  }

  /** Character-wise upper-casing of a string. */
  function Upper(s: string): (u: string)
    ensures |u| == |s|
    ensures forall i :: 0 <= i < |s| ==> IsUpperChar(u[i])
    ensures forall i :: 0 <= i < |s| && IsUpperChar(s[i]) ==> u[i] == s[i]
    ensures forall i :: 0 <= i < |s| && !IsUpperChar(s[i]) ==> u[i] as int == s[i] as int - 32
  {
    seq(|s|, i requires 0 <= i < |s| => UpperChar(s[i]))
  }

  /** A string that contains no lower-case ASCII letter. */
  predicate IsUpper(s: string)
  {
    forall i :: 0 <= i < |s| ==> IsUpperChar(s[i])
  }

  /** Upper-cased strings are exactly the fixpoints of `Upper`. */
  lemma UpperFixpoint(s: string)
    ensures IsUpper(s) <==> Upper(s) == s
  {
    if Upper(s) == s {
      assert forall i :: 0 <= i < |s| ==> IsUpperChar(Upper(s)[i]);
    }
  }

  /** Upper-casing twice is upper-casing once. */
  lemma UpperIdempotent(s: string)
    ensures Upper(Upper(s)) == Upper(s)
  {
    UpperFixpoint(Upper(s));
  }

  /** Python's slice `s[0:n]`: the first `n` characters, or all of `s` when it is shorter. */
  function Take(s: string, n: nat): (p: string)
    ensures |p| == if |s| < n then |s| else n
    ensures p <= s
  {
    if |s| < n then s else s[..n]
  }

  /** Python's `s.startswith(p)`. */
  predicate StartsWith(s: string, p: string)
  {
    |p| <= |s| && s[..|p|] == p
  }

  /** `t` occurs in `s` starting at index `i`. */
  ghost predicate OccursAt(s: string, t: string, i: int)
  {
    0 <= i && i + |t| <= |s| && s[i..i + |t|] == t
  }

  /** Python's `t in s` for strings: `t` occurs somewhere in `s`
      (the empty string occurs in every string). */
  function Contains(s: string, t: string): (b: bool)
    ensures b ==> |t| <= |s|
    decreases |s|
  {
    StartsWith(s, t) || (|s| > 0 && Contains(s[1..], t))
  }

  /** `Contains` is substring search: it holds exactly when `t` occurs at some index of `s`. */
  lemma {:induction false} ContainsIff(s: string, t: string)
    ensures Contains(s, t) <==> exists i :: OccursAt(s, t, i)
    decreases |s|
  {
    if StartsWith(s, t) {
      assert OccursAt(s, t, 0);
    } else if |s| == 0 {
      assert forall i :: !OccursAt(s, t, i);
    } else {
      ContainsIff(s[1..], t);
      forall i | OccursAt(s[1..], t, i)
        ensures OccursAt(s, t, i + 1)
      {
        assert s[1..][i..i + |t|] == s[i + 1..i + 1 + |t|];
      }
      forall i | OccursAt(s, t, i)
        ensures OccursAt(s[1..], t, i - 1)
      {
        assert s[1..][i - 1..i - 1 + |t|] == s[i..i + |t|];
      }
    }
  }

  /** Contains a witnessed occurrence: the direction used to show a rule fires. */
  lemma ContainsAt(s: string, t: string, i: nat)
    requires i + |t| <= |s| && s[i..i + |t|] == t
    ensures Contains(s, t)
  {
    ContainsIff(s, t);
    assert OccursAt(s, t, i);
  }

  /** A string that lacks one of `t`'s characters cannot contain `t`. */
  lemma NotContainsMissingChar(s: string, t: string, j: nat)
    requires j < |t|
    requires forall i :: 0 <= i < |s| ==> s[i] != t[j]
    ensures !Contains(s, t)
  {
    ContainsIff(s, t);
    forall i | 0 <= i && i + |t| <= |s|
      ensures !OccursAt(s, t, i)
    {
      assert s[i..i + |t|][j] == s[i + j];
    }
  }
}
