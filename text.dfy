/** Python's substring test `pat in s` on `str`: exact, case-sensitive
    comparison of code points. */
module Text {

  /** `pat in s`, scanning `s` from the left. The empty pattern occurs in
      every string, as in Python. */
  function Contains(s: string, pat: string): (found: bool)
    ensures |pat| == 0 ==> found
    ensures pat <= s ==> found
    ensures found ==> |pat| <= |s|
  {
    pat <= s || (|s| > 0 && Contains(s[1..], pat))
  }

  /** Reference meaning of `pat in s`: `pat` occupies `s[i..i + |pat|]`. */
  ghost predicate OccursAt(s: string, pat: string, i: nat)
  {
    i + |pat| <= |s| && s[i..i + |pat|] == pat
  }

  /** The scan agrees with the reference meaning, in both directions. */
  lemma {:induction false} ContainsIff(s: string, pat: string)
    ensures Contains(s, pat) <==> exists i: nat :: OccursAt(s, pat, i)
  {
    if pat <= s {
      assert OccursAt(s, pat, 0);
    } else if s == [] {
      // `pat` is not empty, so it occurs nowhere in the empty string
    } else {
      ContainsIff(s[1..], pat);
      if Contains(s[1..], pat) {
        var j: nat :| OccursAt(s[1..], pat, j);
        assert s[j + 1..j + 1 + |pat|] == s[1..][j..j + |pat|];
        assert OccursAt(s, pat, j + 1);
      }
      if i: nat :| OccursAt(s, pat, i) {
        assert i != 0;
        assert s[1..][i - 1..i - 1 + |pat|] == s[i..i + |pat|];
        assert OccursAt(s[1..], pat, i - 1);
      }
    }
  }

  /** A string that contains a non-empty pattern contains the pattern's first
      character. */
  lemma {:induction false} ContainsFirstChar(s: string, pat: string)
    requires |pat| > 0
    requires Contains(s, pat)
    ensures pat[0] in s
  {
    if !(pat <= s) {
      ContainsFirstChar(s[1..], pat);
      assert pat[0] in s[1..];
    }
  }

  /** Whatever surrounds it, a pattern is contained in a string built around it. */
  lemma ContainsInfix(pre: string, pat: string, post: string)
    ensures Contains(pre + pat + post, pat)
  {
    var s := pre + pat + post;
    assert s[|pre|..|pre| + |pat|] == pat;
    assert OccursAt(s, pat, |pre|);
    ContainsIff(s, pat);
  }
}
