/** The two Python string operations the catalogue query is built from: the
    `in` operator on strings (a substring test) and `str.lower`. */
module Text {

  /** Python's `pat in s` on strings, computed as a scan: `pat` is a prefix of
      `s`, or it occurs in what follows the first character. The empty pattern
      occurs in every string, the empty string included. The clauses below are
      quick consequences; `ContainsIsSubstring` states exactly what the scan
      decides. */
  predicate Contains(s: string, pat: string)
    ensures pat == [] ==> Contains(s, pat)
    ensures Contains(s, pat) ==> |pat| <= |s|
    ensures Contains(s, pat) && pat != [] ==> pat[0] in s
    decreases |s|
  {
    |pat| <= |s| && (s[..|pat|] == pat || (|s| > 0 && Contains(s[1..], pat)))
  }

  /** `pat` occurs in `s` starting at index `i`. */
  ghost predicate OccursAt(s: string, pat: string, i: int)
  {
    0 <= i && i + |pat| <= |s| && s[i..i + |pat|] == pat
  }

  /** Reference definition of the substring relation, by a witness index. */
  ghost predicate IsSubstring(s: string, pat: string)
  {
    exists i :: OccursAt(s, pat, i)
  }

  /** The scan finds exactly the occurrences the index definition describes. */
  lemma {:induction false} ContainsIsSubstring(s: string, pat: string)
    ensures Contains(s, pat) <==> IsSubstring(s, pat)
    decreases |s|
  {
    if |pat| > |s| {
      assert !IsSubstring(s, pat);
    } else if s[..|pat|] == pat {
      assert OccursAt(s, pat, 0);
    } else {
      ContainsIsSubstring(s[1..], pat);
      if IsSubstring(s, pat) {
        var i :| OccursAt(s, pat, i);
        assert i != 0;
        assert s[1..][i - 1..i - 1 + |pat|] == s[i..i + |pat|];
        assert OccursAt(s[1..], pat, i - 1);
      }
      if IsSubstring(s[1..], pat) {
        var i :| OccursAt(s[1..], pat, i);
        assert s[1..][i..i + |pat|] == s[i + 1..i + 1 + |pat|];
        assert OccursAt(s, pat, i + 1);
      }
    }
  }

  /** An occurrence at a known index makes `Contains` true. */
  lemma ContainsAt(s: string, pat: string, i: int)
    requires OccursAt(s, pat, i)
    ensures Contains(s, pat)
  {
    ContainsIsSubstring(s, pat);
  }

  /** Every character of a pattern that occurs in `s` is a character of `s`. */
  lemma ContainsChar(s: string, pat: string, j: int)
    requires Contains(s, pat) && 0 <= j < |pat|
    ensures pat[j] in s
  {
    ContainsIsSubstring(s, pat);
    var i :| OccursAt(s, pat, i);
    assert s[i + j] == s[i..i + |pat|][j];
  }

  /** A character that `str.lower` changes in this model: ASCII `A`..`Z` and the
      upper-case letters of the Latin-1 supplement (U+00C0..U+00DE, except the
      multiplication sign U+00D7), which covers every accented capital of
      Portuguese. */
  predicate IsUpper(c: char)
  {
    ('A' <= c <= 'Z') || ('À' <= c <= 'Þ' && c != '×')
  }

  /** Python's per-character lower-case mapping on the characters above; every
      other character is its own lower case. */
  function LowerChar(c: char): (d: char)
    ensures !IsUpper(d)
    ensures !IsUpper(c) ==> d == c
  {
    if IsUpper(c) then (c as int + 32) as char else c
  }

  /** Python's `s.lower()`: each character is lowered on its own. The result
      has the same length and no upper-case character left. */
  function Lower(s: string): (r: string)
    ensures |r| == |s|
    ensures forall i :: 0 <= i < |r| ==> !IsUpper(r[i])
  {
    seq(|s|, i requires 0 <= i < |s| => LowerChar(s[i]))
  }

  /** Lowering distributes over concatenation. */
  lemma LowerAppend(a: string, b: string)
    ensures Lower(a + b) == Lower(a) + Lower(b)
  {
    assert forall i :: 0 <= i < |a| ==> (a + b)[i] == a[i];
    assert forall i :: |a| <= i < |a| + |b| ==> (a + b)[i] == b[i - |a|];
  }

  /** Lowering commutes with taking a slice. */
  lemma LowerSlice(s: string, i: int, j: int)
    requires 0 <= i <= j <= |s|
    ensures Lower(s[i..j]) == Lower(s)[i..j]
  {
    assert forall k :: 0 <= k < j - i ==> s[i..j][k] == s[i + k];
  }

  /** A string with no upper-case character is its own lower case. */
  lemma LowerOfLower(s: string)
    requires forall i :: 0 <= i < |s| ==> !IsUpper(s[i])
    ensures Lower(s) == s
  {
  }

  /** Lowering twice is lowering once. */
  lemma LowerIdempotent(s: string)
    ensures Lower(Lower(s)) == Lower(s)
  {
    LowerOfLower(Lower(s));
  }

  /** A case-insensitive search is at least as permissive as an exact one:
      whatever occurs in `s` also occurs once both sides are lowered. */
  lemma ContainsLowered(s: string, pat: string)
    requires Contains(s, pat)
    ensures Contains(Lower(s), Lower(pat))
  {
    ContainsIsSubstring(s, pat);
    var i :| OccursAt(s, pat, i);
    LowerSlice(s, i, i + |pat|);
    assert OccursAt(Lower(s), Lower(pat), i);
    ContainsAt(Lower(s), Lower(pat), i);
  }
}
