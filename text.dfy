/** Character and substring helpers with Python's meaning. */
module Text {

  /** ASCII upper-case letters go to lower case; every other character is unchanged. */
  function LowerChar(c: char): char
  {
    if 'A' <= c <= 'Z' then (c as int - 'A' as int + 'a' as int) as char else c
  }

  /** `str.lower()` restricted to ASCII letters. */
  function Lower(s: string): (r: string)
    ensures |r| == |s|
    ensures forall i :: 0 <= i < |s| ==> r[i] == LowerChar(s[i])
  {
    seq(|s|, i requires 0 <= i < |s| => LowerChar(s[i]))
  }

  /** `pat` occurs in `s` starting at position `i`. */
  predicate MatchAt(s: string, pat: string, i: nat)
  {
    i + |pat| <= |s| && s[i..i + |pat|] == pat
  }

  /** Python's `pat in s`. */
  predicate Contains(s: string, pat: string)
  {
    exists i: nat :: i <= |s| && MatchAt(s, pat, i)
  }

  /** The characters that `str.isspace()` and the `\s` class of a `re` pattern accept. */
  predicate IsSpace(c: char)
  {
    || '\t' <= c <= '\r'
    || '\U{1C}' <= c <= ' '
    || c == '\U{85}' || c == '\U{A0}' || c == '\U{1680}'
    || '\U{2000}' <= c <= '\U{200A}'
    || c == '\U{2028}' || c == '\U{2029}' || c == '\U{202F}' || c == '\U{205F}' || c == '\U{3000}'
  }

  /** A pattern whose first character does not occur in `s` is not in `s`. */
  lemma FirstCharAbsent(s: string, pat: string)
    requires |pat| > 0 && pat[0] !in s
    ensures !Contains(s, pat)
  {
    forall i: nat | i <= |s| ensures !MatchAt(s, pat, i) {
      if i < |s| {
        assert s[i] in s;
      }
    }
  }

  /** A lower-case pattern found in `s` is also found, at the same place, in `Lower(s)`. */
  lemma LowerKeepsMatch(s: string, pat: string, i: nat)
    requires MatchAt(s, pat, i)
    requires forall k :: 0 <= k < |pat| ==> LowerChar(pat[k]) == pat[k]
    ensures MatchAt(Lower(s), pat, i)
    ensures Contains(Lower(s), pat)
  {
    var t := Lower(s);
    forall k | 0 <= k < |pat| ensures t[i..i + |pat|][k] == pat[k] {
      assert s[i..i + |pat|][k] == s[i + k];
    }
    assert t[i..i + |pat|] == pat;
    assert MatchAt(t, pat, i);
  }

  /** A pattern placed between two texts is found right after the first. */
  lemma MatchBetween(a: string, pat: string, b: string)
    ensures MatchAt(a + pat + b, pat, |a|)
  {
    assert (a + pat + b)[|a|..|a| + |pat|] == pat;
  }
}
