/**
 * The two string operations the recommender relies on: lower-casing
 * (`str.lower()`, modelled on the ASCII letters only) and substring
 * containment (Python's `needle in hay` on strings).
 */
module Text {

  predicate IsUpper(c: char) {
    'A' <= c <= 'Z'
  }

  /** No ASCII upper-case letter anywhere in `s`. */
  predicate IsLowerText(s: string) {
    forall i :: 0 <= i < |s| ==> !IsUpper(s[i])
  }

  /** Lower-cases one ASCII letter; every other character is kept. */
  function LowerChar(c: char): (r: char)
    ensures !IsUpper(r)
    ensures !IsUpper(c) ==> r == c
  {
    if IsUpper(c) then (c as int + 32) as char else c
  }

  /** `s.lower()`, restricted to ASCII letters. */
  function Lower(s: string): (r: string)
    ensures |r| == |s|
    ensures IsLowerText(r)
    ensures forall i :: 0 <= i < |s| && IsUpper(s[i]) ==> r[i] as int == s[i] as int + 32
    ensures forall i :: 0 <= i < |s| && !IsUpper(s[i]) ==> r[i] == s[i]
  {
    seq(|s|, i requires 0 <= i < |s| => LowerChar(s[i]))
  }

  /** Text that is already lower case is left unchanged. */
  lemma LowerKeepsLowerText(s: string)
    requires IsLowerText(s)
    ensures Lower(s) == s
  {
  }

  /** Lower-casing twice is lower-casing once. */
  lemma LowerIdempotent(s: string)
    ensures Lower(Lower(s)) == Lower(s)
  {
    LowerKeepsLowerText(Lower(s));
  }

  /** Lower-casing works piecewise on a concatenation. */
  lemma LowerConcat(a: string, b: string)
    ensures Lower(a + b) == Lower(a) + Lower(b)
  {
  }

  /** `needle` occurs in `hay` starting at offset `i`. */
  ghost predicate OccursAt(needle: string, hay: string, i: int) {
    0 <= i && i + |needle| <= |hay| && hay[i..i + |needle|] == needle
  }

  /** Reference meaning of Python's `needle in hay`: some offset holds a copy of `needle`. */
  ghost predicate Occurs(needle: string, hay: string) {
    exists i :: OccursAt(needle, hay, i)
  }

  /** When `needle` is not a prefix of `hay`, its occurrences are those in `hay` minus its first character. */
  lemma OccursShift(needle: string, hay: string)
    requires |needle| <= |hay|
    requires hay[..|needle|] != needle
    ensures 0 < |hay|
    ensures Occurs(needle, hay) <==> Occurs(needle, hay[1..])
  {
    if Occurs(needle, hay) {
      var i :| OccursAt(needle, hay, i);
      assert i != 0;
      assert hay[1..][i - 1..i - 1 + |needle|] == hay[i..i + |needle|];
      assert OccursAt(needle, hay[1..], i - 1);
    }
    if Occurs(needle, hay[1..]) {
      var j :| OccursAt(needle, hay[1..], j);
      assert hay[j + 1..j + 1 + |needle|] == hay[1..][j..j + |needle|];
      assert OccursAt(needle, hay, j + 1);
    }
  }

  /** Executable substring search, left to right; agrees with `Occurs` on every input. */
  function Contains(needle: string, hay: string): (r: bool)
    ensures r <==> Occurs(needle, hay)
    decreases |hay|
  {
    if |hay| < |needle| then
      false
    else if hay[..|needle|] == needle then
      assert OccursAt(needle, hay, 0);
      true
    else
      OccursShift(needle, hay);
      Contains(needle, hay[1..])
  }

  /** A needle with a character that `hay` lacks cannot occur in it. */
  lemma MissingCharExcludes(needle: string, hay: string, k: int)
    requires 0 <= k < |needle|
    requires needle[k] !in hay
    ensures !Occurs(needle, hay)
  {
    forall i | 0 <= i && i + |needle| <= |hay|
      ensures !OccursAt(needle, hay, i)
    {
      assert hay[i + k] in hay;
      assert hay[i..i + |needle|][k] == hay[i + k];
    }
  }

  /** An occurrence survives text added on either side. */
  lemma OccursInContext(needle: string, pre: string, hay: string, post: string)
    requires Occurs(needle, hay)
    ensures Occurs(needle, pre + hay + post)
  {
    var i :| OccursAt(needle, hay, i);
    var whole := pre + hay + post;
    assert whole[|pre| + i..|pre| + i + |needle|] == hay[i..i + |needle|];
    assert OccursAt(needle, whole, |pre| + i);
  }
}
