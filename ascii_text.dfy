/** ASCII case mapping and substring search: the parts of Python's `str`
    that the merch generator relies on (`lower()`, `capitalize()` and the
    `in` operator on strings). Only ASCII letters change case here. */
module AsciiText {

  predicate IsUpper(c: char) { 'A' <= c <= 'Z' }

  predicate IsLower(c: char) { 'a' <= c <= 'z' }

  /** One character of `str.lower()`, restricted to ASCII. */
  function LowerChar(c: char): (r: char)
    ensures !IsUpper(r)
    ensures IsUpper(c) ==> IsLower(r) && r as int - c as int == 32
    ensures !IsUpper(c) ==> r == c
  {
    if IsUpper(c) then (c as int + 32) as char else c
  }

  /** One character of `str.upper()`, restricted to ASCII. */
  function UpperChar(c: char): (r: char)
    ensures !IsLower(r)
    ensures IsLower(c) ==> IsUpper(r) && c as int - r as int == 32
    ensures !IsLower(c) ==> r == c
  {
    if IsLower(c) then (c as int - 32) as char else c
  }

  /** `s.lower()`: every character mapped by LowerChar, nothing else changes. */
  function Lower(s: string): (r: string)
    ensures |r| == |s|
    ensures forall i :: 0 <= i < |s| ==> r[i] == LowerChar(s[i])
  {
    seq(|s|, i requires 0 <= i < |s| => LowerChar(s[i]))
  }

  /** `s.capitalize()`: the first character upper-cased, the rest lower-cased. */
  function Capitalize(s: string): (r: string)
    ensures |r| == |s|
    ensures |s| > 0 ==> !IsLower(r[0]) && LowerChar(r[0]) == LowerChar(s[0])
    ensures forall i :: 0 < i < |s| ==> !IsUpper(r[i])
    ensures Lower(r) == Lower(s)
  {
    if s == [] then [] else [UpperChar(s[0])] + Lower(s[1..])
  }

  /** Lower-casing twice is lower-casing once. */
  lemma LowerIdempotent(s: string)
    ensures Lower(Lower(s)) == Lower(s)
  {
    assert forall i :: 0 <= i < |s| ==> Lower(Lower(s))[i] == Lower(s)[i];
  }

  /** Text without upper-case letters is its own lower-cased form. */
  lemma LowerOfLowerCase(s: string)
    requires forall i :: 0 <= i < |s| ==> !IsUpper(s[i])
    ensures Lower(s) == s
  {
  }

  /** Capitalizing only looks at letters up to case. */
  lemma CapitalizeIgnoresCase(s: string)
    ensures Capitalize(Lower(s)) == Capitalize(s)
  {
    if s != [] {
      assert Lower(s)[1..] == Lower(s[1..]);
      LowerIdempotent(s[1..]);
    }
  }

  /** `pat` is a prefix of `text` (`text.startswith(pat)`). */
  predicate StartsWith(text: string, pat: string)
  {
    |pat| <= |text| && text[..|pat|] == pat
  }

  /** Python's `pat in text`, as a left-to-right scan. */
  predicate Contains(text: string, pat: string)
    decreases |text|
  {
    StartsWith(text, pat) || (|text| > 0 && Contains(text[1..], pat))
  }

  /** `pat` appears in `text` starting at index `i`. */
  ghost predicate OccursAt(text: string, pat: string, i: int)
  {
    0 <= i && i + |pat| <= |text| && text[i..i + |pat|] == pat
  }

  /** Reference definition of substring containment: some occurrence exists. */
  ghost predicate Occurs(text: string, pat: string)
  {
    exists i :: OccursAt(text, pat, i)
  }

  /** An occurrence in the tail is an occurrence one place further right. */
  lemma OccursAtTail(text: string, pat: string, j: int)
    requires |text| > 0 && 0 <= j
    ensures OccursAt(text[1..], pat, j) <==> OccursAt(text, pat, j + 1)
  {
    if 0 <= j && j + 1 + |pat| <= |text| {
      assert text[1..][j..j + |pat|] == text[j + 1..j + 1 + |pat|];
    }
  }

  /** The scan finds `pat` exactly when it occurs somewhere in `text`. */
  lemma {:induction false} ContainsIffOccurs(text: string, pat: string)
    ensures Contains(text, pat) <==> Occurs(text, pat)
    decreases |text|
  {
    if StartsWith(text, pat) {
      assert OccursAt(text, pat, 0);
    } else if Occurs(text, pat) {
      var i :| OccursAt(text, pat, i);
      assert i != 0;
      OccursAtTail(text, pat, i - 1);
      ContainsIffOccurs(text[1..], pat);
    } else if |text| > 0 {
      ContainsIffOccurs(text[1..], pat);
      if Occurs(text[1..], pat) {
        var j :| OccursAt(text[1..], pat, j);
        OccursAtTail(text, pat, j);
      }
    }
  }

  /** Whatever contains `a + b` contains `b`. */
  lemma OccursOfSuffix(text: string, a: string, b: string)
    requires Occurs(text, a + b)
    ensures Occurs(text, b)
  {
    var i :| OccursAt(text, a + b, i);
    assert text[i + |a|..i + |a| + |b|] == (a + b)[|a|..];
    assert OccursAt(text, b, i + |a|);
  }
}
