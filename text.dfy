/** The string operations the keyword rules rely on: Python's `str.lower()`
    (restricted to ASCII letters) and the substring test `needle in haystack`. */
module Text {

  /** `c.lower()` for an ASCII letter; every other character is kept. */
  function LowerChar(c: char): char {
    if 'A' <= c <= 'Z' then (c as int + 32) as char else c
  }

  /** `s.lower()`. */
  function Lower(s: string): (r: string)
    ensures |r| == |s|
    ensures forall i :: 0 <= i < |s| ==> r[i] == LowerChar(s[i])
  {
    if s == [] then [] else [LowerChar(s[0])] + Lower(s[1..])
  }

  predicate StartsWith(s: string, prefix: string) {
    |prefix| <= |s| && s[..|prefix|] == prefix
  }

  /** Python's `needle in s` for strings. */
  predicate Contains(s: string, needle: string)
    decreases |s|
  {
    StartsWith(s, needle) || (s != [] && Contains(s[1..], needle))
  }

  /** `needle` occurs in `s` starting at offset `i`. */
  predicate OccursAt(s: string, needle: string, i: nat) {
    i + |needle| <= |s| && s[i..i + |needle|] == needle
  }

  /** A slice of a slice is a slice of the whole. */
  lemma SliceOfSlice(s: string, i: nat, n: nat, a: nat, b: nat)
    requires i + n <= |s| && a <= b <= n
    ensures s[i..i + n][a..b] == s[i + a..i + b]
  {
    var inner, whole := s[i..i + n][a..b], s[i + a..i + b];
    forall j | 0 <= j < |inner|
      ensures inner[j] == whole[j]
    {
    }
  }

  /** A needle found at offset `i` is contained. */
  lemma {:induction false} ContainsAt(s: string, needle: string, i: nat)
    requires OccursAt(s, needle, i)
    ensures Contains(s, needle)
    decreases i
  {
    if i > 0 {
      SliceOfSlice(s, 1, |s| - 1, i - 1, i - 1 + |needle|);
      ContainsAt(s[1..], needle, i - 1);
    }
  }

  /** An offset at which a contained needle occurs (the first one). */
  function IndexOf(s: string, needle: string): (i: nat)
    requires Contains(s, needle)
    ensures OccursAt(s, needle, i)
    decreases |s|
  {
    if StartsWith(s, needle) then 0
    else
      var k := IndexOf(s[1..], needle);
      SliceOfSlice(s, 1, |s| - 1, k, k + |needle|);
      1 + k
  }

  /** The recursive test agrees with the offset definition of a substring. */
  lemma ContainsIff(s: string, needle: string)
    ensures Contains(s, needle) <==> exists i: nat :: OccursAt(s, needle, i)
  {
    if Contains(s, needle) {
      assert OccursAt(s, needle, IndexOf(s, needle));
    }
    if exists i: nat :: OccursAt(s, needle, i) {
      var i: nat :| OccursAt(s, needle, i);
      ContainsAt(s, needle, i);
    }
  }

  /** Substring containment is transitive: a string holding `mid` holds
      every substring of `mid`. */
  lemma ContainsTransitive(s: string, mid: string, needle: string)
    requires Contains(s, mid) && Contains(mid, needle)
    ensures Contains(s, needle)
  {
    var i := IndexOf(s, mid);
    var j := IndexOf(mid, needle);
    SliceOfSlice(s, i, |mid|, j, j + |needle|);
    ContainsAt(s, needle, i + j);
  }

  /** Every string contains the empty string (`"" in s` is true). */
  lemma ContainsEmpty(s: string)
    ensures Contains(s, "")
  {
    assert StartsWith(s, "");
  }

  /** Python's `any(term in s for term in terms)`. */
  predicate ContainsAny(s: string, terms: seq<string>) {
    exists k :: 0 <= k < |terms| && Contains(s, terms[k])
  }
}
