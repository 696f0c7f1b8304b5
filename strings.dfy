/**
 * The two string operations the upload matching relies on: lower-casing a file
 * name and testing whether a keyword occurs in it as a substring. Lower-casing
 * is ASCII only; the keywords it is compared with are ASCII lower case.
 */
module Strings {

  predicate IsUpperAscii(c: char) {
    'A' <= c <= 'Z'
  }

  /** True when no character of `s` is an ASCII capital letter. */
  predicate IsLowerAscii(s: string) {
    forall i :: 0 <= i < |s| ==> !IsUpperAscii(s[i])
  }

  /** Lower-casing of one character: a capital letter becomes the small letter
      at the same position of the alphabet, every other character is kept. */
  function LowerChar(c: char): (d: char)
    ensures !IsUpperAscii(d)
    ensures !IsUpperAscii(c) ==> d == c
    ensures IsUpperAscii(c) ==> 'a' <= d <= 'z' && d as int - 'a' as int == c as int - 'A' as int
  {
    if IsUpperAscii(c) then (c as int + 32) as char else c
  }

  /** Lower-casing of a whole string, character by character. */
  function Lower(s: string): (r: string)
    ensures |r| == |s|
    ensures forall i :: 0 <= i < |s| ==> r[i] == LowerChar(s[i])
    ensures IsLowerAscii(r)
  {
    if s == [] then [] else [LowerChar(s[0])] + Lower(s[1..])
  }

  /** `k` occurs in `s` starting at position `i`. */
  ghost predicate OccursAt(s: string, k: string, i: nat) {
    i + |k| <= |s| && s[i..i + |k|] == k
  }

  /** `k` occurs in `s` at position `i` when capitals and small letters are
      not told apart: character by character, both lower-case to the same. */
  ghost predicate OccursIgnoringCase(s: string, k: string, i: nat) {
    i + |k| <= |s| && forall p :: 0 <= p < |k| ==> LowerChar(s[i + p]) == LowerChar(k[p])
  }

  /** The substring test `k in s`: `k` occurs somewhere in `s` (the empty
      string occurs in every string). */
  function Contains(s: string, k: string): (b: bool)
    ensures b <==> exists i: nat :: OccursAt(s, k, i)
    decreases |s|
  {
    if |k| <= |s| && s[..|k|] == k then
      assert OccursAt(s, k, 0);
      true
    else if s == [] then
      false
    else
      assert forall i: nat :: OccursAt(s[1..], k, i) ==> OccursAt(s, k, i + 1) by {
        forall i: nat | OccursAt(s[1..], k, i) ensures OccursAt(s, k, i + 1) {
          assert s[1..][i..i + |k|] == s[i + 1..i + 1 + |k|];
        }
      }
      assert forall i: nat :: OccursAt(s, k, i) ==> i > 0 && OccursAt(s[1..], k, i - 1) by {
        forall i: nat | OccursAt(s, k, i) ensures i > 0 && OccursAt(s[1..], k, i - 1) {
          assert i > 0;
          assert s[1..][i - 1..i - 1 + |k|] == s[i..i + |k|];
        }
      }
      Contains(s[1..], k)
  }

  /** Searching a lower-cased name for a lower-case keyword finds exactly the
      places where the name spells the keyword in any mix of capitals and
      small letters. */
  lemma ContainsLowerIgnoresCase(s: string, k: string)
    requires IsLowerAscii(k)
    ensures Contains(Lower(s), k) <==> exists i: nat :: OccursIgnoringCase(s, k, i)
  {
    var low := Lower(s);
    forall i: nat ensures OccursAt(low, k, i) <==> OccursIgnoringCase(s, k, i) {
      if i + |k| <= |s| {
        var window := low[i..i + |k|];
        forall p | 0 <= p < |k| ensures window[p] == low[i + p] == LowerChar(s[i + p]) && LowerChar(k[p]) == k[p] {
        }
        if OccursIgnoringCase(s, k, i) {
          assert window == k;
        }
      }
    }
  }
}
