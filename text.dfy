/**
 * Text primitives behind the habitat classifier: `toLowerCase` and
 * `includes`, plus two refutation lemmas that establish that a keyword does
 * NOT occur in a literal name without unfolding the search.
 */
module Text {
  /** `toLowerCase` on one character, restricted to ASCII letters. */
  function LowerChar(c: char): (r: char)
    ensures 'A' <= c <= 'Z' ==> r as int == c as int + 32
    ensures !('A' <= c <= 'Z') ==> r == c
  {
    if 'A' <= c <= 'Z' then (c as int + 32) as char else c
  }

  /** `s.toLowerCase()` for ASCII text: the same length, each character lowered. */
  function Lower(s: string): (r: string)
    ensures |r| == |s|
    ensures forall i :: 0 <= i < |s| ==> r[i] == LowerChar(s[i])
  {
    if s == [] then [] else [LowerChar(s[0])] + Lower(s[1..])
  }

  /** Lower-casing twice is lower-casing once. */
  lemma LowerIdempotent(s: string)
    ensures Lower(Lower(s)) == Lower(s)
  {
    assert forall i :: 0 <= i < |s| ==> LowerChar(LowerChar(s[i])) == LowerChar(s[i]);
  }

  /** `t` is the lower-cased `s` when they agree character by character. */
  lemma LowerIs(s: string, t: string)
    requires |s| == |t| && forall i :: 0 <= i < |s| ==> LowerChar(s[i]) == t[i]
    ensures Lower(s) == t
  {
  }

  /** `k` occurs in `s` starting at index `i`. */
  predicate OccursAt(s: string, k: string, i: int)
  {
    0 <= i && i + |k| <= |s| && s[i..i + |k|] == k
  }

  /** `s.includes(k)`. */
  predicate Contains(s: string, k: string)
  {
    exists i :: 0 <= i <= |s| - |k| && OccursAt(s, k, i)
  }

  /** Every string includes the empty string and itself. */
  lemma ContainsTrivia(s: string)
    ensures Contains(s, "") && Contains(s, s)
  {
    assert OccursAt(s, "", 0);
    assert OccursAt(s, s, 0);
  }

  /** A keyword containing a character that `s` lacks does not occur in `s`. */
  lemma MissingChar(s: string, k: string, c: char)
    requires c in k && c !in s
    ensures !Contains(s, k)
  {
    var j :| 0 <= j < |k| && k[j] == c;
    forall i | 0 <= i <= |s| - |k| ensures !OccursAt(s, k, i) {
      assert s[i..i + |k|][j] == s[i + j] != c;
    }
  }

  /** A keyword containing two adjacent characters that are never adjacent
      in `s` does not occur in `s`. */
  lemma MissingPair(s: string, k: string, j: nat)
    requires j + 1 < |k|
    requires forall i :: 0 <= i < |s| - 1 ==> !(s[i] == k[j] && s[i + 1] == k[j + 1])
    ensures !Contains(s, k)
  {
    forall i | 0 <= i <= |s| - |k| ensures !OccursAt(s, k, i) {
      var w := s[i..i + |k|];
      assert w[j] == s[i + j] && w[j + 1] == s[i + j + 1];
    }
  }

  /** The keywords `table[lo..lo + |idx|]` do not occur in `s`: for each,
      `idx` names one of its characters that `s` lacks. */
  lemma NoneOccur(s: string, table: seq<string>, lo: nat, idx: seq<nat>)
    requires lo + |idx| <= |table|
    requires forall n :: 0 <= n < |idx| ==> idx[n] < |table[lo + n]| && table[lo + n][idx[n]] !in s
    ensures forall n :: lo <= n < lo + |idx| ==> !Contains(s, table[n])
  {
    forall n | lo <= n < lo + |idx| ensures !Contains(s, table[n]) {
      MissingChar(s, table[n], table[n][idx[n - lo]]);
    }
  }
}
