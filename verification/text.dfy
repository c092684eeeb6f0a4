/** The two string operations the filters use: `toLowerCase` and `includes`. */
module Text {

  /** Lower-cases one ASCII letter and leaves every other character alone. */
  function LowerChar(c: char): (r: char)
    ensures 'A' <= c <= 'Z' ==> 'a' <= r <= 'z' && r as int == c as int + 32
    ensures !('A' <= c <= 'Z') ==> r == c
  {
    if 'A' <= c <= 'Z' then (c as int + 32) as char else c
  }

  /** `String.prototype.toLowerCase`, restricted to the ASCII letters. */
  function Lower(s: string): (r: string)
    ensures |r| == |s|
    ensures forall i :: 0 <= i < |s| ==> r[i] == LowerChar(s[i])
  {
    if s == [] then [] else [LowerChar(s[0])] + Lower(s[1..])
  }

  /** `needle` sits in `hay` starting at position `k`. */
  predicate OccursAt(hay: string, needle: string, k: nat) {
    k + |needle| <= |hay| && hay[k..k + |needle|] == needle
  }

  /** `hay.includes(needle)`: `needle` occurs in `hay` as a contiguous block. */
  predicate Contains(hay: string, needle: string): (r: bool)
    ensures r <==> exists k: nat :: OccursAt(hay, needle, k)
    decreases |hay|
  {
    if |needle| > |hay| then false
    else if hay[..|needle|] == needle then
      assert OccursAt(hay, needle, 0);
      true
    else
      var rest := hay[1..];
      assert !OccursAt(hay, needle, 0);
      assert forall k: nat :: OccursAt(rest, needle, k) ==> OccursAt(hay, needle, k + 1);
      assert forall k: nat :: OccursAt(hay, needle, k) ==> k >= 1 && OccursAt(rest, needle, k - 1);
      Contains(rest, needle)
  }

  /** The empty string occurs in every string, so an empty search term filters nothing. */
  lemma ContainsEmpty(hay: string)
    ensures Contains(hay, "")
  {
  }
}
