/**
 * String searches used by the AI service: `includes` and the greedy
 * regular expression `/\[[\s\S]*\]/` that pulls a JSON array out of a
 * free-text model reply.
 */
module Text {
  import opened Common

  /** JavaScript's `s.includes(t)`. */
  predicate Contains(s: string, t: string) {
    exists i :: 0 <= i <= |s| - |t| && OccursAt(s, t, i)
  }

  /** t occurs in s starting at index i. */
  predicate OccursAt(s: string, t: string, i: int) {
    0 <= i <= |s| - |t| && s[i..i + |t|] == t
  }

  /** Whatever stands between two pieces of text is contained in the whole. */
  lemma ContainsInfix(a: string, t: string, b: string)
    ensures Contains(a + t + b, t)
  {
    var s := a + t + b;
    assert s[|a|..|a| + |t|] == t;
    assert OccursAt(s, t, |a|);
  }

  /** Conversely, a contained t splits its container into a prefix, t and a suffix. */
  lemma ContainsSplit(s: string, t: string) returns (a: string, b: string)
    requires Contains(s, t)
    ensures s == a + t + b
  {
    var i :| 0 <= i <= |s| - |t| && OccursAt(s, t, i);
    a, b := s[..i], s[i + |t|..];
    assert s == s[..i] + s[i..i + |t|] + s[i + |t|..];
  }

  /** Index of the first c in s at or after `from`. */
  function FindFirst(s: string, c: char, from: nat): (r: Option<nat>)
    requires from <= |s|
    ensures r.Some? ==> from <= r.value < |s| && s[r.value] == c
    ensures r.Some? ==> forall k :: from <= k < r.value ==> s[k] != c
    ensures r.None? ==> forall k :: from <= k < |s| ==> s[k] != c
    decreases |s| - from
  {
    if from == |s| then None
    else if s[from] == c then Some(from)
    else FindFirst(s, c, from + 1)
  }

  /** Index of the last c in s strictly before `upto`. */
  function FindLast(s: string, c: char, upto: nat): (r: Option<nat>)
    requires upto <= |s|
    ensures r.Some? ==> r.value < upto && s[r.value] == c
    ensures r.Some? ==> forall k :: r.value < k < upto ==> s[k] != c
    ensures r.None? ==> forall k :: 0 <= k < upto ==> s[k] != c
    decreases upto
  {
    if upto == 0 then None
    else if s[upto - 1] == c then Some(upto - 1)
    else FindLast(s, c, upto - 1)
  }

  /** Some '[' comes before some ']' in s. */
  predicate HasBracketPair(s: string) {
    exists i, j :: 0 <= i < j < |s| && s[i] == '[' && s[j] == ']'
  }

  /**
   * s[i..j+1] is the match the greedy pattern `\[[\s\S]*\]` finds: it
   * starts at the leftmost '[' and ends at the rightmost ']'.
   */
  ghost predicate GreedyBracketMatch(s: string, i: int, j: int) {
    && 0 <= i < j < |s|
    && s[i] == '[' && s[j] == ']'
    && (forall k :: 0 <= k < i ==> s[k] != '[')
    && (forall k :: j < k < |s| ==> s[k] != ']')
  }

  /**
   * `response.match(/\[[\s\S]*\]/)`: the span from the first '[' to the
   * last ']' inclusive, or no match when no '[' precedes a ']'.
   */
  function ExtractJsonArray(s: string): (r: Option<string>)
    ensures r.Some? <==> HasBracketPair(s)
    ensures r.Some? ==> exists i, j :: GreedyBracketMatch(s, i, j) && r.value == s[i..j + 1]
  {
    var open := FindFirst(s, '[', 0);
    var close := FindLast(s, ']', |s|);
    if open.Some? && close.Some? && open.value < close.value then
      assert GreedyBracketMatch(s, open.value, close.value);
      Some(s[open.value..close.value + 1])
    else
      None
  }
}
