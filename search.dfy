/** The search box of the minting screen: a summary is shown when the
    lower-cased query occurs in its lower-cased token type. */
module Search {
  import opened Aggregation

  /** Lower-case conversion of one character, on the ASCII letters. */
  function LowerChar(c: char): (d: char)
    ensures 'A' <= c <= 'Z' ==> 'a' <= d <= 'z' && d as int == c as int + 32
    ensures !('A' <= c <= 'Z') ==> d == c
  {
    if 'A' <= c <= 'Z' then (c as int + 32) as char else c
  }

  /** `toLowerCase`, character by character. */
  function ToLower(s: string): (r: string)
    ensures |r| == |s|
    ensures forall i :: 0 <= i < |s| ==> r[i] == LowerChar(s[i])
  {
    if s == [] then [] else [LowerChar(s[0])] + ToLower(s[1..])
  }

  /** Lower-casing twice changes nothing more. */
  lemma ToLowerIdempotent(s: string)
    ensures ToLower(ToLower(s)) == ToLower(s)
  {
  }

  /** `includes`: does `needle` occur in `hay` as a contiguous block? */
  function Contains(hay: string, needle: string): (found: bool)
    ensures needle == [] ==> found
    ensures |needle| > |hay| ==> !found
    decreases |hay|
  {
    if |needle| > |hay| then false
    else hay[..|needle|] == needle || Contains(hay[1..], needle)
  }

  /** `needle` occurs in `hay` starting at index `i`. */
  ghost predicate OccursAt(hay: string, needle: string, i: int) {
    0 <= i && i + |needle| <= |hay| && hay[i..i + |needle|] == needle
  }

  /** `needle` occurs somewhere in `hay`. */
  ghost predicate Occurs(hay: string, needle: string) {
    exists i :: OccursAt(hay, needle, i)
  }

  /** `Contains` finds an occurrence exactly when there is one. */
  lemma {:induction false} ContainsIffOccurs(hay: string, needle: string)
    ensures Contains(hay, needle) <==> Occurs(hay, needle)
    decreases |hay|
  {
    if |needle| > |hay| {
      forall i ensures !OccursAt(hay, needle, i) {
      }
    } else if hay[..|needle|] == needle {
      assert OccursAt(hay, needle, 0);
    } else {
      ContainsIffOccurs(hay[1..], needle);
      if Contains(hay, needle) {
        var j :| OccursAt(hay[1..], needle, j);
        assert hay[1..][j..j + |needle|] == hay[j + 1..j + 1 + |needle|];
        assert OccursAt(hay, needle, j + 1);
      } else {
        forall i | 0 < i && i + |needle| <= |hay|
          ensures !OccursAt(hay, needle, i)
        {
          assert hay[1..][i - 1..i - 1 + |needle|] == hay[i..i + |needle|];
          assert !OccursAt(hay[1..], needle, i - 1);
        }
        assert !OccursAt(hay, needle, 0);
      }
    }
  }

  /** The summaries the screen shows for a search query. */
  function SearchFilter(summaries: map<string, TokenSummary>, query: string): (shown: map<string, TokenSummary>)
    ensures forall k :: k in shown ==> k in summaries && shown[k] == summaries[k]
  {
    map k | k in summaries && Contains(ToLower(summaries[k].tokenType), ToLower(query)) :: summaries[k]
  }

  /** A summary is shown exactly when the lower-cased query occurs somewhere in
      its lower-cased token type. */
  lemma SearchKeepsExactlyMatches(summaries: map<string, TokenSummary>, query: string, k: string)
    requires k in summaries
    ensures k in SearchFilter(summaries, query) <==>
      Occurs(ToLower(summaries[k].tokenType), ToLower(query))
  {
    ContainsIffOccurs(ToLower(summaries[k].tokenType), ToLower(query));
    assert k in SearchFilter(summaries, query) <==> Contains(ToLower(summaries[k].tokenType), ToLower(query));
  }

  /** An empty query shows every summary. */
  lemma EmptyQueryShowsAll(summaries: map<string, TokenSummary>)
    ensures SearchFilter(summaries, "") == summaries
  {
  }

  /** The search ignores ASCII case in the query. */
  lemma SearchIgnoresQueryCase(summaries: map<string, TokenSummary>, query: string)
    ensures SearchFilter(summaries, query) == SearchFilter(summaries, ToLower(query))
  {
    ToLowerIdempotent(query);
  }

  /** Searching for a group's own key always shows that group. */
  lemma SearchFindsOwnName(rows: seq<Allocations.FetchedRow>, k: string)
    requires k in Summaries(rows)
    ensures k in SearchFilter(Summaries(rows), k)
  {
    var lower := ToLower(k);
    assert OccursAt(lower, lower, 0);
    ContainsIffOccurs(lower, lower);
  }
}
