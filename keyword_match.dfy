/** First-match keyword classification, the reference definition for the two
    canned-reply if-chains of the application (the mock WebSocket server's
    `generateMockResponse` and the companion chat's `getMockResponse`). */
module KeywordMatch {
  import opened Js

  /** Some keyword of `group` occurs in `s`. */
  predicate MatchesAny(s: string, group: seq<string>) {
    exists k :: 0 <= k < |group| && Contains(s, group[k])
  }

  /** The index of the first group with a keyword occurring in `s`, or
      `|groups|` when no group matches. */
  function FirstMatch(groups: seq<seq<string>>, s: string): (r: nat)
    ensures r <= |groups|
    ensures forall j :: 0 <= j < r ==> !MatchesAny(s, groups[j])
    ensures r < |groups| ==> MatchesAny(s, groups[r])
  {
    FirstMatchFrom(groups, s, 0)
  }

  function FirstMatchFrom(groups: seq<seq<string>>, s: string, from: nat): (r: nat)
    requires from <= |groups|
    ensures from <= r <= |groups|
    ensures forall j :: from <= j < r ==> !MatchesAny(s, groups[j])
    ensures r < |groups| ==> MatchesAny(s, groups[r])
    decreases |groups| - from
  {
    if from == |groups| then from
    else if MatchesAny(s, groups[from]) then from
    else FirstMatchFrom(groups, s, from + 1)
  }
}
