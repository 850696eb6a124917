/** `result.indexOf(Math.max(...result))`: the position the handlers report as
    the top prediction. The collaborator's result vector is a sequence of
    finite numbers. */
module Argmax {

  /** `Math.max` of a non-empty vector: an element that no element exceeds. */
  function Max(s: seq<real>): (m: real)
    requires |s| > 0
    ensures m in s
    ensures forall i :: 0 <= i < |s| ==> s[i] <= m
    decreases |s|
  {
    if |s| == 1 then s[0]
    else
      var rest := Max(s[1..]);
      if s[0] >= rest then s[0] else rest
  }

  /** `Array.prototype.indexOf` with strict equality: the first position holding
      `v`, or -1 when there is none. */
  function IndexOf(s: seq<real>, v: real): (k: int)
    ensures -1 <= k < |s|
    ensures k == -1 <==> v !in s
    ensures 0 <= k ==> s[k] == v && forall j :: 0 <= j < k ==> s[j] != v
    decreases |s|
  {
    if |s| == 0 then -1
    else if s[0] == v then 0
    else
      var k := IndexOf(s[1..], v);
      if k == -1 then -1 else k + 1
  }

  /** `k` is the lowest position of a maximal element of `s`. */
  predicate IsFirstMax(s: seq<real>, k: int) {
    && 0 <= k < |s|
    && (forall j :: 0 <= j < |s| ==> s[j] <= s[k])
    && (forall j :: 0 <= j < k ==> s[j] < s[k])
  }

  /** The reported index. `Math.max()` of no arguments is -Infinity, which no
      element equals, so an empty vector reports -1. */
  function TopPredictionIndex(s: seq<real>): (k: int)
    ensures |s| == 0 ==> k == -1
    ensures |s| > 0 ==> IsFirstMax(s, k)
  {
    if |s| == 0 then -1 else IndexOf(s, Max(s))
  }

  /** At most one position is the first maximum, so the two ensures of
      TopPredictionIndex determine it. */
  lemma FirstMaxUnique(s: seq<real>, k1: int, k2: int)
    requires IsFirstMax(s, k1) && IsFirstMax(s, k2)
    ensures k1 == k2
  {
    assert s[k2] <= s[k1] && s[k1] <= s[k2];
  }

  /** TopPredictionIndex is the only position satisfying the characterisation. */
  lemma TopPredictionIndexCharacterised(s: seq<real>, k: int)
    ensures TopPredictionIndex(s) == k <==> (if |s| == 0 then k == -1 else IsFirstMax(s, k))
  {
    if |s| > 0 && IsFirstMax(s, k) {
      FirstMaxUnique(s, k, TopPredictionIndex(s));
    }
  }

  /** A stub returning [0.1, 0.7, 0.2] always yields top index 1. */
  lemma StubVectorTopIndex()
    ensures TopPredictionIndex([0.1, 0.7, 0.2]) == 1
  {
    assert IsFirstMax([0.1, 0.7, 0.2], 1);
    TopPredictionIndexCharacterised([0.1, 0.7, 0.2], 1);
  }

  /** Ties go to the earliest position. */
  lemma TiesGoToFirst()
    ensures TopPredictionIndex([0.3, 0.9, 0.9]) == 1
  {
    assert IsFirstMax([0.3, 0.9, 0.9], 1);
    TopPredictionIndexCharacterised([0.3, 0.9, 0.9], 1);
  }
}
