/** NumPy's `argmax` and `max` over the classifier's (flattened) score vector. */
module Scores {

  /**
   * `np.argmax`: the first index holding a maximal score. A later entry
   * replaces the best so far only when it is strictly greater.
   */
  function ArgMax(s: seq<real>): (i: nat)
    requires |s| > 0
    ensures i < |s|
    ensures forall j :: 0 <= j < |s| ==> s[j] <= s[i]
    ensures forall j :: 0 <= j < i ==> s[j] < s[i]
  {
    if |s| == 1 then 0
    else
      var best := ArgMax(s[..|s| - 1]);
      if s[|s| - 1] > s[best] then |s| - 1 else best
  }

  /** `np.max`: the largest score, one of the entries. */
  function Max(s: seq<real>): (m: real)
    requires |s| > 0
    ensures m in s
    ensures forall j :: 0 <= j < |s| ==> s[j] <= m
  {
    if |s| == 1 then s[0]
    else
      var m := Max(s[..|s| - 1]);
      if s[|s| - 1] > m then s[|s| - 1] else m
  }

  /** The confidence the handler reports is the score at the predicted index. */
  lemma MaxAtArgMax(s: seq<real>)
    requires |s| > 0
    ensures Max(s) == s[ArgMax(s)]
  {
  }

  /**
   * The two properties of `ArgMax` pin it down: any index holding a maximal
   * score with only smaller scores before it is the one `ArgMax` returns.
   */
  lemma ArgMaxUnique(s: seq<real>, i: nat)
    requires i < |s|
    requires forall j :: 0 <= j < |s| ==> s[j] <= s[i]
    requires forall j :: 0 <= j < i ==> s[j] < s[i]
    ensures ArgMax(s) == i
  {
  }
}
