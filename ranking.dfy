/**
 * `padroes.sort(key=lambda x: x[2], reverse=True)` followed by `padroes[0]`:
 * a stable sort by descending confidence, and the match it puts first.
 */
module Ranking {
  import opened Patterns

  /** Confidences never increase along `ms`. */
  predicate ByConfidence(ms: seq<Match>) {
    forall i, j :: 0 <= i < j < |ms| ==> ms[i].confidence >= ms[j].confidence
  }

  /** `k` is the position of the first match of highest confidence in `ms`. */
  predicate IsFirstMaximum(ms: seq<Match>, k: int) {
    && 0 <= k < |ms|
    && (forall j :: 0 <= j < |ms| ==> ms[j].confidence <= ms[k].confidence)
    && (forall j :: 0 <= j < k ==> ms[j].confidence < ms[k].confidence)
  }

  /** Rule numbers never decrease along `ms`. */
  predicate ByRuleNumber(ms: seq<Match>) {
    forall i, j :: 0 <= i < j < |ms| ==> ms[i].rule.Number() <= ms[j].rule.Number()
  }

  /** The position of the first match of highest confidence. */
  function FirstMaximum(ms: seq<Match>): (k: nat)
    requires ms != []
    ensures IsFirstMaximum(ms, k)
    decreases |ms|
  {
    if |ms| == 1 then 0
    else
      var k := FirstMaximum(ms[1..]) + 1;
      if ms[0].confidence >= ms[k].confidence then 0 else k
  }

  /**
   * In a list ordered by rule number, the first match of highest confidence
   * has no rival: no match has higher confidence, and none of equal confidence
   * comes from a rule of lower number.
   */
  lemma FirstMaximumLeads(ms: seq<Match>)
    requires ms != [] && ByRuleNumber(ms)
    ensures forall x :: x in ms ==> x.confidence <= ms[FirstMaximum(ms)].confidence
    ensures forall x :: x in ms && x.confidence == ms[FirstMaximum(ms)].confidence ==>
              ms[FirstMaximum(ms)].rule.Number() <= x.rule.Number()
  {
    var k := FirstMaximum(ms);
    forall x | x in ms
      ensures x.confidence <= ms[k].confidence
      ensures x.confidence == ms[k].confidence ==> ms[k].rule.Number() <= x.rule.Number()
    {
      var j :| 0 <= j < |ms| && ms[j] == x;
      if j < k {
        assert x.confidence < ms[k].confidence;
      } else if k < j {
        assert ms[k].rule.Number() <= x.rule.Number();
      }
    }
  }

  /**
   * Puts `m` after the matches of strictly higher confidence and before the
   * others, so that `m`, which came first, stays ahead of its equals.
   */
  function Insert(m: Match, s: seq<Match>): seq<Match> {
    if s == [] || s[0].confidence <= m.confidence then [m] + s
    else [s[0]] + Insert(m, s[1..])
  }

  /** Python's stable `list.sort` by descending confidence, written as an insertion sort. */
  function SortByConfidence(ms: seq<Match>): seq<Match> {
    if ms == [] then [] else Insert(ms[0], SortByConfidence(ms[1..]))
  }

  /** Inserting adds exactly `m` and nothing else. */
  lemma {:induction false} InsertAdds(m: Match, s: seq<Match>)
    ensures multiset(Insert(m, s)) == multiset(s) + multiset{m}
    ensures |Insert(m, s)| == |s| + 1
  {
    if s != [] && s[0].confidence > m.confidence {
      InsertAdds(m, s[1..]);
      assert s == [s[0]] + s[1..];
    }
  }

  /** Inserting into a list ordered by confidence keeps it ordered. */
  lemma {:induction false} InsertKeepsOrder(m: Match, s: seq<Match>)
    requires ByConfidence(s)
    ensures ByConfidence(Insert(m, s))
  {
    if s != [] && s[0].confidence > m.confidence {
      InsertKeepsOrder(m, s[1..]);
      InsertAdds(m, s[1..]);
      var rest := Insert(m, s[1..]);
      forall x | x in rest ensures x.confidence <= s[0].confidence {
        assert x in multiset(rest);
      }
    }
  }

  /** The sort returns a permutation of its input. */
  lemma {:induction false} SortIsPermutation(ms: seq<Match>)
    ensures multiset(SortByConfidence(ms)) == multiset(ms)
    ensures |SortByConfidence(ms)| == |ms|
  {
    if ms != [] {
      SortIsPermutation(ms[1..]);
      InsertAdds(ms[0], SortByConfidence(ms[1..]));
      assert ms == [ms[0]] + ms[1..];
    }
  }

  /** The sort returns its input ordered by descending confidence. */
  lemma {:induction false} SortIsOrdered(ms: seq<Match>)
    ensures ByConfidence(SortByConfidence(ms))
  {
    if ms != [] {
      SortIsOrdered(ms[1..]);
      InsertKeepsOrder(ms[0], SortByConfidence(ms[1..]));
    }
  }

  /** After the stable descending sort, position 0 holds the first match of highest confidence. */
  lemma {:induction false} SortedHeadIsFirstMaximum(ms: seq<Match>)
    requires ms != []
    ensures SortByConfidence(ms)[0] == ms[FirstMaximum(ms)]
    decreases |ms|
  {
    if |ms| > 1 {
      var tail := ms[1..];
      SortedHeadIsFirstMaximum(tail);
      SortIsPermutation(tail);
      assert SortByConfidence(tail)[0] == ms[FirstMaximum(tail) + 1];
    }
  }
}
