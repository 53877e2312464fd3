/** Score tables and the accumulation step that adds one answer's weighted
    contribution to them. A score table maps a trait to its running total; a
    trait with no entry yet counts as 0. A question's weights on one axis are
    the (trait, weight) entries of an object literal, in written order. */
module Scoring {

  /** The score of trait t: its entry, or 0 when it has none (`scores[t] || 0`). */
  function ScoreOf<K>(scores: map<K, int>, t: K): int {
    if t in scores then scores[t] else 0
  }

  /** No trait is listed twice (object literal keys are distinct). */
  predicate DistinctKeys<K(==)>(weights: seq<(K, int)>) {
    forall i, j | 0 <= i < j < |weights| :: weights[i].0 != weights[j].0
  }

  /** The traits listed in the weights. */
  function KeysOf<K>(weights: seq<(K, int)>): set<K> {
    if weights == [] then {}
    else
      var n := |weights| - 1;
      KeysOf(weights[..n]) + {weights[n].0}
  }

  /** The total weight listed for trait t: its weight when listed once, 0
      when not listed. */
  function WeightOf<K(==)>(weights: seq<(K, int)>, t: K): int {
    if weights == [] then 0
    else
      var n := |weights| - 1;
      WeightOf(weights[..n], t) + (if weights[n].0 == t then weights[n].1 else 0)
  }

  /** The score table after answering with value v a question with these
      weights: each listed entry in turn replaces its trait's score by the
      score so far (0 when missing) plus weight * v. */
  function Accumulate<K>(scores: map<K, int>, weights: seq<(K, int)>, v: int): map<K, int> {
    if weights == [] then scores
    else
      var n := |weights| - 1;
      var r := Accumulate(scores, weights[..n], v);
      r[weights[n].0 := ScoreOf(r, weights[n].0) + weights[n].1 * v]
  }

  /** A listed trait's total weight is its one weight when it is listed once. */
  lemma {:induction false} WeightOfListed<K>(weights: seq<(K, int)>, i: nat)
    requires DistinctKeys(weights) && i < |weights|
    ensures WeightOf(weights, weights[i].0) == weights[i].1
  {
    var n := |weights| - 1;
    var t := weights[i].0;
    if i < n {
      WeightOfListed(weights[..n], i);
    } else {
      KeysOfUnlisted(weights[..n], t);
      WeightOfUnlisted(weights[..n], t);
    }
  }

  /** A trait differing from every listed one is not among the keys. */
  lemma {:induction false} KeysOfUnlisted<K>(weights: seq<(K, int)>, t: K)
    requires forall i | 0 <= i < |weights| :: weights[i].0 != t
    ensures t !in KeysOf(weights)
  {
    if weights != [] {
      KeysOfUnlisted(weights[..|weights| - 1], t);
    }
  }

  /** Every listed trait is among the keys. */
  lemma {:induction false} KeysOfHas<K>(weights: seq<(K, int)>, i: nat)
    requires i < |weights|
    ensures weights[i].0 in KeysOf(weights)
  {
    var n := |weights| - 1;
    if i < n {
      KeysOfHas(weights[..n], i);
    }
  }

  /** An unlisted trait has total weight 0. */
  lemma {:induction false} WeightOfUnlisted<K>(weights: seq<(K, int)>, t: K)
    requires t !in KeysOf(weights)
    ensures WeightOf(weights, t) == 0
  {
    if weights != [] {
      WeightOfUnlisted(weights[..|weights| - 1], t);
    }
  }

  /** The traits with an entry afterwards are the old ones plus the listed ones. */
  lemma {:induction false} AccumulateKeys<K>(scores: map<K, int>, weights: seq<(K, int)>, v: int)
    ensures Accumulate(scores, weights, v).Keys == scores.Keys + KeysOf(weights)
  {
    if weights != [] {
      AccumulateKeys(scores, weights[..|weights| - 1], v);
    }
  }

  /** Every trait's score, entry or not, is its old score plus its total
      weight times the value. */
  lemma {:induction false} AccumulateScore<K>(scores: map<K, int>, weights: seq<(K, int)>, v: int, t: K)
    ensures ScoreOf(Accumulate(scores, weights, v), t) == ScoreOf(scores, t) + WeightOf(weights, t) * v
  {
    if weights != [] {
      var n := |weights| - 1;
      AccumulateScore(scores, weights[..n], v, t);
      if weights[n].0 == t {
        var p := WeightOf(weights[..n], t);
        assert (p + weights[n].1) * v == p * v + weights[n].1 * v;
      }
    }
  }

  /** The accumulated table in closed form: the old traits plus the listed
      ones, each with its old score plus its total weight times v. */
  lemma AccumulateClosedForm<K>(scores: map<K, int>, weights: seq<(K, int)>, v: int)
    ensures Accumulate(scores, weights, v)
      == map t | t in scores.Keys + KeysOf(weights) :: ScoreOf(scores, t) + WeightOf(weights, t) * v
  {
    var a := Accumulate(scores, weights, v);
    AccumulateKeys(scores, weights, v);
    forall t | t in a ensures a[t] == ScoreOf(scores, t) + WeightOf(weights, t) * v {
      AccumulateScore(scores, weights, v, t);
    }
  }

  /** What one answer does to a score table: a listed trait's score grows by
      its weight times the value; every other trait keeps its entry, or its
      absence, and its score. */
  lemma AccumulateEffect<K>(scores: map<K, int>, weights: seq<(K, int)>, v: int)
    requires DistinctKeys(weights)
    ensures var r := Accumulate(scores, weights, v);
      && (forall i | 0 <= i < |weights| :: weights[i].0 in r && r[weights[i].0] == ScoreOf(scores, weights[i].0) + weights[i].1 * v)
      && (forall t | t !in KeysOf(weights) :: (t in r <==> t in scores) && ScoreOf(r, t) == ScoreOf(scores, t))
  {
    AccumulateKeys(scores, weights, v);
    forall i | 0 <= i < |weights|
      ensures weights[i].0 in KeysOf(weights)
      ensures ScoreOf(Accumulate(scores, weights, v), weights[i].0) == ScoreOf(scores, weights[i].0) + weights[i].1 * v
    {
      KeysOfHas(weights, i);
      WeightOfListed(weights, i);
      AccumulateScore(scores, weights, v, weights[i].0);
    }
    forall t | t !in KeysOf(weights)
      ensures ScoreOf(Accumulate(scores, weights, v), t) == ScoreOf(scores, t)
    {
      WeightOfUnlisted(weights, t);
      AccumulateScore(scores, weights, v, t);
    }
  }

  /** A question without weights on an axis leaves that axis' scores alone. */
  lemma AccumulateNothing<K>(scores: map<K, int>, v: int)
    ensures Accumulate(scores, [], v) == scores
  {
  }

  /** Answering 0 ("neither") changes no score, though it may add entries of 0. */
  lemma AccumulateZero<K>(scores: map<K, int>, weights: seq<(K, int)>, t: K)
    ensures ScoreOf(Accumulate(scores, weights, 0), t) == ScoreOf(scores, t)
  {
    AccumulateScore(scores, weights, 0, t);
  }

  /** Two answers add up: accumulating v and then w with the same weights
      gives the same table as accumulating v + w once. */
  lemma AccumulateLinear<K>(scores: map<K, int>, weights: seq<(K, int)>, v: int, w: int)
    ensures Accumulate(Accumulate(scores, weights, v), weights, w) == Accumulate(scores, weights, v + w)
  {
    var once := Accumulate(scores, weights, v);
    var a := Accumulate(once, weights, w);
    var b := Accumulate(scores, weights, v + w);
    AccumulateKeys(scores, weights, v);
    AccumulateKeys(once, weights, w);
    AccumulateKeys(scores, weights, v + w);
    forall t | t in a ensures a[t] == b[t] {
      AccumulateScore(scores, weights, v, t);
      AccumulateScore(once, weights, w, t);
      AccumulateScore(scores, weights, v + w, t);
      Distributes(WeightOf(weights, t), v, w);
    }
  }

  /** Multiplying a total weight by two answers separately and adding is
      multiplying it by their sum. */
  lemma Distributes(c: int, v: int, w: int)
    ensures c * v + c * w == c * (v + w)
  {
  }

  /** Answers to different questions commute: accumulating two weight lists
      in either order gives the same table. */
  lemma AccumulateCommutes<K>(scores: map<K, int>, w1: seq<(K, int)>, v1: int, w2: seq<(K, int)>, v2: int)
    ensures Accumulate(Accumulate(scores, w1, v1), w2, v2) == Accumulate(Accumulate(scores, w2, v2), w1, v1)
  {
    var s1, s2 := Accumulate(scores, w1, v1), Accumulate(scores, w2, v2);
    var a, b := Accumulate(s1, w2, v2), Accumulate(s2, w1, v1);
    AccumulateKeys(scores, w1, v1);
    AccumulateKeys(scores, w2, v2);
    AccumulateKeys(s1, w2, v2);
    AccumulateKeys(s2, w1, v1);
    forall t | t in a ensures a[t] == b[t] {
      AccumulateScore(scores, w1, v1, t);
      AccumulateScore(scores, w2, v2, t);
      AccumulateScore(s1, w2, v2, t);
      AccumulateScore(s2, w1, v1, t);
    }
  }

  /** The update loop of one axis (`Object.entries(weights).forEach`): for
      each listed trait in order, replace its score by the old score (0 when
      missing) plus weight * v. */
  method AddWeighted<K>(scores: map<K, int>, weights: seq<(K, int)>, v: int) returns (r: map<K, int>)
    ensures r == Accumulate(scores, weights, v)
  {
    r := scores;
    for n := 0 to |weights|
      invariant r == Accumulate(scores, weights[..n], v)
    {
      assert weights[..n + 1][..n] == weights[..n];
      var t, w := weights[n].0, weights[n].1;
      r := r[t := ScoreOf(r, t) + w * v];
    }
    assert weights[..|weights|] == weights;
  }
}
