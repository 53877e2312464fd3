/** Result resolution: per axis, the first value in declaration order whose
    score is maximal; then the catalog entry of the chosen pair. */
module Resolver {
  import opened Wrappers
  import opened Axes
  import opened TypeCatalog
  import opened Scoring

  /** Position i of order holds a maximal score, and every earlier position
      holds a strictly smaller one: i is where a running maximum that only
      moves on a strict increase comes to rest. */
  ghost predicate IsFirstMax<K>(order: seq<K>, scores: map<K, int>, i: int) {
    && 0 <= i < |order|
    && (forall j | 0 <= j < |order| :: ScoreOf(scores, order[j]) <= ScoreOf(scores, order[i]))
    && (forall j | 0 <= j < i :: ScoreOf(scores, order[j]) < ScoreOf(scores, order[i]))
  }

  /** The position of the first maximal score in order. */
  function ArgMax<K>(order: seq<K>, scores: map<K, int>): (i: nat)
    requires |order| > 0
    ensures IsFirstMax(order, scores, i)
  {
    if |order| == 1 then 0
    else
      var prefix := order[..|order| - 1];
      var i := ArgMax(prefix, scores);
      assert forall j | 0 <= j < |prefix| :: prefix[j] == order[j];
      if ScoreOf(scores, order[|order| - 1]) > ScoreOf(scores, order[i]) then |order| - 1 else i
  }

  /** There is only one first maximum. */
  lemma FirstMaxUnique<K>(order: seq<K>, scores: map<K, int>, i: int, j: int)
    requires IsFirstMax(order, scores, i) && IsFirstMax(order, scores, j)
    ensures i == j
  {
    var si, sj := ScoreOf(scores, order[i]), ScoreOf(scores, order[j]);
    assert si == sj;
    assert i < j ==> si < sj;
    assert j < i ==> sj < si;
  }

  /** When every value has the same score (in particular, before any answer)
      the first declared value is chosen. */
  lemma TiesPickFirst<K>(order: seq<K>, scores: map<K, int>)
    requires |order| > 0
    requires forall j | 0 <= j < |order| :: ScoreOf(scores, order[j]) == ScoreOf(scores, order[0])
    ensures ArgMax(order, scores) == 0
  {
  }

  /** The scan of one axis: a running maximum starting below every score
      (None plays -Infinity) and a selection starting at the first value;
      the selection moves only when a score is strictly greater. */
  method SelectFirstMax<K>(order: seq<K>, scores: map<K, int>) returns (selected: nat)
    requires |order| > 0
    ensures selected == ArgMax(order, scores)
  {
    var max: Option<int> := None;
    selected := 0;
    for k := 0 to |order|
      invariant k == 0 ==> max == None && selected == 0
      invariant k > 0 ==> selected == ArgMax(order[..k], scores) && max == Some(ScoreOf(scores, order[selected]))
    {
      assert order[..k + 1][..k] == order[..k];
      var score := ScoreOf(scores, order[k]);
      if max.None? || score > max.value {
        max := Some(score);
        selected := k;
      }
    }
    assert order[..|order|] == order;
  }

  /** The catalog key of the resolved pair. */
  function ResultId(scoresX: map<XAxis, int>, scoresY: map<YAxis, int>): string {
    Id(XAxes[ArgMax(XAxes, scoresX)], YAxes[ArgMax(YAxes, scoresY)])
  }

  /** The catalog entry under a key, if there is one (an indexing that may
      give `undefined`). */
  function CatalogGet(id: string): Option<PersonalityType> {
    if id in Catalog() then Some(Catalog()[id]) else None
  }

  /** Looking up a pair's key always finds that pair's entry. */
  lemma CatalogGetHits(x: XAxis, y: YAxis)
    ensures CatalogGet(Id(x, y)) == Some(Entry(x, y))
  {
    CatalogLookup(x, y);
  }

  /** Looking up a pair's key finds an entry whose id is that key. */
  lemma CatalogGetKey(x: XAxis, y: YAxis)
    ensures CatalogGet(Id(x, y)).Some? && CatalogGet(Id(x, y)).value.id == Id(x, y)
  {
    CatalogGetHits(x, y);
    EntryId(x, y);
  }

  /** The literal key of the fallback entry is the key of (Romantic, Traditional). */
  lemma RomanticTraditionalId()
    ensures Id(Romantic, Traditional) == "romantic-traditional"
  {
    XLowerIs(Romantic);
    YLowerIs(Traditional);
  }

  /** The entry stored under "romantic-traditional". */
  function FallbackType(): PersonalityType {
    RomanticTraditionalId();
    CatalogLookup(Romantic, Traditional);
    Catalog()["romantic-traditional"]
  }

  /** The resolved type: the entry under the resolved key, or the fallback
      entry when the key is missing. */
  function ResultType(scoresX: map<XAxis, int>, scoresY: map<YAxis, int>): PersonalityType {
    CatalogGet(ResultId(scoresX, scoresY)).GetOr(FallbackType())
  }

  /** The resolved type is the catalog entry of the first-maximal X value and
      the first-maximal Y value; the fallback is never needed. */
  lemma ResultTypeIsFirstMaxPair(scoresX: map<XAxis, int>, scoresY: map<YAxis, int>)
    ensures CatalogGet(ResultId(scoresX, scoresY)).Some?
    ensures var t := ResultType(scoresX, scoresY);
      && t == Entry(t.coordinate.x, t.coordinate.y)
      && IsFirstMax(XAxes, scoresX, XIndex(t.coordinate.x))
      && IsFirstMax(YAxes, scoresY, YIndex(t.coordinate.y))
  {
    var i, j := ArgMax(XAxes, scoresX), ArgMax(YAxes, scoresY);
    var x, y := XAxes[i], YAxes[j];
    AxesIndexed(i, j);
    CatalogLookup(x, y);
  }

  /** With no score recorded on either axis the result is "romantic-traditional". */
  lemma NoScoresGiveRomanticTraditional()
    ensures ResultId(map[], map[]) == "romantic-traditional"
    ensures ResultType(map[], map[]).id == "romantic-traditional"
  {
    TiesPickFirst(XAxes, map[]);
    TiesPickFirst(YAxes, map[]);
    RomanticTraditionalId();
    CatalogLookup(Romantic, Traditional);
  }

  /** Every score zero, missing or not (as after answering only 0), also
      gives "romantic-traditional": all ties go to the first declared values. */
  lemma ZeroScoresGiveRomanticTraditional(scoresX: map<XAxis, int>, scoresY: map<YAxis, int>)
    requires forall a :: ScoreOf(scoresX, a) == 0
    requires forall b :: ScoreOf(scoresY, b) == 0
    ensures ResultId(scoresX, scoresY) == "romantic-traditional"
    ensures ResultType(scoresX, scoresY).id == "romantic-traditional"
  {
    TiesPickFirst(XAxes, scoresX);
    TiesPickFirst(YAxes, scoresY);
    RomanticTraditionalId();
    CatalogLookup(Romantic, Traditional);
  }

  /** getResultType: scan each axis, compose the key, look it up with the
      fallback. */
  method GetResultType(scoresX: map<XAxis, int>, scoresY: map<YAxis, int>) returns (t: PersonalityType)
    ensures t == ResultType(scoresX, scoresY)
  {
    var i := SelectFirstMax(XAxes, scoresX);
    var j := SelectFirstMax(YAxes, scoresY);
    var resultId := Id(XAxes[i], YAxes[j]);
    t := CatalogGet(resultId).GetOr(FallbackType());
  }
}
