/** The compatibility pair shown with a result: the "best" and "worst"
    partner types, found by rotating the result's axis positions. */
module Compatibility {
  import opened Wrappers
  import opened Axes
  import opened TypeCatalog
  import opened Resolver

  /** `indexOf`: the first position holding v, or -1 when there is none. */
  function IndexOf<T(==)>(s: seq<T>, v: T): (r: int)
    ensures -1 <= r < |s|
    ensures r == -1 <==> v !in s
    ensures 0 <= r ==> s[r] == v && forall k | 0 <= k < r :: s[k] != v
    decreases |s|
  {
    if s == [] then -1
    else if s[0] == v then 0
    else
      var r := IndexOf(s[1..], v);
      assert forall k | 0 <= k < |s| - 1 :: s[1..][k] == s[k + 1];
      if r == -1 then -1 else r + 1
  }

  /** The two partner lookups; either may miss (`undefined`). */
  datatype Partners = Partners(best: Option<PersonalityType>, worst: Option<PersonalityType>)

  /** The key of the "best" partner: 3 X positions and 2 Y positions further
      on, wrapping around the axis lists. An index of -1 cannot occur for a
      value of the axis type, so both operands of % are non-negative and
      JavaScript's remainder agrees with Dafny's. */
  function BestKey(result: PersonalityType): string {
    var xIndex := IndexOf(XAxes, result.coordinate.x);
    var yIndex := IndexOf(YAxes, result.coordinate.y);
    var bestX := XAxes[(xIndex + 3) % |XAxes|];
    var bestY := YAxes[(yIndex + 2) % |YAxes|];
    Id(bestX, bestY)
  }

  /** The key of the "worst" partner: 1 X position and 4 Y positions further on. */
  function WorstKey(result: PersonalityType): string {
    var xIndex := IndexOf(XAxes, result.coordinate.x);
    var yIndex := IndexOf(YAxes, result.coordinate.y);
    var worstX := XAxes[(xIndex + 1) % |XAxes|];
    var worstY := YAxes[(yIndex + 4) % |YAxes|];
    Id(worstX, worstY)
  }

  /** findCompatibility: look up both partner keys in the catalog. */
  function FindCompatibility(result: PersonalityType): Partners {
    Partners(CatalogGet(BestKey(result)), CatalogGet(WorstKey(result)))
  }

  /** indexOf on an axis list finds the value's declared position. */
  lemma IndexOfAxis(x: XAxis, y: YAxis)
    ensures IndexOf(XAxes, x) == XIndex(x)
    ensures IndexOf(YAxes, y) == YIndex(y)
  {
    AxesAreEnumerations();
  }

  /** For a result at axis positions (i, j), best is the catalog lookup of
      the pair at ((i + 3) % 6, (j + 2) % 6) and worst the lookup of the pair
      at ((i + 1) % 6, (j + 4) % 6). (Each such lookup hits and gives that
      pair's entry: Resolver.CatalogGetHits.) */
  lemma PartnersAreRotations(result: PersonalityType)
    ensures var i, j := XIndex(result.coordinate.x), YIndex(result.coordinate.y);
      && BestKey(result) == Id(XAxes[(i + 3) % 6], YAxes[(j + 2) % 6])
      && WorstKey(result) == Id(XAxes[(i + 1) % 6], YAxes[(j + 4) % 6])
      && FindCompatibility(result) == Partners(
           CatalogGet(Id(XAxes[(i + 3) % 6], YAxes[(j + 2) % 6])),
           CatalogGet(Id(XAxes[(i + 1) % 6], YAxes[(j + 4) % 6])))
  {
    var x, y := result.coordinate.x, result.coordinate.y;
    IndexOfAxis(x, y);
    var xIndex, yIndex := IndexOf(XAxes, x), IndexOf(YAxes, y);
    assert xIndex == XIndex(x) && yIndex == YIndex(y);
    assert |XAxes| == 6 && |YAxes| == 6;
  }

  /** Best and worst differ from each other and from the result's own pair:
      their X positions are 3, 1 and 0 steps along a cycle of six. */
  lemma PartnersAreDistinct(result: PersonalityType)
    ensures var p := FindCompatibility(result);
      && p.best.Some? && p.worst.Some?
      && p.best.value.id != p.worst.value.id
      && p.best.value.id != Id(result.coordinate.x, result.coordinate.y)
      && p.worst.value.id != Id(result.coordinate.x, result.coordinate.y)
  {
    var x, y := result.coordinate.x, result.coordinate.y;
    var i, j := XIndex(x), YIndex(y);
    var bestX, worstX := XAxes[(i + 3) % 6], XAxes[(i + 1) % 6];
    var bestY, worstY := YAxes[(j + 2) % 6], YAxes[(j + 4) % 6];
    PartnersAreRotations(result);
    CatalogGetKey(bestX, bestY);
    CatalogGetKey(worstX, worstY);
    AxesIndexed((i + 3) % 6, (j + 2) % 6);
    AxesIndexed((i + 1) % 6, (j + 4) % 6);
    RotationsDiffer(i);
    DistinctX(bestX, bestY, worstX, worstY);
    DistinctX(bestX, bestY, x, y);
    DistinctX(worstX, worstY, x, y);
  }

  /** Moving 3, 1 and 0 steps along a cycle of six lands on three different
      positions. */
  lemma RotationsDiffer(i: nat)
    requires i < 6
    ensures (i + 3) % 6 != (i + 1) % 6 && (i + 3) % 6 != i && (i + 1) % 6 != i
  {
  }

  /** Pairs with different X values have different keys. */
  lemma DistinctX(x1: XAxis, y1: YAxis, x2: XAxis, y2: YAxis)
    requires x1 != x2
    ensures Id(x1, y1) != Id(x2, y2)
  {
    if Id(x1, y1) == Id(x2, y2) {
      IdInjective(x1, y1, x2, y2);
    }
  }
}
