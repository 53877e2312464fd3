/** The two classification axes of the 36-type matrix and the per-value tables
    that the catalog is generated from: display details and the psychological
    building blocks interpolated into the narrative texts. */
module Axes {

  /** Core value (X axis), constructors in declaration order. */
  datatype XAxis = Romantic | Analytical | Independent | Altruistic | Enigmatic | Vibrant

  /** Relationship style (Y axis), constructors in declaration order. */
  datatype YAxis = Traditional | Modern | Casual | Formal | Creative | Stoic

  /** The ordered X axis list; its order is the resolver's tie-break order. */
  const XAxes: seq<XAxis> := [Romantic, Analytical, Independent, Altruistic, Enigmatic, Vibrant]

  /** The ordered Y axis list. */
  const YAxes: seq<YAxis> := [Traditional, Modern, Casual, Formal, Creative, Stoic]

  /** Position of an X value in the declared list (what `indexOf` finds). */
  function XIndex(x: XAxis): (i: nat)
    ensures i < |XAxes| && XAxes[i] == x
  {
    match x
    case Romantic => 0
    case Analytical => 1
    case Independent => 2
    case Altruistic => 3
    case Enigmatic => 4
    case Vibrant => 5
  }

  /** Position of a Y value in the declared list. */
  function YIndex(y: YAxis): (j: nat)
    ensures j < |YAxes| && YAxes[j] == y
  {
    match y
    case Traditional => 0
    case Modern => 1
    case Casual => 2
    case Formal => 3
    case Creative => 4
    case Stoic => 5
  }

  /** XIndex and YIndex invert indexing into the axis lists. */
  lemma AxesIndexed(i: nat, j: nat)
    requires i < |XAxes| && j < |YAxes|
    ensures XIndex(XAxes[i]) == i && YIndex(YAxes[j]) == j
  {
  }

  /** The string under which an X value is declared (and used as a score key). */
  function XKey(x: XAxis): string {
    match x
    case Romantic => "Romantic"
    case Analytical => "Analytical"
    case Independent => "Independent"
    case Altruistic => "Altruistic"
    case Enigmatic => "Enigmatic"
    case Vibrant => "Vibrant"
  }

  /** The string under which a Y value is declared. */
  function YKey(y: YAxis): string {
    match y
    case Traditional => "Traditional"
    case Modern => "Modern"
    case Casual => "Casual"
    case Formal => "Formal"
    case Creative => "Creative"
    case Stoic => "Stoic"
  }

  /** `toLowerCase` on one character, restricted to ASCII (all keys are ASCII). */
  function LowerChar(c: char): char {
    if 'A' <= c <= 'Z' then (c as int + 32) as char else c
  }

  /** `toLowerCase` on a string: each upper-case ASCII letter becomes its
      lower-case letter, every other character is kept in place, and no
      upper-case ASCII letter is left. */
  function ToLower(s: string): (r: string)
    ensures |r| == |s|
    ensures forall i | 0 <= i < |s| :: 'A' <= s[i] <= 'Z' ==> r[i] == (s[i] as int + 32) as char
    ensures forall i | 0 <= i < |s| :: !('A' <= s[i] <= 'Z') ==> r[i] == s[i]
    ensures forall i | 0 <= i < |r| :: !('A' <= r[i] <= 'Z')
  {
    seq(|s|, i requires 0 <= i < |s| => LowerChar(s[i]))
  }

  /** The catalog key of the pair (x, y): lowercase x, a dash, lowercase y. */
  function Id(x: XAxis, y: YAxis): string {
    ToLower(XKey(x)) + "-" + ToLower(YKey(y))
  }

  /** Both axis lists hold six values, each exactly once, and every value of
      the type appears in its list. */
  lemma AxesAreEnumerations()
    ensures |XAxes| == 6 && |YAxes| == 6
    ensures forall i, j | 0 <= i < j < |XAxes| :: XAxes[i] != XAxes[j]
    ensures forall i, j | 0 <= i < j < |YAxes| :: YAxes[i] != YAxes[j]
    ensures forall x: XAxis :: x in XAxes
    ensures forall y: YAxis :: y in YAxes
  {
    forall x: XAxis ensures x in XAxes { assert XAxes[XIndex(x)] == x; }
    forall y: YAxis ensures y in YAxes { assert YAxes[YIndex(y)] == y; }
  }

  /** The lowercase form of each X key, spelled out. */
  function XLower(x: XAxis): string {
    match x
    case Romantic => "romantic"
    case Analytical => "analytical"
    case Independent => "independent"
    case Altruistic => "altruistic"
    case Enigmatic => "enigmatic"
    case Vibrant => "vibrant"
  }

  /** The lowercase form of each Y key, spelled out. */
  function YLower(y: YAxis): string {
    match y
    case Traditional => "traditional"
    case Modern => "modern"
    case Casual => "casual"
    case Formal => "formal"
    case Creative => "creative"
    case Stoic => "stoic"
  }

  /** Lowercasing an X key gives its spelled-out lowercase form. */
  lemma XLowerIs(a: XAxis)
    ensures ToLower(XKey(a)) == XLower(a)
  {
    match a
    case Romantic => assert ToLower("Romantic") == "romantic";
    case Analytical => assert ToLower("Analytical") == "analytical";
    case Independent => assert ToLower("Independent") == "independent";
    case Altruistic => assert ToLower("Altruistic") == "altruistic";
    case Enigmatic => assert ToLower("Enigmatic") == "enigmatic";
    case Vibrant => assert ToLower("Vibrant") == "vibrant";
  }

  /** The spelled-out lowercase X forms are pairwise distinct and contain
      no dash. */
  lemma XLowerDistinct(a: XAxis, b: XAxis)
    ensures XLower(a) == XLower(b) ==> a == b
    ensures '-' !in XLower(a)
  {
  }

  /** Lowercasing a Y key gives its spelled-out lowercase form. */
  lemma YLowerIs(a: YAxis)
    ensures ToLower(YKey(a)) == YLower(a)
  {
    match a
    case Traditional => assert ToLower("Traditional") == "traditional";
    case Modern => assert ToLower("Modern") == "modern";
    case Casual => assert ToLower("Casual") == "casual";
    case Formal => assert ToLower("Formal") == "formal";
    case Creative => assert ToLower("Creative") == "creative";
    case Stoic => assert ToLower("Stoic") == "stoic";
  }

  /** The spelled-out lowercase Y forms are pairwise distinct and contain
      no dash. */
  lemma YLowerDistinct(a: YAxis, b: YAxis)
    ensures YLower(a) == YLower(b) ==> a == b
    ensures '-' !in YLower(a)
  {
  }

  /** The part of a key before its first dash (all of it when there is none). */
  function BeforeDash(s: string): string {
    if s == [] || s[0] == '-' then [] else [s[0]] + BeforeDash(s[1..])
  }

  /** The part of a key after its first dash (nothing when there is none). */
  function AfterDash(s: string): string {
    if s == [] then [] else if s[0] == '-' then s[1..] else AfterDash(s[1..])
  }

  /** Joining a dash-free string to any string with a dash can be undone by
      splitting at the first dash. */
  lemma {:induction false} SplitJoin(a: string, b: string)
    requires '-' !in a
    ensures BeforeDash(a + "-" + b) == a && AfterDash(a + "-" + b) == b
  {
    var s := a + "-" + b;
    if a == [] {
      assert s == ['-'] + b;
    } else {
      assert a[0] in a;
      assert s[0] == a[0] && s[1..] == a[1..] + "-" + b;
      assert '-' !in a[1..] by {
        forall i | 0 <= i < |a[1..]| ensures a[1..][i] != '-' {
          assert a[1..][i] == a[i + 1] && a[i + 1] in a;
        }
      }
      SplitJoin(a[1..], b);
      assert a == [a[0]] + a[1..];
    }
  }

  /** Distinct pairs give distinct catalog keys. */
  lemma IdInjective(x1: XAxis, y1: YAxis, x2: XAxis, y2: YAxis)
    requires Id(x1, y1) == Id(x2, y2)
    ensures x1 == x2 && y1 == y2
  {
    XLowerIs(x1);
    XLowerIs(x2);
    YLowerIs(y1);
    YLowerIs(y2);
    var s := Id(x1, y1);
    XLowerDistinct(x1, x2);
    YLowerDistinct(y1, y2);
    SplitJoin(XLower(x1), YLower(y1));
    SplitJoin(XLower(x2), YLower(y2));
    assert BeforeDash(s) == XLower(x1) == XLower(x2);
    assert AfterDash(s) == YLower(y1) == YLower(y2);
  }

  /** Injectivity of Id, for all pairs at once. */
  lemma IdsDistinct()
    ensures forall x1, y1, x2, y2 | Id(x1, y1) == Id(x2, y2) :: x1 == x2 && y1 == y2
  {
    forall x1, y1, x2, y2 | Id(x1, y1) == Id(x2, y2) ensures x1 == x2 && y1 == y2 {
      IdInjective(x1, y1, x2, y2);
    }
  }

  /** Display details of an X value (X_DETAILS). */
  datatype XDetail = XDetail(name: string, emoji: string, color: string)

  const XDetailsTable: seq<XDetail> := [
    XDetail("情熱", "💖", "#ff85a1"),
    XDetail("知性", "🌙", "#a0c4ff"),
    XDetail("自由", "🦋", "#ffd6a5"),
    XDetail("献身", "🍪", "#bdb2ff"),
    XDetail("神秘", "🔮", "#ffc6ff"),
    XDetail("活力", "☀️", "#fdffb6")
  ]

  /** `X_DETAILS[x]`: the detail row of an X value. */
  function XDetails(x: XAxis): XDetail {
    XDetailsTable[XIndex(x)]
  }


  /** Display name of a Y value (Y_DETAILS). */
  const YNameTable: seq<string> := [
    "王道スタイル",
    "都会的スタイル",
    "自然体スタイル",
    "礼節スタイル",
    "刺激的スタイル",
    "ストイックスタイル"
  ]

  /** `Y_DETAILS[y].name`: the display name of a Y value. */
  function YName(y: YAxis): string {
    YNameTable[YIndex(y)]
  }


  /** Psychological building blocks of an X value (X_PSYCHOLOGY). */
  datatype XPsychology = XPsychology(essence: string, desire: string, fear: string)

  const XPsychologyTable: seq<XPsychology> := [
    XPsychology("感情の絶対性", "運命的な一体感", "平庸な日常"),
    XPsychology("客観的秩序", "完全な理解と予測", "感情による制御不能"),
    XPsychology("自己の拡張", "未知への飽くなき探求", "静止と束縛"),
    XPsychology("共生と調和", "誰かの不可欠な一部になること", "無価値感と孤立"),
    XPsychology("精神的越境", "深淵なる真理の共有", "通俗的な理解"),
    XPsychology("生命の輝き", "他者の解像度を上げること", "エネルギーの枯渇")
  ]

  /** `X_PSYCHOLOGY[x]`: the building blocks of an X value. */
  function XPsychologyOf(x: XAxis): XPsychology {
    XPsychologyTable[XIndex(x)]
  }


  /** Psychological building blocks of a Y value (Y_PSYCHOLOGY). */
  datatype YPsychology = YPsychology(mode: string, defense: string, trap: string)

  const YPsychologyTable: seq<YPsychology> := [
    YPsychology("普遍的な形式", "既知のルール", "変化への拒絶"),
    YPsychology("洗練された記号", "都会的な距離感", "表面的な空虚"),
    YPsychology("無加工の自己", "ユーモアと親しみ", "踏み込みの欠如"),
    YPsychology("敬意の象徴", "高度な礼節", "感情の抑圧"),
    YPsychology("破壊と創造", "変化し続ける自分", "継続の放棄"),
    YPsychology("克己的修練", "沈黙と忍耐", "孤独への埋没")
  ]

  /** `Y_PSYCHOLOGY[y]`: the building blocks of a Y value. */
  function YPsychologyOf(y: YAxis): YPsychology {
    YPsychologyTable[YIndex(y)]
  }


  /** Every table entry an interpolation slot can draw from is non-empty. */
  lemma TablesNonEmpty(x: XAxis, y: YAxis)
    ensures XDetails(x).name != "" && XDetails(x).emoji != "" && XDetails(x).color != ""
    ensures YName(y) != ""
    ensures XPsychologyOf(x).essence != "" && XPsychologyOf(x).desire != "" && XPsychologyOf(x).fear != ""
    ensures YPsychologyOf(y).mode != "" && YPsychologyOf(y).defense != "" && YPsychologyOf(y).trap != ""
  {
  }
}
