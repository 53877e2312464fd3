/** The 36-entry catalog of personality types: one record per (x, y) pair,
    generated from the axis tables and the two per-pair override tables. */
module TypeCatalog {
  import opened Wrappers
  import opened Axes

  /** Cosmetic design record used by the avatar renderers. */
  datatype Visual = Visual(symbol: string, pattern: string, colorSecondary: string)

  /** The matrix cell a type occupies. */
  datatype Coordinate = Coordinate(x: XAxis, y: YAxis)

  /** The six fixed narrative templates. Their prose is content and is not
      modelled; what is kept is which table entries fill their slots, in order. */
  datatype Template = DescriptionText | InnerPsychologyText | ShadowSideText
                    | BehaviorText | IdealPartnerText | AdviceText

  /** A template together with the values interpolated into its slots. */
  datatype Narrative = Narrative(template: Template, slots: seq<string>)

  datatype PersonalityType = PersonalityType(
    id: string,
    name: string,
    emoji: string,
    characterName: string,
    description: Narrative,
    innerPsychology: Narrative,
    shadowSide: Narrative,
    behavior: Narrative,
    idealPartner: Narrative,
    advice: Narrative,
    color: string,
    bestMatchId: string,
    worstMatchId: string,
    coordinate: Coordinate,
    visual: Visual)

  /** The value stored under key in an override table written as a list of
      (key, value) pairs; the first pair with that key wins. */
  function Lookup<V>(table: seq<(string, V)>, key: string): (r: Option<V>)
    ensures r.None? <==> forall i | 0 <= i < |table| :: table[i].0 != key
    ensures r.Some? ==> exists i | 0 <= i < |table| :: table[i] == (key, r.value)
  {
    if table == [] then None
    else if table[0].0 == key then Some(table[0].1)
    else Lookup(table[1..], key)
  }

  /** Per-pair character names (UNIQUE_CHARACTERS). */
  const UniqueCharacters: seq<(string, string)> := [
    ("romantic-traditional", "純愛の騎士"),
    ("romantic-modern", "都会の恋仲"),
    ("romantic-casual", "放浪の詩人"),
    ("romantic-formal", "気高き求愛者"),
    ("romantic-creative", "夢幻の演出家"),
    ("romantic-stoic", "孤独な情熱家"),
    ("analytical-traditional", "知の守護者"),
    ("analytical-modern", "論理の設計士"),
    ("analytical-casual", "冷徹な観察者"),
    ("analytical-formal", "冷徹な審判"),
    ("analytical-creative", "異端の予言者"),
    ("analytical-stoic", "硬質の求道者"),
    ("independent-traditional", "孤高の覇者"),
    ("independent-modern", "自由の開拓者"),
    ("independent-casual", "風の旅人"),
    ("independent-formal", "誇り高き策士"),
    ("independent-creative", "変幻の改革者"),
    ("independent-stoic", "沈黙の哲学者"),
    ("altruistic-traditional", "慈愛の聖者"),
    ("altruistic-modern", "共感の支援者"),
    ("altruistic-casual", "陽だまりの奏者"),
    ("altruistic-formal", "献身の執事"),
    ("altruistic-creative", "希望の導き手"),
    ("altruistic-stoic", "不屈の守護神"),
    ("enigmatic-traditional", "深淵の語り部"),
    ("enigmatic-modern", "幻影の魔術師"),
    ("enigmatic-casual", "浮世の傍観者"),
    ("enigmatic-formal", "氷の支配者"),
    ("enigmatic-creative", "千の顔を持つ者"),
    ("enigmatic-stoic", "月影の潜伏者"),
    ("vibrant-traditional", "黄金の指導者"),
    ("vibrant-modern", "時代の寵児"),
    ("vibrant-casual", "太陽の遊び人"),
    ("vibrant-formal", "祝祭の主賓"),
    ("vibrant-creative", "光の共鳴者"),
    ("vibrant-stoic", "不滅の冒険家")
  ]

  /** Per-pair visual designs (CHARACTER_VISUALS). */
  const CharacterVisuals: seq<(string, Visual)> := [
    ("romantic-traditional", Visual("Sword", "Shield", "#ff4d6d")),
    ("romantic-modern", Visual("Heads", "City", "#ff758f")),
    ("romantic-casual", Visual("Feather", "Wind", "#ff85a1")),
    ("romantic-formal", Visual("Crown", "Silk", "#c9184a")),
    ("romantic-creative", Visual("Sparkles", "Stars", "#ffb3c1")),
    ("romantic-stoic", Visual("Flame", "Ash", "#a4161a")),
    ("analytical-traditional", Visual("Library", "Scroll", "#0077b6")),
    ("analytical-modern", Visual("Cpu", "Grid", "#00b4d8")),
    ("analytical-casual", Visual("Eye", "Mist", "#90e0ef")),
    ("analytical-formal", Visual("Gavel", "Law", "#03045e")),
    ("analytical-creative", Visual("Zap", "Pulse", "#caf0f8")),
    ("analytical-stoic", Visual("Diamond", "Stone", "#023e8a")),
    ("independent-traditional", Visual("Mountain", "Peak", "#fb8500")),
    ("independent-modern", Visual("Rocket", "Space", "#ffb703")),
    ("independent-casual", Visual("Compass", "Map", "#8ecae6")),
    ("independent-formal", Visual("ScrollText", "Ink", "#219ebc")),
    ("independent-creative", Visual("Palette", "Paint", "#023047")),
    ("independent-stoic", Visual("Book", "Pages", "#000000")),
    ("altruistic-traditional", Visual("Church", "Light", "#7209b7")),
    ("altruistic-modern", Visual("Users", "Network", "#3a0ca3")),
    ("altruistic-casual", Visual("Coffee", "Steam", "#4361ee")),
    ("altruistic-formal", Visual("Key", "Lock", "#4cc9f0")),
    ("altruistic-creative", Visual("Sun", "Rays", "#f72585")),
    ("altruistic-stoic", Visual("ShieldCheck", "Armor", "#b5179e")),
    ("enigmatic-traditional", Visual("Scroll", "Ancient", "#3c096c")),
    ("enigmatic-modern", Visual("Wand", "Magic", "#5a189a")),
    ("enigmatic-casual", Visual("Masks", "Shadow", "#7b2cbf")),
    ("enigmatic-formal", Visual("Snowflake", "Ice", "#9d4edd")),
    ("enigmatic-creative", Visual("Ghost", "Spirit", "#c77dff")),
    ("enigmatic-stoic", Visual("Moon", "Night", "#240046")),
    ("vibrant-traditional", Visual("Trophy", "Gold", "#ff9f1c")),
    ("vibrant-modern", Visual("Music", "Vinyl", "#ffbf69")),
    ("vibrant-casual", Visual("Gamepad", "Pixels", "#ffffff")),
    ("vibrant-formal", Visual("GlassWater", "Toast", "#2ec4b6")),
    ("vibrant-creative", Visual("Lightbulb", "Idea", "#cbf3f0")),
    ("vibrant-stoic", Visual("Footprints", "Path", "#ff5400"))
  ]

  /** The design used when a pair has no entry in CharacterVisuals. */
  const DefaultVisual: Visual := Visual("User", "Circles", "#cccccc")

  /** The character name of a pair: its override when present and non-empty
      (a JavaScript `||` falls through on ""), else "<x name>の執行官". */
  function CharacterName(x: XAxis, y: YAxis): (r: string)
    ensures r != ""
  {
    var id := Id(x, y);
    var name := Lookup(UniqueCharacters, id).GetOr("");
    if name != "" then name else XDetails(x).name + "の執行官"
  }

  /** The visual design of a pair: its override when present, else the default. */
  function VisualFor(x: XAxis, y: YAxis): Visual
  {
    var id := Id(x, y);
    Lookup(CharacterVisuals, id).GetOr(DefaultVisual)
  }

  /** The character name is "<X name>の執行官" when the pair's key is not
      listed, and a name listed under the key when it is (no listed name is
      empty, so the `||` fallback is not taken for a listed key). */
  lemma CharacterNameRule(x: XAxis, y: YAxis)
    ensures (forall i | 0 <= i < |UniqueCharacters| :: UniqueCharacters[i].0 != Id(x, y))
            ==> CharacterName(x, y) == XDetails(x).name + "の執行官"
    ensures (exists i | 0 <= i < |UniqueCharacters| :: UniqueCharacters[i].0 == Id(x, y))
            ==> exists i | 0 <= i < |UniqueCharacters| :: UniqueCharacters[i] == (Id(x, y), CharacterName(x, y))
  {
    OverridesFilled();
  }

  /** The visual is a design listed under the pair's key when that key is
      listed, and the default design when it is not. */
  lemma VisualRule(x: XAxis, y: YAxis)
    ensures (forall i | 0 <= i < |CharacterVisuals| :: CharacterVisuals[i].0 != Id(x, y)) ==> VisualFor(x, y) == DefaultVisual
    ensures (exists i | 0 <= i < |CharacterVisuals| :: CharacterVisuals[i].0 == Id(x, y))
            ==> exists i | 0 <= i < |CharacterVisuals| :: CharacterVisuals[i] == (Id(x, y), VisualFor(x, y))
  {
  }

  /** The record the generation loop stores for the pair (x, y). */
  function Entry(x: XAxis, y: YAxis): PersonalityType {
    var xDetail, yName := XDetails(x), YName(y);
    var xInfo, yInfo := XPsychologyOf(x), YPsychologyOf(y);
    PersonalityType(
      id := Id(x, y),
      name := xDetail.name + "の" + yName,
      emoji := xDetail.emoji,
      characterName := CharacterName(x, y),
      description := Narrative(DescriptionText, [xInfo.essence, yInfo.mode, yName, xDetail.name]),
      innerPsychology := Narrative(InnerPsychologyText, [xInfo.desire, xInfo.fear]),
      shadowSide := Narrative(ShadowSideText, [yInfo.defense, yInfo.trap]),
      behavior := Narrative(BehaviorText, [xDetail.name, yName, yInfo.mode, xInfo.essence]),
      idealPartner := Narrative(IdealPartnerText, [yName, xDetail.name, xInfo.fear, xInfo.desire]),
      advice := Narrative(AdviceText, [yInfo.mode, xInfo.essence]),
      color := xDetail.color,
      bestMatchId := "altruistic-casual",
      worstMatchId := "analytical-stoic",
      coordinate := Coordinate(x, y),
      visual := VisualFor(x, y))
  }

  /** An entry's id is its pair's key and its coordinate is its pair. */
  lemma EntryId(x: XAxis, y: YAxis)
    ensures Entry(x, y).id == Id(x, y) && Entry(x, y).coordinate == Coordinate(x, y)
  {
  }

  /** The name joins the X name and the Y name with "の"; emoji and colour
      are the X value's and do not depend on y. */
  lemma EntryNameEmojiColor(x: XAxis, y1: YAxis, y2: YAxis)
    ensures Entry(x, y1).name == XDetails(x).name + "の" + YName(y1)
    ensures Entry(x, y1).emoji == Entry(x, y2).emoji == XDetails(x).emoji
    ensures Entry(x, y1).color == Entry(x, y2).color == XDetails(x).color
  {
  }

  /** Every entry carries the same two match ids. */
  lemma EntryMatchIds(x1: XAxis, y1: YAxis, x2: XAxis, y2: YAxis)
    ensures Entry(x1, y1).bestMatchId == Entry(x2, y2).bestMatchId == "altruistic-casual"
    ensures Entry(x1, y1).worstMatchId == Entry(x2, y2).worstMatchId == "analytical-stoic"
  {
  }

  /** No override in either table is empty. */
  lemma OverridesFilled()
    ensures forall i | 0 <= i < |UniqueCharacters| :: UniqueCharacters[i].1 != ""
    ensures forall i | 0 <= i < |CharacterVisuals| :: Filled(CharacterVisuals[i].1)
  {
  }

  /** A visual design with every field given. */
  predicate Filled(v: Visual) {
    v.symbol != "" && v.pattern != "" && v.colorSecondary != ""
  }

  /** Every field of a pair's visual design is non-empty, whether it is an
      override or the default. */
  lemma VisualFilled(x: XAxis, y: YAxis)
    ensures Filled(VisualFor(x, y))
  {
    OverridesFilled();
  }

  /** Neither the character name nor any field of the visual is ever empty. */
  lemma EntryOverridesFilled(x: XAxis, y: YAxis)
    ensures Entry(x, y).characterName != ""
    ensures Filled(Entry(x, y).visual)
  {
    VisualFilled(x, y);
  }

  /** A narrative with n slots, each holding non-empty text. */
  predicate SlotsFilled(n: Narrative, count: nat) {
    |n.slots| == count && forall k | 0 <= k < |n.slots| :: n.slots[k] != ""
  }

  /** Every slot of every narrative is filled with non-empty text, and each
      template gets its fixed number of slots. */
  lemma EntryNarratives(x: XAxis, y: YAxis)
    ensures var e := Entry(x, y);
      && SlotsFilled(e.description, 4) && SlotsFilled(e.innerPsychology, 2)
      && SlotsFilled(e.shadowSide, 2) && SlotsFilled(e.behavior, 4)
      && SlotsFilled(e.idealPartner, 4) && SlotsFilled(e.advice, 2)
  {
    TablesNonEmpty(x, y);
    var e := Entry(x, y);
    var xd, xp, yp := XDetails(x), XPsychologyOf(x), YPsychologyOf(y);
    FourFilled(e.description, xp.essence, yp.mode, YName(y), xd.name);
    TwoFilled(e.innerPsychology, xp.desire, xp.fear);
    TwoFilled(e.shadowSide, yp.defense, yp.trap);
    FourFilled(e.behavior, xd.name, YName(y), yp.mode, xp.essence);
    FourFilled(e.idealPartner, YName(y), xd.name, xp.fear, xp.desire);
    TwoFilled(e.advice, yp.mode, xp.essence);
  }

  /** A two-slot narrative over two non-empty texts is filled. */
  lemma TwoFilled(n: Narrative, a: string, b: string)
    requires n.slots == [a, b] && a != "" && b != ""
    ensures SlotsFilled(n, 2)
  {
  }

  /** A four-slot narrative over four non-empty texts is filled. */
  lemma FourFilled(n: Narrative, a: string, b: string, c: string, d: string)
    requires n.slots == [a, b, c, d] && a != "" && b != "" && c != "" && d != ""
    ensures SlotsFilled(n, 4)
  {
  }

  /** Distinct pairs have distinct keys under key. */
  ghost predicate Injective(key: (XAxis, YAxis) -> string) {
    forall x1, y1, x2, y2 | key(x1, y1) == key(x2, y2) :: x1 == x2 && y1 == y2
  }

  /** The table that maps every pair's key to what f gives for the pair. */
  function Tabulate(key: (XAxis, YAxis) -> string, f: (XAxis, YAxis) -> PersonalityType): map<string, PersonalityType>
    requires Injective(key)
  {
    map x, y | x in XAxes && y in YAxes :: key(x, y) := f(x, y)
  }

  /** The catalog as a value: every pair's key mapped to that pair's entry. */
  function Catalog(): map<string, PersonalityType> {
    IdsDistinct();
    Tabulate(Id, Entry)
  }

  /** Every pair's key is in a tabulation and holds that pair's value. */
  lemma TabulateLookup(key: (XAxis, YAxis) -> string, f: (XAxis, YAxis) -> PersonalityType, x: XAxis, y: YAxis)
    requires Injective(key)
    ensures key(x, y) in Tabulate(key, f) && Tabulate(key, f)[key(x, y)] == f(x, y)
  {
    AxesAreEnumerations();
  }

  /** Every key of a tabulation is the key of some pair. */
  lemma TabulateKeys(key: (XAxis, YAxis) -> string, f: (XAxis, YAxis) -> PersonalityType, k: string)
    requires Injective(key) && k in Tabulate(key, f)
    ensures exists x, y :: k == key(x, y)
  {
  }

  /** Catalog totality: every pair's key is present and holds that pair's entry. */
  lemma CatalogLookup(x: XAxis, y: YAxis)
    ensures Id(x, y) in Catalog() && Catalog()[Id(x, y)] == Entry(x, y)
  {
    IdsDistinct();
    TabulateLookup(Id, Entry, x, y);
  }

  /** Every key of the catalog is the id of the entry stored under it, and is
      composed from that entry's coordinate. */
  lemma CatalogKeysAreIds(k: string)
    requires k in Catalog()
    ensures Catalog()[k].id == k
    ensures k == Id(Catalog()[k].coordinate.x, Catalog()[k].coordinate.y)
  {
    IdsDistinct();
    TabulateKeys(Id, Entry, k);
    var x, y :| k == Id(x, y);
    CatalogLookup(x, y);
    EntryId(x, y);
  }

  /** Every pair's key is in KeySet. */
  lemma InKeySet(key: (XAxis, YAxis) -> string, x: XAxis, y: YAxis)
    ensures key(x, y) in KeySet(key)
  {
    assert XAxes[XIndex(x)] == x && YAxes[YIndex(y)] == y;
  }

  /** The pairs handled before the one after (x, y) are those handled before
      (x, y), and (x, y) itself. */
  lemma BeforeNext(a: XAxis, b: YAxis, x: XAxis, y: YAxis, i: int, j: int)
    requires XIndex(x) == i && YIndex(y) == j
    ensures Before(a, b, i, j + 1) <==> Before(a, b, i, j) || (a == x && b == y)
  {
    assert XAxes[XIndex(a)] == a && YAxes[YIndex(b)] == b;
  }

  /** Whether the nested loop has handled the pair at (x, y) before reaching
      row i, column j. */
  predicate Before(x: XAxis, y: YAxis, i: int, j: int) {
    XIndex(x) < i || (XIndex(x) == i && YIndex(y) < j)
  }

  /** The keys of all pairs. */
  ghost function KeySet(key: (XAxis, YAxis) -> string): set<string> {
    set x, y | x in XAxes && y in YAxes :: key(x, y)
  }

  /** Exactly the pairs handled before (i, j) are stored, each under its key
      and holding what f gives for it, and nothing else is stored. */
  ghost predicate FilledBefore(types: map<string, PersonalityType>, key: (XAxis, YAxis) -> string,
                               f: (XAxis, YAxis) -> PersonalityType, i: int, j: int)
  {
    && types.Keys <= KeySet(key)
    && (forall x, y :: key(x, y) in types <==> Before(x, y, i, j))
    && (forall x, y | Before(x, y, i, j) :: types[key(x, y)] == f(x, y))
  }

  /** One step of the inner loop, at the pair (x, y) in row i, column j:
      the key is fresh, and storing f's value keeps FilledBefore. */
  lemma FillStep(types: map<string, PersonalityType>, key: (XAxis, YAxis) -> string,
                 f: (XAxis, YAxis) -> PersonalityType, x: XAxis, y: YAxis, i: nat, j: nat)
    requires Injective(key)
    requires XIndex(x) == i && YIndex(y) == j
    requires FilledBefore(types, key, f, i, j)
    ensures key(x, y) !in types
    ensures FilledBefore(types[key(x, y) := f(x, y)], key, f, i, j + 1)
  {
    var t := types[key(x, y) := f(x, y)];
    InKeySet(key, x, y);
    forall a, b ensures key(a, b) in t <==> Before(a, b, i, j + 1) {
      BeforeNext(a, b, x, y, i, j);
    }
    forall a, b | Before(a, b, i, j + 1) ensures t[key(a, b)] == f(a, b) {
      BeforeNext(a, b, x, y, i, j);
    }
  }

  /** Finishing the last column of row i is starting row i + 1. */
  lemma RowDone(types: map<string, PersonalityType>, key: (XAxis, YAxis) -> string,
                f: (XAxis, YAxis) -> PersonalityType, i: int)
    requires Injective(key)
    requires FilledBefore(types, key, f, i, |YAxes|)
    ensures FilledBefore(types, key, f, i + 1, 0)
  {
    forall a, b ensures Before(a, b, i + 1, 0) <==> Before(a, b, i, |YAxes|) {
    }
  }

  /** Once every row is filled, what was written is exactly the tabulation. */
  lemma FilledIsTabulation(types: map<string, PersonalityType>, key: (XAxis, YAxis) -> string,
                           f: (XAxis, YAxis) -> PersonalityType)
    requires Injective(key)
    requires FilledBefore(types, key, f, |XAxes|, 0)
    ensures types == Tabulate(key, f)
  {
    var table := Tabulate(key, f);
    forall k | k in table ensures k in types && types[k] == table[k] {
      TabulateKeys(key, f, k);
      var x, y :| k == key(x, y);
      assert Before(x, y, |XAxes|, 0);
      TabulateLookup(key, f, x, y);
    }
    forall k | k in types ensures k in table {
      var x, y :| x in XAxes && y in YAxes && k == key(x, y);
      TabulateLookup(key, f, x, y);
    }
    assert types.Keys == table.Keys;
  }

  /** The generation loop: for each X value in order, store its row. The
      result is the catalog, which depends on nothing but the constant tables. */
  method BuildCatalog() returns (types: map<string, PersonalityType>)
    ensures types == Catalog()
    ensures |types| == |XAxes| * |YAxes|
  {
    IdsDistinct();
    types := map[];
    for i := 0 to |XAxes|
      invariant FilledBefore(types, Id, Entry, i, 0)
      invariant |types| == i * |YAxes|
    {
      types := FillRow(types, i);
    }
    FilledIsTabulation(types, Id, Entry);
  }

  /** The inner loop for row i: for each Y value in order, store the entry of
      (X value i, Y value) under its id. */
  method FillRow(types: map<string, PersonalityType>, i: nat) returns (row: map<string, PersonalityType>)
    requires i < |XAxes|
    requires FilledBefore(types, Id, Entry, i, 0)
    ensures FilledBefore(row, Id, Entry, i + 1, 0)
    ensures |row| == |types| + |YAxes|
  {
    IdsDistinct();
    var x := XAxes[i];
    row := types;
    for j := 0 to |YAxes|
      invariant FilledBefore(row, Id, Entry, i, j)
      invariant |row| == |types| + j
    {
      var y := YAxes[j];
      AxesIndexed(i, j);
      FillStep(row, Id, Entry, x, y, i, j);
      row := row[Id(x, y) := Entry(x, y)];
    }
    RowDone(row, Id, Entry, i);
  }
}
