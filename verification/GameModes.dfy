/**
 * src/constants/gameModeConfig.js: the three game modes as constant data, and the lookups over
 * them. Every lookup is total: an unknown id or name falls back to the INSURANCE mode.
 */
module GameModes {
  import opened Wrappers

  datatype Dir = Up | Down

  /** `title` is the source's `label` field, a word Dafny reserves. */
  datatype Pattern = Pattern(code: string, title: string, dots: seq<Dir>, enabled: bool, kind: Dir)

  datatype InsuranceOption = InsuranceOption(section: string, cost: real, payoutDeduction: real)

  datatype Rewards = Rewards(daily: int, weekly: int, monthly: int)

  datatype BattlePass = BattlePass(
    types: seq<string>, target: int, closingTime: string, rewards: Rewards,
    rewardPool: int, purchaseToken: string)

  datatype Ui = Ui(showInsuranceBadges: bool, showBattlePass: bool, gridLayout: string)

  /**
   * Fields a mode does not declare are `None` (JavaScript `undefined`); `title` is the source's
   * `label` field.
   */
  datatype GameMode = GameMode(
    id: int, name: string, title: string, description: string,
    totalPatterns: int, patterns: seq<Pattern>,
    tokens: seq<string>, acceptBothTokens: bool, defaultToken: string,
    hasInsurance: bool, insuranceOptions: Option<seq<InsuranceOption>>,
    tieRule: string, tieWithInsurance: Option<string>,
    payoutMultiplier: real, payoutRules: string,
    features: Option<seq<string>>, battlePass: Option<BattlePass>, ui: Ui)

  const Mooning := Pattern("AU", "Mooning", [Up, Up, Up], true, Up)
  const OutOfGas := Pattern("SU", "Out of Gas", [Down, Up, Up], true, Up)
  const Rollercoaster := Pattern("MU", "Rollercoaster", [Up, Down, Up], true, Up)
  const Comeback := Pattern("QU", "Comeback", [Up, Up, Down], true, Up)
  const Dumping := Pattern("AD", "Dumping", [Down, Down, Down], true, Down)
  const LuckyBounce := Pattern("SD", "Lucky Bounce", [Down, Down, Up], true, Down)
  const FakeOut := Pattern("MD", "Fake Out", [Down, Up, Down], true, Down)
  const TheTrap := Pattern("QD", "The Trap", [Up, Down, Down], true, Down)

  /** The two eight-pattern rows: UP patterns, then DOWN patterns. */
  const UpRow: seq<Pattern> := [Mooning, OutOfGas, Rollercoaster, Comeback]
  const DownRow: seq<Pattern> := [Dumping, LuckyBounce, FakeOut, TheTrap]

  const Insurance := GameMode(
    6, "Insurance Mode", "Insurance", "4 patterns with insurance protection",
    4, [Mooning, OutOfGas, Dumping, LuckyBounce],
    ["FEFE", "GMCHIP"], true, "GMCHIP",
    true, Some([InsuranceOption("Section 1", 0.20, 0.30), InsuranceOption("Section 2", 0.30, 0.30)]),
    "loss", Some("refund50"),
    1.0, "insurance",
    Some(["insuranceBadges", "insuranceNotifications"]), None,
    Ui(true, false, "1x4"))

  const Battle := GameMode(
    7, "Battle Mode", "Battle", "8 patterns, GMCHIP only, Battle Pass rewards",
    8, UpRow + DownRow,
    ["GMCHIP"], false, "GMCHIP",
    false, None,
    "loss", None,
    1.0, "standard",
    Some(["battlePass", "leaderboard"]),
    Some(BattlePass(["Daily", "Weekly", "Monthly"], 3000, "05:00", Rewards(500, 5000, 50000), 100000, "FEFE")),
    Ui(false, true, "2x4"))

  const Extreme := GameMode(
    8, "Extreme Mode", "Extreme", "8 patterns, high risk, no insurance",
    8, UpRow + DownRow,
    ["FEFE", "GMCHIP"], true, "FEFE",
    false, None,
    "loss", None,
    1.0, "crossToken",
    Some([]), None,
    Ui(false, false, "2x4"))

  /** `GAME_MODES`: keys and modes in declaration order (the order `Object.values` yields). */
  const GameModeTable: seq<(string, GameMode)> :=
    [("INSURANCE", Insurance), ("BATTLE", Battle), ("EXTREME", Extreme)]

  function Values(table: seq<(string, GameMode)>): (r: seq<GameMode>)
    ensures |r| == |table| && forall i :: 0 <= i < |table| ==> r[i] == table[i].1
  {
    if table == [] then [] else [table[0].1] + Values(table[1..])
  }

  /** `getAllGameModes` */
  function GetAllGameModes(): (r: seq<GameMode>)
    ensures r == [Insurance, Battle, Extreme]
  {
    Values(GameModeTable)
  }

  /** `Array.prototype.find` over the modes by id. */
  function FindById(modes: seq<GameMode>, gameId: int): (r: Option<GameMode>)
    ensures r.Some? <==> exists i :: 0 <= i < |modes| && modes[i].id == gameId
    ensures r.Some? ==> r.value in modes && r.value.id == gameId
  {
    if modes == [] then None
    else if modes[0].id == gameId then Some(modes[0])
    else FindById(modes[1..], gameId)
  }

  /** `getGameModeById`: the mode with that id, else INSURANCE. */
  function GetGameModeById(gameId: int): (r: GameMode)
    ensures r in GetAllGameModes()
    ensures (exists m :: m in GetAllGameModes() && m.id == gameId) ==> r.id == gameId
    ensures (forall m :: m in GetAllGameModes() ==> m.id != gameId) ==> r == Insurance
  {
    FindById(GetAllGameModes(), gameId).GetOr(Insurance)
  }

  /**
   * `String.prototype.toUpperCase` on one character, for the characters whose upper case is
   * ASCII: a-z, dotless i (U+0131) to I and long s (U+017F) to S. Other characters are left
   * as they are; none of them can upper-case into a table key.
   */
  function UpperChar(c: char): char
  {
    if 'a' <= c <= 'z' then (c as int - 32) as char
    else if c == 'ı' then 'I'
    else if c == 'ſ' then 'S'
    else c
  }

  function ToUpper(s: string): (r: string)
    ensures |r| == |s| && forall i :: 0 <= i < |s| ==> r[i] == UpperChar(s[i])
  {
    if s == [] then [] else [UpperChar(s[0])] + ToUpper(s[1..])
  }

  /** Keyed lookup `GAME_MODES[key]`. */
  function LookupKey(table: seq<(string, GameMode)>, key: string): (r: Option<GameMode>)
    ensures r.Some? <==> exists i :: 0 <= i < |table| && table[i].0 == key
    ensures forall i :: 0 <= i < |table| && table[i].0 == key ==>
      (forall j :: 0 <= j < i ==> table[j].0 != key) ==> r == Some(table[i].1)
  {
    if table == [] then None
    else if table[0].0 == key then Some(table[0].1)
    else LookupKey(table[1..], key)
  }

  /** `getGameModeByName`: keyed lookup of the upper-cased name, else INSURANCE. */
  function GetGameModeByName(name: string): (r: GameMode)
  {
    LookupKey(GameModeTable, ToUpper(name)).GetOr(Insurance)
  }

  /** `hasModeFeature` */
  predicate HasModeFeature(gameMode: GameMode, feature: string)
  {
    gameMode.features.Some? && feature in gameMode.features.value
  }

  /** The three ids are distinct, so `find` by id has at most one candidate. */
  lemma IdsDistinct()
    ensures forall i, j :: 0 <= i < j < |GetAllGameModes()| ==>
      GetAllGameModes()[i].id != GetAllGameModes()[j].id
  {
  }

  /** Looking a mode up by its own id gives that mode back. */
  lemma ByIdFindsEachMode(m: GameMode)
    requires m in GetAllGameModes()
    ensures GetGameModeById(m.id) == m
  {
  }

  /** The name lookup finds the mode whose key is the upper-cased name, and only then. */
  lemma ByNameMatchesKeys(name: string)
    ensures ToUpper(name) == "INSURANCE" ==> GetGameModeByName(name) == Insurance
    ensures ToUpper(name) == "BATTLE" ==> GetGameModeByName(name) == Battle
    ensures ToUpper(name) == "EXTREME" ==> GetGameModeByName(name) == Extreme
    ensures ToUpper(name) !in {"INSURANCE", "BATTLE", "EXTREME"} ==> GetGameModeByName(name) == Insurance
  {
    var t := GameModeTable;
    assert t[0].0[0] == 'I' && t[1].0[0] == 'B' && t[2].0[0] == 'E';
    assert t[1].0 == "BATTLE" && t[2].0 == "EXTREME";
  }

  /** A lower-case spelling of a key selects that mode. */
  lemma ByNameIgnoresCase()
    ensures GetGameModeByName("battle") == Battle
  {
    var b := ToUpper("battle");
    assert b[0] == 'B' && b[1] == 'A' && b[2] == 'T' && b[3] == 'T' && b[4] == 'L' && b[5] == 'E';
    assert b == "BATTLE";
    ByNameMatchesKeys("battle");
  }

  /** A mixed-case spelling of a key selects that mode. */
  lemma ByNameIgnoresMixedCase()
    ensures GetGameModeByName("Extreme") == Extreme
  {
    var e := ToUpper("Extreme");
    assert e[0] == 'E' && e[1] == 'X' && e[2] == 'T' && e[3] == 'R' && e[4] == 'E' && e[5] == 'M' && e[6] == 'E';
    assert e == "EXTREME";
    ByNameMatchesKeys("Extreme");
  }

  predicate PatternCodesDistinct(ps: seq<Pattern>)
  {
    forall i, j :: 0 <= i < j < |ps| ==> ps[i].code != ps[j].code
  }

  function CountDir(dots: seq<Dir>, d: Dir): nat
  {
    if dots == [] then 0 else (if dots[0] == d then 1 else 0) + CountDir(dots[1..], d)
  }

  /** A pattern's type is the direction most of its three dots point. */
  predicate TypeIsMajority(p: Pattern)
  {
    |p.dots| == 3 && CountDir(p.dots, p.kind) >= 2
  }

  /** A mode's patterns: as many as `totalPatterns`, codes distinct, three dots each,
      type the majority direction. */
  predicate PatternsWellFormed(m: GameMode)
  {
    && |m.patterns| == m.totalPatterns
    && PatternCodesDistinct(m.patterns)
    && forall i :: 0 <= i < |m.patterns| ==> TypeIsMajority(m.patterns[i])
  }

  lemma EachPatternMajority()
    ensures TypeIsMajority(Mooning) && TypeIsMajority(OutOfGas)
    ensures TypeIsMajority(Rollercoaster) && TypeIsMajority(Comeback)
    ensures TypeIsMajority(Dumping) && TypeIsMajority(LuckyBounce)
    ensures TypeIsMajority(FakeOut) && TypeIsMajority(TheTrap)
  {
  }

  /** Every mode's pattern table is well formed; the totals are 4, 8 and 8. */
  lemma PatternTables()
    ensures forall m :: m in GetAllGameModes() ==> PatternsWellFormed(m)
    ensures [Insurance.totalPatterns, Battle.totalPatterns, Extreme.totalPatterns] == [4, 8, 8]
  {
    assert PatternsWellFormed(Insurance) by {
      EachPatternMajority();
    }
    assert PatternsWellFormed(Battle) && PatternsWellFormed(Extreme) by {
      EightPatternsWellFormed();
    }
  }

  lemma EightPatternsWellFormed()
    ensures PatternCodesDistinct(UpRow + DownRow)
    ensures forall i :: 0 <= i < |UpRow + DownRow| ==> TypeIsMajority((UpRow + DownRow)[i])
  {
    EachPatternMajority();
    var eight := UpRow + DownRow;
    assert eight == [Mooning, OutOfGas, Rollercoaster, Comeback, Dumping, LuckyBounce, FakeOut, TheTrap];
  }

  /** In the eight-pattern modes the first row is the UP row and the second the DOWN row. */
  lemma PatternRows()
    ensures Battle.patterns[..4] == UpRow && Battle.patterns[4..] == DownRow
    ensures Extreme.patterns[..4] == UpRow && Extreme.patterns[4..] == DownRow
    ensures forall p :: p in UpRow ==> p.kind == Up
    ensures forall p :: p in DownRow ==> p.kind == Down
  {
  }

  /** Only INSURANCE has insurance: two sections costing 20% and 30%, each deducting 30%. */
  lemma InsuranceRules()
    ensures forall m :: m in GetAllGameModes() ==> (m.hasInsurance <==> m == Insurance)
    ensures Insurance.insuranceOptions == Some([
      InsuranceOption("Section 1", 0.20, 0.30), InsuranceOption("Section 2", 0.30, 0.30)])
  {
  }

  /** A tie is a loss in every mode; only INSURANCE adds the refund50 rule with insurance. */
  lemma TieRules()
    ensures forall m :: m in GetAllGameModes() ==> m.tieRule == "loss"
    ensures forall m :: m in GetAllGameModes() ==>
      (m.tieWithInsurance.Some? <==> m == Insurance)
    ensures Insurance.tieWithInsurance == Some("refund50")
  {
  }

  lemma FeatureLookups()
    ensures HasModeFeature(Battle, "battlePass") && !HasModeFeature(Insurance, "battlePass")
    ensures forall f :: !HasModeFeature(Extreme, f)
  {
  }
}
