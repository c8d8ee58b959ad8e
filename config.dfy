/**
 * Game modes, the piece table per mode and the session configuration
 * (puzzling-potions/src/match3/Match3Config.ts).
 */
module Config {
  import opened Wrappers

  /** The game modes; their names are the strings of `match3ValidModes`. */
  datatype Mode = Test | Easy | Normal | Hard

  /** The name of a mode, as it appears in `match3ValidModes` and in storage keys */
  function ModeName(m: Mode): string
  {
    match m
    case Test => "test"
    case Easy => "easy"
    case Normal => "normal"
    case Hard => "hard"
  }

  /** `match3ValidModes`: every valid mode name, easiest first */
  const ValidModes: seq<string> := ["test", "easy", "normal", "hard"]

  /** The position of a mode in `ValidModes`, i.e. how hard it is */
  function Difficulty(m: Mode): (i: nat)
    ensures i < |ValidModes| && ValidModes[i] == ModeName(m)
  {
    match m
    case Test => 0
    case Easy => 1
    case Normal => 2
    case Hard => 3
  }

  /** The valid modes are exactly test, easy, normal and hard, each listed once */
  lemma ValidModesAreExactlyTheModes()
    ensures |ValidModes| == 4
    ensures forall m: Mode :: ModeName(m) in ValidModes
    ensures forall s :: s in ValidModes ==> exists m: Mode :: ModeName(m) == s
    ensures forall i, j :: 0 <= i < j < |ValidModes| ==> ValidModes[i] != ValidModes[j]
  {
    assert ValidModes[0] == ModeName(Test);
    assert ValidModes[1] == ModeName(Easy);
    assert ValidModes[2] == ModeName(Normal);
    assert ValidModes[3] == ModeName(Hard);
  }

  /** Two modes with the same name are the same mode */
  lemma ModeNameInjective(m1: Mode, m2: Mode)
    ensures ModeName(m1) == ModeName(m2) ==> m1 == m2
  {
    if ModeName(m1) == ModeName(m2) {
      assert ValidModes[Difficulty(m1)] == ValidModes[Difficulty(m2)];
      ValidModesAreExactlyTheModes();
    }
  }

  /**
   * The plain piece types of the `blocks` table, per mode: one more piece per
   * step of difficulty, each named after its texture `piece-...`
   */
  function ModeBlocks(m: Mode): (r: seq<string>)
    ensures |r| == Difficulty(m) + 3
    ensures forall i :: 0 <= i < |r| ==> |r[i]| > 6 && r[i][..6] == "piece-"
  {
    match m
    case Test => ["piece-dragon", "piece-frog", "piece-newt"]
    case Easy => ["piece-dragon", "piece-frog", "piece-newt", "piece-snake"]
    case Normal => ["piece-dragon", "piece-frog", "piece-newt", "piece-snake", "piece-spider"]
    case Hard => ["piece-dragon", "piece-frog", "piece-newt", "piece-snake", "piece-spider", "piece-yeti"]
  }

  /** The `special` entry of the `blocks` table: added to every mode */
  const SpecialBlocks: seq<string> := ["special-blast", "special-row", "special-column", "special-colour"]

  /** True iff no element of `s` occurs twice */
  predicate Distinct(s: seq<string>)
  {
    forall i, j :: 0 <= i < j < |s| ==> s[i] != s[j]
  }

  /** `match3GetBlocks`: the mode's plain pieces followed by the special types */
  function GetBlocks(m: Mode): (r: seq<string>)
    ensures |r| == |ModeBlocks(m)| + |SpecialBlocks|
    ensures r[..|ModeBlocks(m)|] == ModeBlocks(m)
    ensures r[|ModeBlocks(m)|..] == SpecialBlocks
  {
    ModeBlocks(m) + SpecialBlocks
  }

  /** Test, easy, normal and hard have 3, 4, 5 and 6 plain pieces */
  lemma ModeBlockCounts(m: Mode)
    ensures |ModeBlocks(m)| == Difficulty(m) + 3
    ensures |GetBlocks(m)| == |ModeBlocks(m)| + 4
  {
  }

  /** Every mode's list ends with blast, row, column and colour, in that order */
  lemma GetBlocksEndWithSpecials(m: Mode)
    ensures var r := GetBlocks(m);
      |r| >= 4 &&
      r[|r| - 4] == "special-blast" && r[|r| - 3] == "special-row" &&
      r[|r| - 2] == "special-column" && r[|r| - 1] == "special-colour"
  {
    var r := GetBlocks(m);
    assert r[|r| - 4..] == SpecialBlocks;
  }

  /** A harder mode's plain pieces extend (have as a prefix) an easier mode's */
  lemma HarderModeExtendsEasier(m1: Mode, m2: Mode)
    requires Difficulty(m1) <= Difficulty(m2)
    ensures ModeBlocks(m1) <= ModeBlocks(m2)
    ensures ModeBlocks(m2)[..|ModeBlocks(m1)|] == ModeBlocks(m1)
  {
  }

  /** Each mode's block list names every type once, and no plain piece is special */
  lemma GetBlocksDistinct(m: Mode)
    ensures Distinct(GetBlocks(m))
    ensures forall t :: t in ModeBlocks(m) ==> t !in SpecialBlocks
  {
    var r := GetBlocks(m);
    var all := ModeBlocks(Hard) + SpecialBlocks;
    assert Distinct(all);
    HarderModeExtendsEasier(m, Hard);
    forall i, j | 0 <= i < j < |r| ensures r[i] != r[j] {
      var n := |ModeBlocks(m)|;
      var i', j' := if i < n then i else i - n + 6, if j < n then j else j - n + 6;
      assert r[i] == all[i'] && r[j] == all[j'];
    }
  }

  /** `Match3Config`: the session parameters */
  datatype Match3Config = Match3Config(
    rows: int,
    columns: int,
    tileSize: int,
    freeMoves: bool,
    /** gameplay duration, in seconds */
    duration: real,
    mode: Mode)

  /** `defaultConfig` */
  const DefaultConfig := Match3Config(9, 7, 50, false, 60.0, Normal)

  /** `Partial<Match3Config>`: every field may be absent */
  datatype PartialConfig = PartialConfig(
    rows: Option<int>,
    columns: Option<int>,
    tileSize: Option<int>,
    freeMoves: Option<bool>,
    duration: Option<real>,
    mode: Option<Mode>)

  /** The empty object `{}`, the default argument of `match3GetConfig` */
  const NoOverrides := PartialConfig(None, None, None, None, None, None)

  /** A full configuration seen as a partial one with every field present */
  function AsPartial(c: Match3Config): PartialConfig
  {
    PartialConfig(Some(c.rows), Some(c.columns), Some(c.tileSize), Some(c.freeMoves), Some(c.duration), Some(c.mode))
  }

  /**
   * `match3GetConfig`: `{ ...defaultConfig, ...customConfig }`, i.e. every field
   * present in `customConfig` wins and every absent field keeps its default.
   */
  function GetConfig(customConfig: PartialConfig := NoOverrides): (r: Match3Config)
    ensures customConfig.rows.Some? ==> r.rows == customConfig.rows.value
    ensures customConfig.rows.None? ==> r.rows == DefaultConfig.rows
    ensures customConfig.columns.Some? ==> r.columns == customConfig.columns.value
    ensures customConfig.columns.None? ==> r.columns == DefaultConfig.columns
    ensures customConfig.tileSize.Some? ==> r.tileSize == customConfig.tileSize.value
    ensures customConfig.tileSize.None? ==> r.tileSize == DefaultConfig.tileSize
    ensures customConfig.freeMoves.Some? ==> r.freeMoves == customConfig.freeMoves.value
    ensures customConfig.freeMoves.None? ==> r.freeMoves == DefaultConfig.freeMoves
    ensures customConfig.duration.Some? ==> r.duration == customConfig.duration.value
    ensures customConfig.duration.None? ==> r.duration == DefaultConfig.duration
    ensures customConfig.mode.Some? ==> r.mode == customConfig.mode.value
    ensures customConfig.mode.None? ==> r.mode == DefaultConfig.mode
  {
    Match3Config(
      customConfig.rows.GetOr(DefaultConfig.rows),
      customConfig.columns.GetOr(DefaultConfig.columns),
      customConfig.tileSize.GetOr(DefaultConfig.tileSize),
      customConfig.freeMoves.GetOr(DefaultConfig.freeMoves),
      customConfig.duration.GetOr(DefaultConfig.duration),
      customConfig.mode.GetOr(DefaultConfig.mode))
  }

  /** Called without an argument, `match3GetConfig` returns the defaults */
  lemma GetConfigDefaults()
    ensures GetConfig() == Match3Config(9, 7, 50, false, 60.0, Normal)
  {
  }

  /** A full configuration passes through unchanged */
  lemma GetConfigOfFull(c: Match3Config)
    ensures GetConfig(AsPartial(c)) == c
  {
  }

  /** Completing an already completed configuration changes nothing */
  lemma GetConfigIdempotent(customConfig: PartialConfig)
    ensures GetConfig(AsPartial(GetConfig(customConfig))) == GetConfig(customConfig)
  {
    GetConfigOfFull(GetConfig(customConfig));
  }
}
