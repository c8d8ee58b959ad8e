/**
 * Persistent gameplay stats per game mode (puzzling-potions/src/utils/userStats.ts).
 * The key-value storage behind it is modelled as a map from keys to stored
 * values.
 */
module UserStats {
  import opened Config

  /** Keys for saved items in storage */
  const KeyPrefixStats: string := "stats-"
  const KeyPrefixBestScore: string := "stats-best-score-"

  /** The stats of one session, as saved and loaded */
  datatype StatsData = StatsData(score: int, matches: int, pops: int, specials: int, grade: int)

  /** What `load` answers when nothing is saved */
  const NoStats := StatsData(0, 0, 0, 0, 0)

  /** A stored value: an object (the saved stats) or a number (a best score) */
  datatype StoredValue = ObjectValue(stats: StatsData) | NumberValue(number: int)

  /** The key of a mode's last saved stats: `stats-` and the mode */
  function StatsKey(mode: Mode): (k: string)
    ensures KeyPrefixStats <= k && k[|KeyPrefixStats|..] == ModeName(mode)
  {
    KeyPrefixStats + ModeName(mode)
  }

  /** The key of a mode's best score: `stats-best-score-` and the mode */
  function BestScoreKey(mode: Mode): (k: string)
    ensures KeyPrefixBestScore <= k && k[|KeyPrefixBestScore|..] == ModeName(mode)
  {
    KeyPrefixBestScore + ModeName(mode)
  }

  /** The eight keys of the four modes are pairwise distinct */
  lemma StorageKeysDistinct(m1: Mode, m2: Mode)
    ensures StatsKey(m1) != BestScoreKey(m2)
    ensures StatsKey(m1) == StatsKey(m2) ==> m1 == m2
    ensures BestScoreKey(m1) == BestScoreKey(m2) ==> m1 == m2
  {
    ModeNameInjective(m1, m2);
    // no mode name starts with the 'b' of "best"
    assert BestScoreKey(m2)[6] == 'b';
    assert StatsKey(m1)[6] == ModeName(m1)[0];
    if StatsKey(m1) == StatsKey(m2) {
      assert ModeName(m1) == StatsKey(m1)[6..] == StatsKey(m2)[6..] == ModeName(m2);
    }
    if BestScoreKey(m1) == BestScoreKey(m2) {
      assert ModeName(m1) == BestScoreKey(m1)[17..] == BestScoreKey(m2)[17..] == ModeName(m2);
    }
  }

  function Max(a: int, b: int): int
  {
    if a >= b then a else b
  }

  class UserStats {
    /** The contents of the persistent storage */
    var storage: map<string, StoredValue>

    constructor (storage: map<string, StoredValue>)
      ensures this.storage == storage
    {
      this.storage := storage;
    }

    /** Last saved stats of a mode; all zero when nothing is saved */
    function Load(mode: Mode): (d: StatsData)
      reads this
      ensures StatsKey(mode) !in storage ==> d == NoStats
      ensures d == NoStats || storage[StatsKey(mode)] == ObjectValue(d)
      ensures StatsKey(mode) in storage && storage[StatsKey(mode)].ObjectValue? ==>
        d == storage[StatsKey(mode)].stats
    {
      var key := StatsKey(mode);
      if key in storage && storage[key].ObjectValue? then storage[key].stats else NoStats
    }

    /** Saved best score of a mode; 0 when none is saved */
    function LoadBestScore(mode: Mode): (b: int)
      reads this
      ensures BestScoreKey(mode) !in storage ==> b == 0
      ensures b == 0 || storage[BestScoreKey(mode)] == NumberValue(b)
      ensures BestScoreKey(mode) in storage && storage[BestScoreKey(mode)].NumberValue? ==>
        b == storage[BestScoreKey(mode)].number
    {
      var key := BestScoreKey(mode);
      if key in storage && storage[key].NumberValue? then storage[key].number else 0
    }

    /**
     * Save a mode's stats; the best score is rewritten only when the new score
     * beats it. Only the mode's two keys can change.
     */
    method Save(mode: Mode, data: StatsData)
      modifies this
      ensures storage ==
        (if data.score > old(LoadBestScore(mode))
         then old(storage)[BestScoreKey(mode) := NumberValue(data.score)]
         else old(storage))[StatsKey(mode) := ObjectValue(data)]
      ensures Load(mode) == data
      ensures LoadBestScore(mode) == Max(old(LoadBestScore(mode)), data.score)
      ensures LoadBestScore(mode) >= old(LoadBestScore(mode))
      ensures data.score <= old(LoadBestScore(mode)) ==>
        (BestScoreKey(mode) in storage <==> BestScoreKey(mode) in old(storage)) &&
        (BestScoreKey(mode) in storage ==> storage[BestScoreKey(mode)] == old(storage)[BestScoreKey(mode)])
      ensures forall k :: k != StatsKey(mode) && k != BestScoreKey(mode) ==>
        (k in storage <==> k in old(storage)) && (k in storage ==> storage[k] == old(storage)[k])
      ensures forall m: Mode :: m != mode ==>
        Load(m) == old(Load(m)) && LoadBestScore(m) == old(LoadBestScore(m))
    {
      StorageKeysDistinct(mode, mode);
      if data.score > LoadBestScore(mode) {
        storage := storage[BestScoreKey(mode) := NumberValue(data.score)];
      }
      storage := storage[StatsKey(mode) := ObjectValue(data)];
      forall m: Mode | m != mode
        ensures StatsKey(m) != StatsKey(mode) && StatsKey(m) != BestScoreKey(mode)
        ensures BestScoreKey(m) != StatsKey(mode) && BestScoreKey(m) != BestScoreKey(mode)
      {
        StorageKeysDistinct(m, mode);
        StorageKeysDistinct(mode, m);
      }
    }
  }

  /** With nothing saved for a mode, every loaded counter and the best score are 0 */
  lemma NothingSavedLoadsZeros(u: UserStats, mode: Mode)
    requires StatsKey(mode) !in u.storage && BestScoreKey(mode) !in u.storage
    ensures var d := u.Load(mode);
      d.score == 0 && d.matches == 0 && d.pops == 0 && d.specials == 0 && d.grade == 0
    ensures u.LoadBestScore(mode) == 0
  {
  }
}
