# Puzzling Potions match-3: session timer, configuration, facade and saved stats

This project models the parts of the Puzzling Potions match-3 game whose
source is at hand, and proves properties of them in Dafny:

- **Timer** (`timer.dfy`, `Match3Timer.ts`): the session timer. It counts
  elapsed milliseconds from 0 up to a fixed duration. It can be paused, and it
  is advanced only by explicit `update(delta)` calls. When the time reaches the
  duration it stops and fires the `onTimesUp` callback. The class
  `Match3Timer` has the source's four fields. Its methods state the new field
  values as a function of the old ones, through the value type `TimerState`.
  Ghost state records the number of `start` calls, the number of callback
  firings, and whether the callback fired since the latest `start`. The class
  invariant: never more firings than starts, a running timer still has one
  firing ahead, and a running timer has not fired since its latest start. An
  `update` after a firing and before the next `start` fires nothing. Lemmas
  over sequences of calls (`Run`) prove the range, firing and accumulation
  properties, and that a whole history of starts, stops, resets, setups and
  updates fires at most once between consecutive starts.
- **Config** (`config.dfy`, `Match3Config.ts`): the closed set of game modes,
  the table of piece types per mode with the four special types appended, the
  default configuration, and `match3GetConfig`'s default-and-override merge.
  A `Partial<Match3Config>` is a record of `Option` fields.
- **Match3** (`match3.dfy`, `Match3.ts`): the session facade, reduced to its
  configuration, its timer and its playing flag (`interactiveChildren`).
- **UserStats** (`user_stats.dfy`, `userStats.ts`): per-mode saved stats and
  best score over a key-value storage. The storage is modelled as a
  `map<string, StoredValue>` field.

Modelling choices:
- Times and deltas are exact `real` milliseconds. `Math.floor` is `.Floor`,
  so the timer's duration is an `int`. Grid sizes, tile size and stats
  counters are `int`.
- The facade's constructor sets `interactiveChildren` to true. That is the
  default of a PixiJS `Container`, so `isPlaying()` is true on a fresh game
  until `setup` or `reset` runs.
- `0 <= time <= duration` is not a class invariant. `setup` with a negative
  duration breaks it, and so does an update with a negative delta. The model
  proves it as a property of runs that start with `start`, with a
  non-negative duration and non-negative deltas (`RunKeepsBounds`,
  `TimesUpAtMostOncePerStart`).
- The code does not validate configurations. `match3GetConfig` and `setup`
  accept any grid size, duration and mode, so the model has no "malformed
  configuration" error either. The same goes for the facade's `update`: it
  forwards to the timer whatever the playing flag says, and the timer's own
  state alone decides whether time advances.

## Model

| member | source | states |
|---|---|---|
| `Config.Difficulty` | puzzling-potions/src/match3/Match3Config.ts:3 | each mode's name is at that mode's index in `match3ValidModes` |
| `Config.ValidModesAreExactlyTheModes` | puzzling-potions/src/match3/Match3Config.ts:3 | `ValidModes` (`match3ValidModes`) is exactly the names of test, easy, normal and hard: four entries, no repeats, every mode listed |
| `Config.ModeNameInjective` | puzzling-potions/src/match3/Match3Config.ts:3-7 | distinct modes have distinct names |
| `Config.ModeBlocks` | puzzling-potions/src/match3/Match3Config.ts:17-29 | the `blocks` table's plain pieces: difficulty plus 3 of them, each named `piece-...` |
| `Config.GetBlocks` | puzzling-potions/src/match3/Match3Config.ts:70-72 | the result is the mode's plain pieces followed by the special types; its length is the mode's count plus 4 |
| `Config.ModeBlockCounts` | puzzling-potions/src/match3/Match3Config.ts:20-29 | test, easy, normal and hard have 3, 4, 5 and 6 plain pieces; a mode's block list has 4 more entries |
| `Config.GetBlocksEndWithSpecials` | puzzling-potions/src/match3/Match3Config.ts:30-32 | `SpecialBlocks` is appended to every mode: every mode's block list ends with special-blast, special-row, special-column, special-colour, in that order |
| `Config.HarderModeExtendsEasier` | puzzling-potions/src/match3/Match3Config.ts:20-29 | an easier mode's plain piece list is a prefix of every harder mode's |
| `Config.GetBlocksDistinct` | puzzling-potions/src/match3/Match3Config.ts:17-33 | no type occurs twice in a mode's block list, and no plain piece is a special type |
| `Config.GetConfig` | puzzling-potions/src/match3/Match3Config.ts:64-66 | every field present in the custom config overrides the default; every absent field keeps its default |
| `Config.GetConfigDefaults` | puzzling-potions/src/match3/Match3Config.ts:37-66 | without an argument (`NoOverrides`, the `{}` default) the config is `DefaultConfig`: rows 9, columns 7, tileSize 50, freeMoves false, duration 60, mode normal |
| `Config.GetConfigOfFull` | puzzling-potions/src/match3/Match3Config.ts:65 | a config with every field present comes back unchanged |
| `Config.GetConfigIdempotent` | puzzling-potions/src/match3/Match3Config.ts:65 | completing an already completed config changes nothing |
| `Timer.TimerState.Reset` | puzzling-potions/src/match3/Match3Timer.ts:31-36 | time and duration become 0; running and paused are cleared |
| `Timer.TimerState.Setup` | puzzling-potions/src/match3/Match3Timer.ts:42-45 | stopped, unpaused, time 0, duration the floor of `d` (the largest whole number not above `d`) |
| `Timer.TimerState.Start` | puzzling-potions/src/match3/Match3Timer.ts:48-52 | running, unpaused, time 0, duration unchanged |
| `Timer.TimerState.Stop` | puzzling-potions/src/match3/Match3Timer.ts:55-59 | not running, unpaused, time equal to the duration |
| `Timer.TimerState.Pause` | puzzling-potions/src/match3/Match3Timer.ts:62-64 | sets paused; time, duration and running unchanged |
| `Timer.TimerState.Resume` | puzzling-potions/src/match3/Match3Timer.ts:67-69 | clears paused; time, duration and running unchanged |
| `Timer.TimerState.Remaining` | puzzling-potions/src/match3/Match3Timer.ts:100-102 | within `[0, duration]` whenever the time is; zero exactly when the time equals the duration |
| `Timer.TimerState.Update` | puzzling-potions/src/match3/Match3Timer.ts:75-82 | stopped or paused: nothing changes, nothing fires; below the duration: time advances by delta, nothing fires; reaching or passing it: the timer is stopped at the duration and fires once |
| `Timer.Match3Timer.constructor` | puzzling-potions/src/match3/Match3Timer.ts:15-28 | time 0, duration 0, not paused, not running, nothing started or fired |
| `Timer.Match3Timer.Reset` | puzzling-potions/src/match3/Match3Timer.ts:31-36 | the fields become `Reset()` of the old state; nothing fires |
| `Timer.Match3Timer.Setup` | puzzling-potions/src/match3/Match3Timer.ts:42-45 | the fields become `Setup(d)` of the old state; nothing fires |
| `Timer.Match3Timer.Start` | puzzling-potions/src/match3/Match3Timer.ts:48-52 | the fields become `Start()` of the old state; one more start is counted and no firing since it |
| `Timer.Match3Timer.Stop` | puzzling-potions/src/match3/Match3Timer.ts:55-59 | the fields become `Stop()` of the old state; `onTimesUp` does not fire |
| `Timer.Match3Timer.Pause` | puzzling-potions/src/match3/Match3Timer.ts:62-64 | the fields become `Pause()` of the old state |
| `Timer.Match3Timer.Resume` | puzzling-potions/src/match3/Match3Timer.ts:67-69 | the fields become `Resume()` of the old state |
| `Timer.Match3Timer.Update` | puzzling-potions/src/match3/Match3Timer.ts:75-82 | the fields become `Update(delta)` of the old state; `onTimesUp` fires exactly when that update says so; once it has fired, no update fires again until the next start |
| `Timer.Match3Timer.IsPaused` | puzzling-potions/src/match3/Match3Timer.ts:85-87 | the paused flag; when it is set, updates do not move the timer |
| `Timer.Match3Timer.IsRunning` | puzzling-potions/src/match3/Match3Timer.ts:90-92 | a running timer has not fired since its latest start, and has fewer firings than starts |
| `Timer.Match3Timer.GetTime` | puzzling-potions/src/match3/Match3Timer.ts:13-15 | the time runs from 0 to the duration: it lies in that range whenever the state is in range |
| `Timer.Match3Timer.GetTimeRemaining` | puzzling-potions/src/match3/Match3Timer.ts:100-102 | within `[0, duration]` whenever the time is; zero exactly when the time equals the duration |
| `Timer.Apply` | puzzling-potions/src/match3/Match3Timer.ts:31-82 | of all the timer's calls only `update` fires `onTimesUp`, and only on a running timer that it then stops |
| `Timer.RunKeepsBounds` | puzzling-potions/src/match3/Match3Timer.ts:62-82 | with non-negative deltas, any run of update/pause/resume keeps `0 <= time <= duration` and the duration; a running timer fires at most once, and has fired exactly when it stopped; a stopped one never fires |
| `Timer.TimesUpAtMostOncePerStart` | puzzling-potions/src/match3/Match3Timer.ts:48-82 | after `start` (duration >= 0, deltas >= 0) the remaining time is never negative and `onTimesUp` fires at most once, exactly when the timer stops |
| `Timer.IdleIgnoresUpdates` | puzzling-potions/src/match3/Match3Timer.ts:76 | a paused or stopped timer is unchanged by any number of updates and fires nothing |
| `Timer.UpdatesAccumulate` | puzzling-potions/src/match3/Match3Timer.ts:76-81 | on a running, unpaused timer, updates add up: below the duration the time is the sum; once the sum reaches it the timer is stopped at the duration, having fired once |
| `Timer.ExpiresOnceAfterDuration` | puzzling-potions/src/match3/Match3Timer.ts:42-81 | setup, start, then non-negative deltas adding up to the duration: the callback fires exactly once and the timer is no longer running |
| `Timer.FiringsNeverExceedStarts` | puzzling-potions/src/match3/Match3Timer.ts:31-82 | over any history of calls: firings, plus one if the timer ends running, never exceed the starts (plus one if it began running) |
| `Timer.AtMostOneFiringBetweenStarts` | puzzling-potions/src/match3/Match3Timer.ts:31-82 | a history without `start` fires at most once from a running timer and never from a stopped one; a timer that fired ends stopped, and a stopped one stays stopped |
| `Timer.AtMostOneFiringPerStart` | puzzling-potions/src/match3/Match3Timer.ts:48-82 | a `start` followed by any calls up to the next `start` fires `onTimesUp` at most once |
| `Match3.Match3.constructor` | puzzling-potions/src/match3/Match3.ts:107-119 | a fresh timer, cleared; the default config; interactive children enabled |
| `Match3.Match3.Setup` | puzzling-potions/src/match3/Match3.ts:129-146 | stores the config, not playing, timer stopped and unpaused at time 0 with duration the floor of `config.duration * 1000` |
| `Match3.Match3.Reset` | puzzling-potions/src/match3/Match3.ts:139-146 | not playing; timer reset; config kept |
| `Match3.Match3.StartPlaying` | puzzling-potions/src/match3/Match3.ts:150-153 | playing; timer running, unpaused, at time 0 |
| `Match3.Match3.StopPlaying` | puzzling-potions/src/match3/Match3.ts:157-160 | not playing; timer not running, time equal to the duration, no firing |
| `Match3.Match3.IsPlaying` | puzzling-potions/src/match3/Match3.ts:164-166 | exactly the interaction flag |
| `Match3.Match3.Pause` | puzzling-potions/src/match3/Match3.ts:170-174 | pauses the timer; playing flag, config and time unchanged |
| `Match3.Match3.Resume` | puzzling-potions/src/match3/Match3.ts:178-182 | resumes the timer; playing flag, config and time unchanged |
| `Match3.Match3.Update` | puzzling-potions/src/match3/Match3.ts:186-188 | forwards to the timer; expiry stops the timer but leaves the playing flag as it was |
| `UserStats.StatsKey` | puzzling-potions/src/utils/userStats.ts:7 | the key is `KeyPrefixStats`, `stats-`, followed by the mode's name |
| `UserStats.BestScoreKey` | puzzling-potions/src/utils/userStats.ts:8 | the key is `KeyPrefixBestScore`, `stats-best-score-`, followed by the mode's name |
| `UserStats.StorageKeysDistinct` | puzzling-potions/src/utils/userStats.ts:7-8 | no stats key equals any best-score key, and each kind of key determines its mode |
| `UserStats.UserStats.constructor` | puzzling-potions/src/utils/userStats.ts:65 | the stats object works over the given storage contents |
| `UserStats.NothingSavedLoadsZeros` | puzzling-potions/src/utils/userStats.ts:31-41 | with nothing saved for a mode, `load` gives `NoStats`: score, matches, pops, specials and grade all 0, and the best score is 0 |
| `UserStats.UserStats.Load` | puzzling-potions/src/utils/userStats.ts:31-43 | the saved stats under the mode's stats key, or all zeros when nothing is saved there |
| `UserStats.UserStats.LoadBestScore` | puzzling-potions/src/utils/userStats.ts:59-61 | the saved best score of the mode, or 0 when none is saved |
| `UserStats.UserStats.Save` | puzzling-potions/src/utils/userStats.ts:51-56 | then `Load(mode)` returns the data; the best score becomes the maximum of the old best and the new score and never decreases; an equal or lower score leaves the best-score entry untouched; no other key and no other mode changes |

## Left out

- Board, Process, Special, Actions and Stats: their source files are not part of this model, so there is no match detection, cascade, special piece or scoring rule here. The facade's calls into them (`actions.setup`, `board.setup`, `reset`, `pause`, `resume` of the sub-systems) are omitted.
- The `Match3StatsData` type comes from `Match3Stats.ts`, which is not part of this model. Only the five fields that `load` fills in are modelled, as integers.
- The `storage` module is not part of this model. Its contents are a map. A value of the other kind under a key is read as absent.
- The `onTimesUp`, `onMove`, `onMatch`, `onPop`, `onProcessStart` and `onProcessComplete` callback bodies run arbitrary game code. `onTimesUp` is modelled by a ghost firing counter; the other hooks are fired only by the sub-systems above.
- The timer's back reference to the game is replaced by that ghost counter.
- PixiJS `Container` inheritance: only `interactiveChildren` is kept, as a plain boolean.
- JavaScript numbers are doubles. The model uses exact reals and unbounded integers, so rounding in `time += delta` and `duration * 1000` is not modelled.
- `rows`, `columns`, `tileSize` and the five stats fields are `int`, so the non-integer numbers the source would accept for them cannot be written in the model.
- The ghost firing counter counts the call point `this.match3.onTimesUp?.()`, even when no callback is set and nothing is actually called.
- `Config.GetConfig`: a field explicitly set to `undefined` in the custom config would override the default with `undefined` under object spread. `Option` treats it as absent. Extra keys outside `Match3Config` are not modelled.
- `UserStats.UserStats.constructor`: the source has a single shared instance over the global storage. The model passes the storage contents in.
- The home screen, popups, label, audio and entry point are presentation: rendering, tweens, sound and DOM events.
