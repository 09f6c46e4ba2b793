# Incremental game state machine, in Dafny

A model of the game object `IncrementalGame` of the console clicker game in
`incremental.py`. The player earns an integer amount of resources by clicking
(`click`) and from a once-a-second collection (`auto_collect`), spends them on
two upgrades whose cost doubles with each purchase (`upgrade_click`,
`upgrade_auto`), and crosses milestones (`check_milestone`) that boost both
earning rates. Large numbers are shown in named tiers (`format_number`), and
six of the fields are saved to and loaded from a flat dictionary
(`save_game`, `load_game`).

Modules:

- `Numbers` (numbers.dfy): `round(n * 1.2)` as exact integer arithmetic, and
  powers of ten.
- `GameModel` (game_model.dfy): the seven fields as a value `GameState`, the
  defaults, each operation as a function on states, sessions as sequences of
  actions, and the invariants every reachable state keeps.
- `Incremental` (incremental.dfy): the class `IncrementalGame`, whose methods
  update its fields in place (`modifies this`). `Click`, `Tick`,
  `UpgradeClick`, `UpgradeAuto` and `CheckMilestone` each state their complete
  new state field by field, are tied to the matching `GameModel` function, and
  keep `Valid()`. `LoadGame` gives its new state through `Persistence.Load`.
  It can leave an invalid state, because `load_game` does not check the values
  it reads (`Persistence.LoadMayBreakValid`). `SaveGame` changes nothing and
  returns `Persistence.Save` of the state.
- `Persistence` (persistence.dfy): the dictionary `save_game` writes and
  `load_game` reads, with the default for each missing key.
- `Format` (format.dfy): the choice of tier in `format_number`, as a function
  and as the reverse loop over the table.
- `Wrappers` (wrappers.dfy): `Option`.

Rounding. Every `round(x * 2)` in the source is applied to an integer and is
exact doubling. `round(n * 1.2)` is `(6 * n + 2) / 5` with floor division: the
exact product 6n/5 is never halfway between two integers, so Python's
round-half-to-even is rounding to the nearest integer. The contract says this
directly: the result is within 2/5 of 6n/5.

What the source does:

- The console game saves six fields. It does not save `milestone_multiplier`
  (incremental.py:163-170), and `load_game` does not read it. A save-then-load
  round trip therefore restores six fields, and the multiplier keeps the
  constructor's 2.
- On a missing key, `load_game` falls back to the constants 0, 5, 0, 10, 20
  and 1, not to the values the object had before.
- `Persistence.Load` proves that these constants are the constructor's
  defaults.

## Model

| member | source | states |
|---|---|---|
| `Numbers.RoundSixFifths` | incremental.py:82 | `round(n * 1.2)`: the integer nearest 6n/5, within 2/5 of it |
| `Numbers.RoundSixFifthsUnique` | incremental.py:82 | the nearest integer is unique, so the rounding is determined for every n |
| `Numbers.RoundSixFifthsGrows` | incremental.py:82 | the milestone boost never lowers a non-negative click power, and raises any power of 3 or more |
| `GameModel.MilestoneFiresOnce` | incremental.py:79-86 | after a firing in a valid state the new threshold is above the resources, so a second check at once does not fire and changes nothing: no catch-up over several thresholds |
| `GameModel.ClickFromDefaults` | incremental.py:10-28 | one click on a new game earns 5, reaches the threshold 1 * 2 and leaves click power 6, auto 0, last milestone 5, costs 10 and 20 |
| `GameModel.DefaultsValid` | incremental.py:10-16 | the constructor's defaults satisfy the invariant |
| `GameModel.StepPreservesValid` | incremental.py:25-84 | click, either upgrade and a tick each keep every field non-negative, click power and costs positive, the multiplier 2 and the last milestone at least 1; none lowers click power, auto rate, the costs or the last milestone |
| `GameModel.RunPreservesValid` | incremental.py:25-84 | the same over any sequence of operations, from any valid state |
| `GameModel.ReachableStatesValid` | incremental.py:10-84 | from a new game, after any sequence of clicks, upgrades and ticks every field is non-negative and the rates and costs are at least their defaults |
| `Incremental.IncrementalGame.constructor` | incremental.py:8-19 | a new game holds the defaults, or the saved game loaded over them |
| `Incremental.IncrementalGame.LoadGame` | incremental.py:175-188 | with no save nothing changes; otherwise the six saved fields are read with defaults for missing keys, and the multiplier is kept |
| `Incremental.IncrementalGame.SaveGame` | incremental.py:161-173 | returns the six-field dictionary; loading it into a new game restores a valid state exactly |
| `Incremental.IncrementalGame.CheckMilestone` | incremental.py:79-86 | fires exactly when resources reach last milestone times multiplier; on firing sets the last milestone to the resources, click power to round(1.2 * old) and auto to twice old; never changes resources or costs; otherwise changes nothing; after a firing from a valid state the threshold is no longer reached |
| `Incremental.IncrementalGame.Click` | incremental.py:25-29 | resources grow by exactly the click power held before, then exactly one milestone check; keeps the invariant and lowers no rate or cost |
| `Incremental.IncrementalGame.Tick` | incremental.py:49-55 | one pass of the collection loop: resources grow by exactly the per-second amount (not at all when it is 0), then one milestone check; keeps the invariant |
| `Incremental.IncrementalGame.UpgradeClick` | incremental.py:31-38 | reports failure and changes nothing when resources are below the cost; otherwise pays the old cost (resources stay non-negative), doubles click power and cost and leaves the auto and milestone fields alone |
| `Incremental.IncrementalGame.UpgradeAuto` | incremental.py:40-47 | reports failure and changes nothing when resources are below the cost; otherwise pays the old cost, sets auto to max(1, 2 * old) (1 when it was 0), doubles the cost and leaves the click and milestone fields alone |
| `Persistence.Save` | incremental.py:163-170 | the saved dictionary has exactly the six field keys and no `milestone_multiplier` |
| `Persistence.Load` | incremental.py:180-185 | each of the six fields takes the saved value, or when its key is missing the constructor's default; the multiplier is untouched |
| `Persistence.LoadAfterSave` | incremental.py:163-185 | loading a save restores all six saved fields of the saved state; only the multiplier comes from the game loaded into |
| `Persistence.SaveLoadRoundTrip` | incremental.py:161-185 | a new game that loads the save of a valid state equals that state |
| `Persistence.LoadMayBreakValid` | incremental.py:180-185 | loading is not validated: a save holding resources -1 loads into a state outside the invariant |
| `Persistence.LoadEmptyIsNewGame` | incremental.py:180-185 | a save with no keys loads as a new game |
| `Format.ThresholdsIncrease` | incremental.py:90-153 | the table's thresholds strictly increase from 1000 |
| `Format.ScanDown` | incremental.py:155-158 | the scan from the top returns the highest entry whose threshold is not above num, or nothing when every threshold is above it |
| `Format.FormatTier` | incremental.py:155-159 | the number is shown plain exactly when it is below 1000, otherwise in the tier of the largest threshold not above it, with that entry's name |
| `Format.FormatNumber` | incremental.py:155-159 | the reverse loop with early return chooses the same tier as `FormatTier` |
| `Format.BeyondTopThreshold` | incremental.py:152-157 | every number from 10^186 up is in the "Beyond" tier |
| `Format.ThresholdInOwnTier` | incremental.py:90-157 | each threshold lands in its own tier with its own name, so both 10^51 and 10^183 are named "sexdecillion" |
| `Format.FormatBelowThousand` | incremental.py:159 | 999 is shown plain |
| `Format.FormatThousands` | incremental.py:155-157 | 1500 is in the thousands tier |
| `Format.FormatMillions` | incremental.py:155-157 | 2500000 is in the millions tier |

Each `Incremental.IncrementalGame` method row also covers its `GameModel` twin, the function on values its contract ties it to: `Click` to `GameModel.Click`, `Tick` to `GameModel.Tick`, `UpgradeClick` to `GameModel.UpgradeClick`, `UpgradeAuto` to `GameModel.UpgradeAuto`, `CheckMilestone` to `GameModel.CheckMilestone`, and the constructor's defaults to `GameModel.Defaults`. The session lemmas above are proved about these functions. `Persistence.Get` is `dict.get` and is covered by the `Persistence.Load` row. The client method `Incremental.ClickOnNewGame` replays `GameModel.ClickFromDefaults` on the class.

## Left out

- Terminal output is not modelled: `clear_screen`, `display_status`, and the prints in the upgrade, milestone, save and load paths. The upgrade prints become the `bought` result and the milestone notice becomes `fired`.
- The daemon thread is not modelled, nor its unsynchronised race with the main loop. Neither is the `time.sleep(1)` in `auto_collect`'s endless loop. Only one atomic pass of its body is modelled (`Tick`).
- The `input()`-driven main loop is not modelled. It only dispatches menu keys to the methods.
- File and JSON I/O is not modelled. Whether the save file exists, and what it holds, is the `saved` parameter of the constructor and of `LoadGame`.
- Saved values are assumed to be integers. A hand-edited file could hold floats or other JSON values, and the model does not cover them.
- `format_number`: the rendering of `num / threshold` with two decimals is not modelled; only the choice of tier is.
- `ScanDown`, `FormatTier` and `ThresholdInOwnTier` use exact powers of ten as thresholds. The source compares with float literals, and from 1e24 upward these are not exactly 10^(3k). For 22 of the literals the float is above the exact power: 1e27, 1e30, 1e36, 1e42, 1e48, 1e54, 1e57, 1e63, 1e69, 1e78, 1e84, 1e93, 1e96, 1e108, 1e114, 1e117, 1e138, 1e141, 1e144, 1e174, 1e177 and 1e180. The source therefore shows the integer 10^27 one tier down, as "1000.00 septillion". So `ThresholdInOwnTier` holds of the model only, and near these 22 thresholds the source's tier can be one below `FormatTier`'s.
- `format_number`: `num / threshold` at incremental.py:157 raises OverflowError once num ≥ 2^1024. The model does not capture this.
- `RoundSixFifths` is exact. The source multiplies by the float 1.2, which can round differently for click powers of roughly 2^48 and above, and raises OverflowError once click power × 1.2 leaves the float range (about 1.5e308; above 2^1024 the int-to-float conversion raises first). That exception is raised inside `click` after the resources have been added, so the main loop ends without `save_game`. `check_milestone` also runs in the collection tick on the daemon thread (incremental.py:54). There the same exception ends only the collection thread, after the resources were added, and the game continues with no auto-collection. The model computes on and does not capture the crash.
- Python's arbitrary-precision integers are modelled as unbounded `int`.
