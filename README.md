# Epic status board: a Dafny model

The status board reads exported pages of issue-tracker data and rolls the
story points of child issues up into their MVP epics. Each epic is scored
against a minimum scope, and the epics are listed by progress. From the
team's velocity the board then projects a completion date, which it snaps to
the next Wednesday. This project models that logic in one JavaScript file,
`index.js`, and proves what it promises:

- `Normalizer` (`normalizer.dfy`): `parseData`, from a raw page to flat issue records.
- `Aggregator` (`aggregator.dfy`): the computational part of `renderList`. It
  selects the epics, rolls the children up (a loop over the issues that updates
  the epic dictionary), scores each epic against the minimum scope of 30
  points, computes its progress, and sorts the list in place on an array.
- `Projection` (`projection.dfy`): the computational part of `renderSummary`.
  It totals the list in a loop. From the totals it computes the progress to
  one decimal, the remaining points and days, the ETA snapped to Wednesday,
  and the "all settings at default" test. `Projection.RenderList` joins
  `renderList` to its call of `renderSummary`.
- `Numeric` (`numeric.dfy`): truncation toward zero (`parseInt`) and flooring
  (the day count passed to `setDate`).
- `Wrappers` (`wrappers.dfy`) and `Permutations` (`permutations.dfy`): an `Option`
  type, and one proof step shared by the proofs about reordering.

Modelling decisions:

- A JavaScript value that may be `undefined` is an `Option`. The three
  settings (`VELOCITY`, `PTS`, `HARDENING`) are passed in as a `Settings`
  value instead of being read from module globals.
- Dates are whole day numbers. `Weekday(d, c) = (d + c) % 7` numbers the days
  0 = Sunday to 6 = Saturday, for a calendar whose day 0 falls on weekday `c`.
- A result that the source computes as `NaN` is `None` here. That is the project
  progress when the total is 0, and the ETA when the velocity is 0 (an invalid date).

Three rules of the code that the model keeps as they are:

- The code keeps every epic (`index.js:157`). When `PTS` is 0, an epic under
  30 points makes line 160 divide by zero, so the model requires `pts != 0`
  and drops no epic.
- An epic that is not Done becomes In Progress as soon as it has any Done
  child, even when all its children are Done (lines 147-152).
- Done points never exceed total points only when story points are not
  negative. The lemmas that state this bound assume it.

## Model

| member | source | states |
|---|---|---|
| `Normalizer.NameOf` | index.js:92 | `obj?.name` is present exactly when the object and its `name` are present, and is then that name |
| `Normalizer.KeyOf` | index.js:92 | `parent?.key` is present exactly when the parent object and its key are present |
| `Normalizer.Flatten` | index.js:80-92 | a flat record keeps the key, title, labels and points; a missing `issuetype`, `status` or `parent` object gives an absent type, status or parent |
| `Normalizer.ParseIssues` | index.js:78-93 | one flat record per raw issue, same length, same order, record i flattens raw issue i |
| `Normalizer.ParseData` | index.js:75-95 | absent exactly when the page has no `issues`; otherwise the same number of records in order, each with its raw issue's key |
| `Normalizer.FlattenEmbed` | index.js:92 | flattening the export form of a flat record gives that record back |
| `Normalizer.ParseIssuesRoundTrip` | index.js:78-93 | re-exported records parse back to exactly those records |
| `Normalizer.ParseDataRoundTrip` | index.js:75-95 | a page re-exported from flat records parses to `Some` of exactly those records |
| `Numeric.TruncDiv` | index.js:160 | the quotient truncated toward zero: `q * d` is the multiple of `d` nearest `n` on zero's side, within `|d|` of `n` |
| `Numeric.FloorDiv` | index.js:112 | the greatest integer not above `n / d`, for either sign of `d` |
| `Aggregator.IsEpic` | index.js:138 | an epic is an issue of type `FEAT` whose labels include `mvp` (a definition, without a contract of its own) |
| `Aggregator.SelectEpics` | index.js:137-139 | the `reduce` that builds the epic dictionary: every entry is filed under its own key and starts with all four counters at 0 |
| `Aggregator.SelectEpicsKeys` | index.js:137-139 | the epic dictionary's keys are exactly the keys of issues of type `FEAT` labelled `mvp` |
| `Aggregator.SelectEpicsLast` | index.js:137-139 | each entry comes from the last MVP feature with that key, so a later duplicate overwrites an earlier one |
| `Aggregator.SelectEpicsOrderIndependent` | index.js:137-139 | when no two different MVP features share a key, reordering the issues selects the same dictionary |
| `Aggregator.EpicOrder` | index.js:157 | `Object.keys` in first-insertion order: no key twice, and each one a dictionary key |
| `Aggregator.EpicOrderIsKeyOrder` | index.js:157 | the key order lists every dictionary key, each exactly once |
| `Aggregator.IsChildOf` | index.js:142-144 | an issue is counted for epic `k` when it is not a feature and its parent is `k` (a definition, without a contract of its own) |
| `Aggregator.PointOf` | index.js:143 | the story points, or 0 when they are missing: the points when present, and 0 exactly when they are absent or 0 |
| `Aggregator.Step` | index.js:145-153 | one child adds 1 to the count and its points to the total; a Done child also adds to the done count and done points, and makes an epic that is not Done In Progress; key and title are kept |
| `Aggregator.Accumulate` | index.js:141-155 | applying the children of `s` keeps key and title, adds at most the length of `s` to the count, never adds more Done children than children, and keeps a Done epic Done |
| `Aggregator.RolledUp` | index.js:141-155 | the dictionary after the pass has the same keys, each entry keeps its key and gains at most one child per issue |
| `Aggregator.RollUp` | index.js:141-155 | the loop leaves the same keys, and each epic's accumulator is the accumulator with all of that epic's children applied in order |
| `Aggregator.AccumulateCounts` | index.js:143-152 | the roll-up adds the number and point sum of the epic's children (a missing point counts 0), and of its Done children; the status is the final-status rule; key and title are kept |
| `Aggregator.EpicStatus` | index.js:147-152 | an epic marked Done stays Done; any other epic ends In Progress if some child is Done, and keeps its own status if none is |
| `Aggregator.DoneChildrenBounded` | index.js:145-149 | there are no more Done children than children, and with non-negative points no more Done points than points |
| `Aggregator.RolledUpEpic` | index.js:137-155 | after the pass, totalCnt/totalPoint count and sum the epic's non-FEAT children, doneCnt/donePoint its Done ones; doneCnt <= totalCnt, and 0 <= donePoint <= totalPoint when points are non-negative |
| `Aggregator.NonChildChangesNothing` | index.js:144 | an issue that is a child of no epic (a feature, or one whose parent is not an epic) changes no accumulator |
| `Aggregator.AccumulateOrderIndependent` | index.js:141-155 | reordering the issues leaves every epic's counters and status unchanged |
| `Aggregator.RollUpOrderIndependent` | index.js:141-155 | reordering the issues leaves the whole rolled-up dictionary unchanged |
| `Aggregator.UpdatedTotal` | index.js:159 | under 30 points the configured default, otherwise the raw total; never 0 when the default is nonzero; with a default of at least 30 it is at least 30 and never below the raw total |
| `Aggregator.EpicProgress` | index.js:160 | the whole percentage of done points, truncated: `r * u <= done * 100 < (r + 1) * u`; between 0 and 100 when 0 <= done <= u |
| `Aggregator.Summarize` | index.js:157-163 | an entry keeps its epic, scores it against a nonzero total (the default under 30 points), has as progress the truncated percentage `EpicProgress` of its done points in that total, and is within 0..100 for a default of at least 30 and 0 <= done <= total |
| `Aggregator.Scored` | index.js:157-163 | the `map` callback applied to every dictionary entry: same keys, and each entry scores its own epic |
| `Aggregator.EpicList` | index.js:157-164 | one entry per dictionary key |
| `Aggregator.EpicListEntries` | index.js:137-163 | every entry of the epic list reports its MVP epic's children: the count and point sum of all of them and of the Done ones, the final status, the scored total, and progress equal to `EpicProgress` of done points in that total |
| `Aggregator.EpicListOrderIndependent` | index.js:137-164 | when no two different MVP features share a key, any reordering of the issues gives the same list entries, each as often |
| `Aggregator.EpicListCoversEpics` | index.js:157 | no epic is dropped or repeated: every MVP feature key has exactly one entry, and every entry is such an epic |
| `Aggregator.EpicListProgressInRange` | index.js:159-160 | with non-negative points and a default of at least 30, every entry has 0 <= donePoint <= updatedTotalPoint and progress in 0..100 |
| `Aggregator.SortByProgress` | index.js:166 | the array, sorted in place, is a permutation of what it held and is non-increasing in progress |
| `Aggregator.BuildEpicList` | index.js:137-166 | the sorted list holds exactly the entries of the epic list, each as often as there, ordered by non-increasing progress |
| `Projection.SumDone` | index.js:101-103 | the done points of the list; not negative when no entry has negative done points |
| `Projection.SumUpdated` | index.js:101-104 | the scored totals of the list; at least the number of entries when every entry is scored above 0 |
| `Projection.Totals` | index.js:98-104 | the loop's sums are the done points and the scored totals of the list |
| `Projection.TotalsBounded` | index.js:98-104 | if no epic has more done points than its scored total, neither does the project; a non-empty list of positively scored epics has a positive total |
| `Projection.SumsPermutation` | index.js:101-104 | the totals do not depend on the order of the list |
| `Projection.ProgressTenths` | index.js:106 | absent (NaN) exactly when the total is 0; otherwise the progress in tenths of a percent, truncated, and between 0 and 1000 when 0 <= completed <= total |
| `Projection.RemainingDays` | index.js:109 | the floored days the remaining points take at the velocity per 14-day iteration, plus 7 days per hardening week; 0 remaining points give just the hardening; never negative for non-negative inputs |
| `Projection.Weekday` | index.js:113 | day numbers map to weekdays 0..6 |
| `Projection.DaysUntilWednesday` | index.js:113 | `(3 - weekday + 7) % 7` adds 0 to 6 days, lands on Wednesday, and is 0 exactly on a Wednesday |
| `Projection.SnapToWednesday` | index.js:113-114 | the first Wednesday on or after the day: at most 6 days later, on Wednesday, unchanged exactly on a Wednesday, with no Wednesday in between |
| `Projection.Eta` | index.js:109-114 | absent exactly for a zero velocity; otherwise a Wednesday 0 to 6 days after today plus the remaining days |
| `Projection.AtDefaults` | index.js:126 | true exactly when the settings equal the defaults 40/40/0 |
| `Projection.RenderSummary` | index.js:97-126 | the summary's completed and total points are the list's sums; progress, remaining points, ETA and the default flag follow from them |
| `Projection.RenderList` | index.js:136-195 | the list is the sorted epic list, and the summary's totals are the unsorted list's, since sorting does not change them |
| `Projection.ProjectProgressInRange` | index.js:98-107 | with non-negative points and a default of at least 30, 0 <= completed <= total, progress is defined exactly when there is an epic, and is then 0.0%..100.0% |
| `Projection.EtaWhenDone` | index.js:109-114 | with nothing left and no hardening, the ETA is the first Wednesday on or after today (today itself if it is one) |
| `Projection.OneIterationLeft` | index.js:109 | at velocity 40 with no hardening, 40 remaining points are 14 days |
| `Projection.TwoEpicScenario` | index.js:98-107 | epics of 20/50 and 10/10 done points with default 40 score 40% and 25%, and the project 30/90 = 33.3% |

## Left out

- Rendering: the status gradient (`index.js:161`), the table rows and link template (168-193), the ETA and progress text (116-123) and the class toggling (128-132) are presentation. `console.log` (127) is left out too.
- Settings persistence and input handlers (`index.js:22-67`): this is local storage and DOM I/O. The settings are a parameter. A setting that `parseInt` reads as `NaN` is not modelled.
- Fetching and pagination (`readFile`, `fetchData`, `main`; `index.js:69-73`, 200-218): this is network I/O and `async`. Pagination ends when an exception is caught: reading `issues` of `undefined`, or spreading `null`. The model works on the concatenated issue list instead.
- Dates: `Date`, `setDate`, `getDay` and `toLocaleDateString('ko-KR')` (`index.js:111-120`) become day numbers and `Weekday`. Months and locale formatting are not modelled.
- Floating point: the model computes on exact rationals and integers. The source rounds in binary; for example, `29 / 100 * 100` is `28.999…` and `parseInt` makes that 28. `parseInt` of a number written in exponent notation is not modelled either. Story points are integers.
- Projection.RemainingDays: it floors the day offset. `setDate` truncates the sum of the day of the month and the offset, and the two agree whenever that sum is not negative.
- Aggregator.BuildEpicList: it requires a nonzero `PTS`. With `PTS` 0, an epic under 30 points gets `NaN` progress, and the sort then orders it arbitrarily.
- Missing `labels` or `fields`: both are modelled as always present. A feature without `labels` makes line 138 throw. An issue without `fields` makes destructuring throw.
- An absent `parent`: it finds no epic. In the source, `features[undefined]` looks up the key `"undefined"`.
- `Object.keys` order: the model uses first-insertion order. Integer-like keys, which JavaScript lists first, are not modelled.
- Aggregator.SortByProgress: the comparator `a.progress <= b.progress ? 1 : -1` is not consistent for ties. The model therefore fixes no order among entries with equal progress.
- Aggregator.EpicListOrderIndependent: it requires that no two different MVP features share a key. When two do, the later one wins, so epic selection depends on the order of the issues.
