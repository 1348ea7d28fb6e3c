# Meal simulator of the fake sensor, in Dafny

This project models the per-user meal simulator of `fake_data/sensor.py`. For one user and one calendar date the simulator:

- generates one connection time per scheduled meal (`generer_heures_connexion`);
- draws the food categories of each meal;
- picks one catalog row per category, with a quantity from the quantity ladder (`determiner_quantite`), until the meal's calorie condition holds;
- if the meal went over its maximum and overshoot was not allowed, drops the lowest-scored items (`selectionner_aliments`, `probabilite_aliment`);
- logs one row per kept item (`simulate_daily_activity`) and reshapes the log into five columns (`get_daily_activity`).

Users are built from a static table of six eater classes (`create_user_instance`).

Randomness is an explicit input:

- A seeded Python generator is a `Stream`, the sequence of its uniform outcomes in [0, 1). Each `random.random()` or `random.randint(..)` call reads exactly one outcome, so the model fixes how many draws each step consumes.
- numpy's generator is a `NumpyStream` with one cursor. Each meal reads one event that stands for the category draw of `choisir_types_aliments`. Each `DataFrame.sample(n=1)` reads one more outcome, which picks a row of the drawn category.
- A day receives the two generators as functions from a seed to a stream. The code re-seeds the Python generator with the date plus the profile's own `user_id` (line 54), while numpy is seeded with the date plus the `user_id` argument (line 204). So the two generators do not share one seed when the argument is not the profile's id, and the model keeps the two seeds apart.
- The connection times read the first Python draws, and the meals read the draws that follow.

Calories are `real`, so the 1.2 factor for `'homme'` is exact. Times are whole minutes: date ordinal times 1440, plus the minute of the day.

The project has these modules:

| module | file | contents |
|---|---|---|
| `Results` | results.dfy | `Option`, `Result`, and one error per exception the model raises (not the `KeyError` and `ValueError` of the category draw) |
| `Draws` | draws.dfy | the random outcomes and `randint` |
| `Foods` | foods.dfy | catalog rows, selected items, calorie totals |
| `Preferences` | preferences.dfy | the preference sheet, the score lookup, the stable sort by score |
| `QuantityModel` | quantity.dfy | the quantity ladder |
| `Registry` | registry.dfy | profiles, the six class tables, `create_user_instance` |
| `Selection` | selection.dfy | the calorie-budget selector, as specification functions, with its proofs |
| `Sensor` | sensor.dfy | one day as specification functions, and the `User` class (see below) |

`Sensor.User` is a class. Its field `consumed` is `aliments_consomme`. Each loop of the source is one method, proved equal to the specification function beside it.

## Model

| member | source | states |
|---|---|---|
| Draws.RandInt | fake_data/sensor.py:59-61 | `randint(lo, hi)` gives an integer in [lo, hi], both ends included |
| Draws.RandIntReaches | fake_data/sensor.py:59-61 | every integer of [lo, hi] is the result of some outcome, so the range is tight |
| Foods.OfCategory | fake_data/sensor.py:153 | the rows of a category are exactly the catalog rows whose 'Type' is that category, and there are no more of them than catalog rows |
| Preferences.FirstRowSpec | fake_data/sensor.py:189 | the lookup finds a row whose 'Types' cell is the category, with no such row before it; it finds none exactly when no row has that category |
| Preferences.ScoreSpec | fake_data/sensor.py:177-190 | a score exists exactly when the sheet has a 'Meal_k_avg' column for the meal and some row has the category; the score is that column's value in the first such row; pandas raises otherwise (`KeyError` without the column, `IndexError` without the row) |
| Preferences.Unscored | fake_data/sensor.py:171 | the key function fails on some item exactly when not every item has a score; the item it reports is one of the list and has no score |
| Preferences.SortSpec | fake_data/sensor.py:171 | the sort by score is a permutation of the list, keeps its calorie total, and orders it by ascending score |
| Preferences.SortSorted | fake_data/sensor.py:171 | a list already in score order is left as it is |
| Preferences.SortStable | fake_data/sensor.py:171-172 | the sort is stable: for every score, the items with that score appear in the sorted list in their original order, so `pop(0)` removes the first of the equal lowest-scored items |
| QuantityModel.Quantity | fake_data/sensor.py:96-125 | the quantity is 0, in [100, 100000], 1, or in [2, 5], never negative. Each outcome holds exactly under its draw condition (first draw < 0.04; second > 0.99; the class coin < 0.30 when the branch is eligible). The number of draws consumed follows the short-circuit of `and` |
| QuantityModel.NoUpgradeOutsideBranches | fake_data/sensor.py:109-125 | a class outside the five tags that the four branches name, such as 'fasting' or the base user, only gets 0, 1 or an outlier |
| QuantityModel.UpgradeReachable | fake_data/sensor.py:111-123 | for an eligible class and category every upgrade 2..5 occurs for some draws |
| QuantityModel.OutlierReachable | fake_data/sensor.py:106-107 | for every class every outlier in [100, 100000] occurs for some draws |
| Registry.CalorieFactor | fake_data/sensor.py:35 | the factor is 1.2 exactly for 'homme' and 1.0 for every other value |
| Registry.Tables | fake_data/sensor.py:287-452 | there are tables exactly for the six tags. Meals are numbered 1..n in schedule order, and the schedule keys equal the band keys. Every band has min <= max. There are four meals, two for 'fasting' and one for 'random' |
| Registry.CreateProfileAsWritten | fake_data/sensor.py:479-481 | the code as written: an unknown tag raises, because `User(**user_data)` lacks `classe_mangeur` and `type_food`; a known tag builds that class: the profile has its class's schedule, calorie bands, file name and the preference sheet `load` reads from that file, with the user's own id, tag and sex (lines 287-452) |
| Registry.UnknownTagRaises | fake_data/sensor.py:479-481 | on the tag 'glutton' the code as written raises, while the documented fallback gives an empty schedule |
| Registry.CreateProfile | fake_data/sensor.py:456-481 | the documented fallback: the schedule and bands are empty exactly for an unknown tag. Schedule keys equal band keys, and min <= max. On known tags it agrees with the code as written |
| Selection.Step | fake_data/sensor.py:152-163 | one iteration fails exactly when the drawn category has no row. Otherwise it appends one item of that category and that meal, picked by the next numpy outcome, gives it the quantity `determiner_quantite` returns, with the Python cursor just past the draws that call read (line 158). It adds calorie times quantity to the total, sets the flag when the quantity is >= 10, and moves the numpy cursor one step |
| Selection.ForwardLadder | fake_data/sensor.py:150-166 | every quantity the forward loop takes is an outcome of the ladder: 0, 1, 2..5 or 100..100000 |
| Selection.ForwardLoop | fake_data/sensor.py:150-166 | after the forward loop there is one item per processed draw, in draw order, from the drawn category. The total is the sum of calorie times quantity. The flag is the first coin (< 0.3) or some quantity >= 10. The loop did not stop at any earlier index, and stopped on its condition unless the draws ran out. The only failure is a category without rows |
| Selection.LargeQuantitySkipsRemoval | fake_data/sensor.py:160-169 | a quantity >= 10 leaves the flag set, the removal pass does not run, and the meal keeps every item of the forward loop |
| Selection.RemoveFromSpec | fake_data/sensor.py:168-173 | the removal pass leaves a total within the maximum, and keeps a sub-multiset of the selection. It raises a missing score exactly when it runs and some item has no score. It pops from an empty list only for a negative maximum, and with a maximum >= 0 and every item scored it succeeds |
| Selection.RemovalShape | fake_data/sensor.py:169-173 | a pass that removed something keeps the suffix of the score-sorted selection after its first k items, with k the fewest removals that bring the total within the maximum. Each removed item has the least score among the items still present when it is popped |
| Selection.PopWhileFails | fake_data/sensor.py:170-173 | once every item is scored, the popping loop fails only on an empty list, which needs a negative maximum |
| Selection.SelectItems | fake_data/sensor.py:127-175 | every kept item is a catalog row of a drawn category, tagged with the meal, with a quantity that is an outcome of the ladder; there are no more items than drawn categories; both streams only move forward |
| Selection.SelectWithinMax | fake_data/sensor.py:150-173 | when the first coin did not allow overshoot and no quantity reached 10, the kept calories are within the scaled maximum |
| Selection.SelectSucceeds | fake_data/sensor.py:152-173 | with every drawn category present in the catalog and scored for the meal, and a maximum >= 0, the selector does not raise |
| Selection.SelectNoMissingScore | fake_data/sensor.py:82-93 | when every drawn category is a 'Types' value of the sheet and the sheet has the meal's column, as the category draw of lines 82-93 guarantees, the selector never raises a missing score |
| Selection.SelectErrors | fake_data/sensor.py:152-173 | the selector raises only for a drawn category with no row, a drawn category with no score for the meal, or a pop from an empty list with a negative maximum |
| Selection.BandRespected | fake_data/sensor.py:165-169 | when the loop stopped on its condition with the flag clear, on any draw including the last, no item is removed and the meal's calories lie within [min, max] |
| Sensor.Variation | fake_data/sensor.py:58-61 | the offset is in [-60, 300] minutes for 'random' and in [-60, 60] otherwise |
| Sensor.MealTimes | fake_data/sensor.py:42-64 | there is one connection per scheduled meal, in schedule order; each carries its meal number and a time within the class's window around the nominal time |
| Sensor.MealTimeReachable | fake_data/sensor.py:58-62 | every offset of the window occurs for some stream, so the window is tight |
| Sensor.MealInputOf | fake_data/sensor.py:145-146 | the selector's bounds are the meal's band times the calorie factor |
| Sensor.DayFrom | fake_data/sensor.py:211-220 | the meal loop completes at most one meal per connection, and all of them when nothing raised |
| Sensor.DayFromItems | fake_data/sensor.py:211-220 | every item a completed meal keeps is a catalog row tagged with the number of the meal it belongs to |
| Sensor.DayFromNoMissingBand | fake_data/sensor.py:217-218 | when every connection's meal has a band, the day never fails on a missing band |
| Sensor.RowsMatchItems | fake_data/sensor.py:222-230 | there is one log row per item, in order, with the user id, the item's id and quantity, and the meal number and time of the item's connection |
| Sensor.DailyLogFaithful | fake_data/sensor.py:192-235 | the day's log has one row per consumed item, in meal order. Each row carries the item's id, quantity and meal number. The quantity is an outcome of the ladder, and the meal number is a schedule key. Its time lies in that meal's window, and the item is a catalog row |
| Sensor.CreatedProfileDay | fake_data/sensor.py:471-481 | a profile from `create_user_instance` never fails on a missing band; for an unknown tag the day has no meal and the log is empty |
| Sensor.SeedShift | fake_data/sensor.py:54 | because both seeds are the date plus an id, a user's day d and the next user id's day d - 1 eat the same items, meal by meal |
| Sensor.SameMeals | fake_data/sensor.py:211-219 | the meal loop reads only the meal numbers of the connections, not their times |
| Sensor.ColumnsRoundTrip | fake_data/sensor.py:259-265 | the five columns each have one entry per log row, and reading them across gives the rows back |
| Sensor.User.constructor | fake_data/sensor.py:17-40 | a new user has the given profile and no consumed item |
| Sensor.User.GenerateMealTimes | fake_data/sensor.py:42-64 | the loop over the schedule returns the connections of the day's Python stream |
| Sensor.User.TakeFoods | fake_data/sensor.py:147-166 | the forward loop with its break returns the forward loop's specification result |
| Sensor.User.TakeOne | fake_data/sensor.py:152-163 | one pass of the loop body computes one iteration |
| Sensor.User.DropLowest | fake_data/sensor.py:169-173 | the sort-and-pop loop returns the removal pass's result, raising where it raises |
| Sensor.User.SelectFoods | fake_data/sensor.py:127-175 | both loops together compute the selector on the scaled band |
| Sensor.User.LogMeal | fake_data/sensor.py:222-230 | the inner loop builds one row per item of the meal |
| Sensor.User.SimulateDailyActivity | fake_data/sensor.py:192-235 | the method resets `consumed`, then leaves in it the items of the completed meals, concatenated in meal order. It returns the day's log, or the error that stopped the day |
| Sensor.User.GetDailyActivity | fake_data/sensor.py:237-268 | the method returns the day's log as five columns, with `consumed` as in `SimulateDailyActivity` |
| Sensor.Reshape | fake_data/sensor.py:259-265 | the loop appends each row's five fields to the five columns |
| Sensor.CreateUserInstance | fake_data/sensor.py:456-481 | the method returns a fresh user with the profile of its tag (empty tables for an unknown tag) and nothing consumed |

## Left out

- `choisir_types_aliments` (normal sampling, clipping, normalising, `np.random.choice`) is an oracle. It returns some category sequence per meal and consumes one numpy event. Three of its effects are not modelled: its own `KeyError` when the sheet lacks the meal's column; that the sequence has as many entries as the sheet has rows; and the `ValueError` of `np.random.choice` when every clipped weight is 0 or some weight is NaN, since the sum is then not positive, the weights are passed on unnormalised, and they do not sum to 1.
- In the code the drawn categories are values of the sheet's 'Types' column (lines 82 and 93), and line 83 reads the meal's column before any selection, so `probabilite_aliment` cannot raise there. The oracle of the model returns any strings, so `Select` can fail with `MissingScore` where the code cannot. `Selection.SelectNoMissingScore` proves that this error is impossible when the drawn categories come from the sheet.
- The internals of the Python and numpy generators and the seeding calls are parameters: functions from seed to outcome stream. The seeds of `simulate_daily_activity` (line 205) and `get_daily_activity` (lines 254-255) are overwritten before any draw, so they are not modelled.
- `DataFrame.sample(n=1)` is the row at index floor(u·n) for a uniform outcome u; numpy's exact sampling algorithm is not modelled.
- `create_user_instance` pops 'classe_mangeur' out of the caller's dictionary. The model takes `UserData` by value, so a second call on the same dictionary, which raises `KeyError`, is not modelled.
- `pd.read_excel` is the `load` parameter, from file name to preference table; file I/O is not modelled.
- Blank cells of the preference sheet are not modelled. pandas reads a blank cell as NaN, and every comparison with NaN is false, so such a sort key has no place in an ordering of reals. The `PrefTable` type requires every row to have a value in every 'Meal_k_avg' column.
- `datetime` parsing and formatting are not modelled: the 'HH:MM' strings, `strftime`, and the `isinstance(business_date, str)` conversion. Dates are ordinals and times are minutes.
- Floating-point rounding is not modelled: calories are `real`.
- pandas DataFrames become sequences of rows and columns. A catalog row keeps only its 'Type', 'Valeur calorique' and 'id' columns. The other columns `to_dict()` copies are not modelled.
- `nom`, `prenom` and `age` are stored and never read by the simulator.
- `app.py`, `fake_data/app_tracker.py`, `fake_data/__init__.py` and the tests are not part of this model.
- The base user of the corrected fallback gets an empty preference table and no file name, because the code as written never builds one.

## Findings

| source | as written | input that shows it | evidently intended | confidence | as-written member | corrected member |
|---|---|---|---|---|---|---|
| fake_data/sensor.py:479-481 | 'classe_mangeur' is popped from `user_data`, then an unknown tag calls `User(**user_data)`. `User.__init__` requires `classe_mangeur` and `type_food`, so it raises `TypeError` | a user row with `classe_mangeur = 'glutton'` | the docstring's fallback to the base `User`, with empty schedule and bands, so the day has no meal and an empty log | not executed | Registry.UnknownTagRaises | Registry.CreateProfile |
