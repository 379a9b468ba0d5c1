# Fitness tracker storage model

A Dafny model of the persistence logic of the fitness tracker's `script.js`.
The page keeps its data in the browser's key-value storage: one list of
progress records per exercise id, and one list of weight records under the
key `"weightData"`. This model covers:

- saving exercise progress: both weight inputs must be non-empty, then a record is appended to that exercise's list;
- saving a weight: the input must be non-empty, then a record is appended and only the last 30 entries are kept;
- the history panels, which show the last 5 exercise records or the last 30 weight records, or a placeholder when the list is empty;
- refilling an exercise's inputs from its last record;
- the two index-aligned series (dates and weights) that the weight chart plots.

Modules, in dependency order:

- `JsValues` (`js_values.dfy`): the JavaScript values a property read can give (`undefined`, a number as `parseFloat` returns it, a string) and JavaScript truthiness, which decides what `x || ''` gives.
- `Records` (`records.dfy`): the two kinds of stored record and their property reads. A property the record does not have reads as `undefined`.
- `Windows` (`windows.dfy`): `slice(-n)`, and the fact that trimming early never loses what a later trim would keep.
- `Logs` (`logs.dfy`): the retention-capped append that `saveWeight` does, and what many consecutive saves leave in storage.
- `Views` (`views.dfy`): the history panels, the input refill and the chart series, all as pure selections of records.
- `Storage` (`storage.dfy`): the store as a class with one `map` field. `SaveProgress` and `SaveWeight` are methods that update that field, and the page loaders are functions that read it.

The store is a single map from key to record list, as in the browser.
A missing key reads as the empty list.
So an exercise whose id is `"weightData"` would share the weight log's slot, just as it does in the page.
This is why the frame conditions are stated for every key other than the one written.

The caller supplies the parsed weights (`parseFloat` of the inputs) and the formatted date, because both come from outside the logic.
A parsed weight is a finite value, an infinity or NaN. The model never computes with it: it only compares weights for equality and asks whether JavaScript treats one as truthy. The finite value is a Dafny `real`, not a double, so it has no `-0` distinct from `0` and no rounding.

Facts about `script.js` that the model keeps:

- the weight panel shows the last 30 records;
- `saveWeight` checks only that the input is non-empty, not that it is a positive number;
- `saveProgress` does not clear its inputs;
- there is no delete operation, no achievement flag and no error handling around storage.

## Model

| member | source | states |
|---|---|---|
| `Storage.Store.Load` | script.js:71 | a key never written reads as the empty list, a written key as its stored list |
| `Storage.Store.SaveProgress` | script.js:52-79 | rejected exactly when the start or max input is empty, and then storage is unchanged; otherwise only the exercise's key changes, becoming the old list plus the new record at the end; the panel shown is the exercise history of the new list; every other key reads as before |
| `Storage.Store.SaveWeight` | script.js:131-155 | rejected exactly when the input is empty, and then storage is unchanged; otherwise only the weight key changes, becoming the retention-capped append of the new record; the stored log then holds at most 30 records; the panel shown is the weight history of the stored log; every other key reads as before |
| `Storage.Store.ExercisePage` | script.js:34-43 | the exercise panel shows the placeholder exactly when the stored list is absent or empty, which is also exactly when no input is refilled |
| `Storage.Store.WeightPage` | script.js:109-113 | the weight panel shows the placeholder exactly when the weight log is absent or empty, and otherwise at most 30 rows |
| `Storage.Store.ChartPage` | script.js:158-166 | no chart exactly when the weight log is absent or empty; otherwise one point per stored weight record |
| `Windows.SliceLast` | script.js:149 | `slice(-n)` for n > 0 returns the last min(n, length) elements, as a suffix of the input in its original order; `slice(-0)` returns everything |
| `Windows.SliceLastAbsorbs` | script.js:146-150 | trimming to the last n, appending, then trimming again gives the same list as appending and trimming once |
| `Logs.AppendWeight` | script.js:145-150 | the old log with the new record pushed and trimmed to the last 30: never empty, never longer than 30, and ending with the new record; the full retention facts are proved in `AppendWeightRetains` |
| `Logs.AppendWeightRetains` | script.js:145-150 | the saved weight log has length min(N+1, 30); the new record is last; the records before it are the newest of the old log, in order, so the oldest are dropped first |
| `Logs.AppendWeightsKeepsLatest` | script.js:145-150 | after any non-empty series of weight saves, the stored log is exactly the last 30 of the old log followed by all the saved records |
| `Views.ExerciseHistory` | script.js:92-106 | the placeholder exactly when the list is empty; otherwise its last min(5, N) records in their original order |
| `Views.WeightHistory` | script.js:116-128 | the placeholder exactly when the list is empty; otherwise its last min(30, N) records in their original order |
| `Views.ExerciseHistoryAfterSave` | script.js:71-76 | after a progress save the panel is non-empty, ends with the new record, and shows before it the newest earlier records in order |
| `Views.WeightHistoryShowsRetained` | script.js:149-152 | a weight log written by a save fits the weight panel, so all of it is shown |
| `Views.Refill` | script.js:82-89 | nothing is refilled exactly when the list is empty; otherwise each input takes the last record's field when it is truthy, and `''` when it is missing or falsy |
| `Views.RefillAfterSave` | script.js:63-88 | refilling right after a progress save gives back the sets and reps exactly; each weight input gets its parsed weight exactly when that weight is truthy (not 0 and not NaN), and `''` otherwise |
| `Views.Column` | script.js:165-166 | a chart column has one entry per record, and entry i is the field of record i |
| `Views.Chart` | script.js:158-166 | no chart for an empty log; otherwise the dates and weights have the log's length, and entry i of each comes from record i |
| `Views.ChartAfterSave` | script.js:149-166 | after a weight save the chart has between 1 and 30 points, and its last point is the new record's date and weight |

## Left out

- Page wiring, DOM reads and writes, `alert` and the HTML text of each panel row (script.js:2-31 and the `innerHTML` templates) are left out: they are user interface. The panels are modelled as the records they select.
- Clearing the weight input after a save (script.js:154) is left out: it is a DOM write.
- The current-date display (script.js:4-7) and `toLocaleDateString` (script.js:64, 141) are left out: they depend on the clock and locale, so the date is a parameter.
- `parseFloat` (script.js:65-66, 142) is left out: it is floating-point parsing, so the parsed weights are parameters that the methods do not relate to the input strings.
- `localStorage` quota errors and JSON serialisation are left out: storage is an in-memory map. In the browser, `JSON.stringify` turns NaN and Infinity into `null`, so an infinite weight would be refilled as `''` after a reload. Stored text that fails to parse would throw. The model has neither effect.
- Records of any other shape that storage might hold are left out: only the two record kinds the code writes exist in the model.
- The Chart.js construction and the check that the chart element exists (script.js:162-186) are left out: they are a foreign library call and a DOM lookup. Only the data series is modelled.
- The calorie calculator is left out: it is not part of `script.js`.
