/**
  The browser's key-value storage as the tracker uses it: one list of records
  per key, one key per exercise id and the fixed key "weightData" for the
  weight log. A key that was never written reads as the empty list, as
  `JSON.parse(null) || []` does.
*/
module Storage {
  import opened JsValues
  import opened Records
  import opened Windows
  import opened Logs
  import opened Views

  /** The storage key of the weight log. */
  const WeightKey: string := "weightData"

  /** What a save handler does: rejects empty input, or stores and re-renders a panel. */
  datatype SaveResult = Rejected | Saved(shown: History)

  class Store {
    /** The stored lists, by key. */
    var items: map<string, seq<Record>>

    constructor (initial: map<string, seq<Record>>)
      ensures items == initial
    {
      items := initial;
    }

    /** The list stored under `key`, or the empty list when nothing is. */
    function Load(key: string): (log: seq<Record>)
      reads this
      ensures key in items ==> log == items[key]
      ensures key !in items ==> log == []
    {
      if key in items then items[key] else []
    }

    /**
      `saveProgress`: both weight inputs must be non-empty strings; then a
      progress record with the given date and parsed weights is pushed onto
      the list under `exerciseId` and that key alone is written back, and the
      exercise panel is re-rendered from the updated list. `startWeight` and
      `maxWeight` are `parseFloat` of the two inputs and `date` the formatted
      current date, supplied by the caller.
    */
    method SaveProgress(exerciseId: string, startInput: string, maxInput: string,
                        sets: string, reps: string,
                        date: string, startWeight: Num, maxWeight: Num)
      returns (result: SaveResult)
      modifies this
      ensures result.Rejected? <==> (startInput == "" || maxInput == "")
      ensures result.Rejected? ==> items == old(items)
      ensures result.Saved? ==>
        items == old(items)[exerciseId := old(Load(exerciseId)) + [Progress(date, startWeight, maxWeight, sets, reps)]]
      ensures result.Saved? ==> result.shown == ExerciseHistory(Load(exerciseId))
      ensures forall key :: key != exerciseId ==> Load(key) == old(Load(key))
    {
      if startInput == "" || maxInput == "" {
        return Rejected;
      }
      var newRecord := Progress(date, startWeight, maxWeight, sets, reps);
      var currentData := Load(exerciseId);
      currentData := currentData + [newRecord];
      items := items[exerciseId := currentData];
      result := Saved(ExerciseHistory(currentData));
    }

    /**
      `saveWeight`: the input must be a non-empty string; then a weight record
      is pushed onto the weight log, the log trimmed to its last `WeightCap`
      entries is written back under `WeightKey` alone, and the weight panel is
      re-rendered from it. `weight` is `parseFloat` of the input and `date`
      the formatted current date, supplied by the caller.
    */
    method SaveWeight(input: string, date: string, weight: Num) returns (result: SaveResult)
      modifies this
      ensures result.Rejected? <==> input == ""
      ensures result.Rejected? ==> items == old(items)
      ensures result.Saved? ==> items.Keys == old(items).Keys + {WeightKey}
      ensures result.Saved? ==> Load(WeightKey) == AppendWeight(old(Load(WeightKey)), Weighing(date, weight))
      ensures result.Saved? ==> |Load(WeightKey)| <= WeightCap
      ensures result.Saved? ==> result.shown == WeightHistory(Load(WeightKey))
      ensures forall key :: key != WeightKey ==> Load(key) == old(Load(key))
    {
      if input == "" {
        return Rejected;
      }
      var newRecord := Weighing(date, weight);
      var weightData := Load(WeightKey);
      weightData := weightData + [newRecord];
      var recentData := SliceLast(weightData, WeightCap);
      items := items[WeightKey := recentData];
      result := Saved(WeightHistory(recentData));
    }

    /**
      What `loadAllData` shows for one exercise box: the exercise panel of the
      stored list, and the refill of its inputs. The two agree on emptiness:
      the placeholder appears exactly when nothing is refilled.
    */
    function ExercisePage(exerciseId: string): (page: (History, Option<Fields>))
      reads this
      ensures page.0.Placeholder? <==> page.1.None?
      ensures page.0.Placeholder? <==> exerciseId !in items || items[exerciseId] == []
    {
      var savedData := Load(exerciseId);
      (ExerciseHistory(savedData), Refill(savedData))
    }

    /** What `loadWeightHistory` shows: the weight panel of the stored weight log. */
    function WeightPage(): (shown: History)
      reads this
      ensures shown.Placeholder? <==> WeightKey !in items || items[WeightKey] == []
      ensures shown.Rows? ==> |shown.records| <= WeightWindow
    {
      WeightHistory(Load(WeightKey))
    }

    /** The series `initializeWeightChart` plots: one point per stored weight record. */
    function ChartPage(): (c: Option<Series>)
      reads this
      ensures c.None? <==> WeightKey !in items || items[WeightKey] == []
      ensures c.Some? ==> |c.value.dates| == |items[WeightKey]|
    {
      Chart(Load(WeightKey))
    }
  }

  /**
    The first progress save of an exercise: a store with nothing under the
    id ends up holding exactly the one new record there.
  */
  method FirstSaveScenario()
  {
    var store := new Store(map[]);
    var result := store.SaveProgress("squat", "50", "70", "", "", "1/1/2024", Finite(50.0), Finite(70.0));
    assert result.Saved?;
    assert store.Load("squat") == [Progress("1/1/2024", Finite(50.0), Finite(70.0), "", "")];
    assert store.Load(WeightKey) == [];
  }
}
