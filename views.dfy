/**
  What the pages show, as which records are selected. The HTML text the page
  builds around each record is not modelled.
*/
module Views {
  import opened JsValues
  import opened Records
  import opened Windows
  import opened Logs

  /** A history panel: the "no data yet" placeholder, or one row per record shown. */
  datatype History = Placeholder | Rows(records: seq<Record>)

  /** The exercise history shows the last 5 records. */
  const ExerciseWindow: nat := 5

  /** The weight history shows the last 30 records. */
  const WeightWindow: nat := 30

  /** The panel `updateExerciseHistory` renders for a log. */
  function ExerciseHistory(data: seq<Record>): (h: History)
    ensures h.Placeholder? <==> data == []
    ensures h.Rows? ==> |h.records| == Min(ExerciseWindow, |data|)
    ensures h.Rows? ==> h.records == data[|data| - |h.records|..]
  {
    if |data| == 0 then Placeholder else Rows(SliceLast(data, ExerciseWindow))
  }

  /** The panel `updateWeightHistory` renders for a log. */
  function WeightHistory(data: seq<Record>): (h: History)
    ensures h.Placeholder? <==> data == []
    ensures h.Rows? ==> |h.records| == Min(WeightWindow, |data|)
    ensures h.Rows? ==> h.records == data[|data| - |h.records|..]
  {
    if |data| == 0 then Placeholder else Rows(SliceLast(data, WeightWindow))
  }

  /**
    Right after a save, the exercise panel is non-empty, ends with the new
    record, and shows before it the newest records of the old log.
  */
  lemma ExerciseHistoryAfterSave(log: seq<Record>, rec: Record)
    ensures ExerciseHistory(log + [rec]).Rows?
    ensures var shown := ExerciseHistory(log + [rec]).records;
      && |shown| == Min(ExerciseWindow, |log| + 1)
      && shown[|shown| - 1] == rec
      && shown[..|shown| - 1] == log[|log| + 1 - |shown|..]
  {
  }

  /**
    A weight log that `saveWeight` has written is never longer than the
    weight panel's window, so the panel shows every stored record.
  */
  lemma WeightHistoryShowsRetained(log: seq<Record>, rec: Record)
    ensures WeightHistory(AppendWeight(log, rec)) == Rows(AppendWeight(log, rec))
  {
  }

  /** The values `fillExerciseFields` puts back into the four inputs. */
  datatype Fields = Fields(start: Value, max: Value, sets: Value, reps: Value)

  /**
    `fillExerciseFields`: nothing when the log is empty; otherwise each input
    takes the matching field of the last record when that field is truthy,
    and the empty string when it is missing or falsy.
  */
  function Refill(data: seq<Record>): (f: Option<Fields>)
    ensures f.None? <==> data == []
    ensures f.Some? ==>
      var last := data[|data| - 1];
      && (Truthy(StartWeightOf(last)) ==> f.value.start == StartWeightOf(last))
      && (!Truthy(StartWeightOf(last)) ==> f.value.start == Str(""))
      && (Truthy(MaxWeightOf(last)) ==> f.value.max == MaxWeightOf(last))
      && (!Truthy(MaxWeightOf(last)) ==> f.value.max == Str(""))
      && (Truthy(SetsOf(last)) ==> f.value.sets == SetsOf(last))
      && (!Truthy(SetsOf(last)) ==> f.value.sets == Str(""))
      && (Truthy(RepsOf(last)) ==> f.value.reps == RepsOf(last))
      && (!Truthy(RepsOf(last)) ==> f.value.reps == Str(""))
  {
    if |data| == 0 then None
    else
      var last := data[|data| - 1];
      Some(Fields(OrEmpty(StartWeightOf(last)), OrEmpty(MaxWeightOf(last)),
                  OrEmpty(SetsOf(last)), OrEmpty(RepsOf(last))))
  }

  /**
    Saving progress and reloading the page refills the sets and reps inputs
    with exactly what was typed, and each weight input with the parsed weight
    unless that weight is 0 or NaN, in which case the input is left empty.
  */
  lemma RefillAfterSave(log: seq<Record>, date: string, start: Num, max: Num, sets: string, reps: string)
    ensures var f := Refill(log + [Progress(date, start, max, sets, reps)]);
      && f.Some?
      && f.value.sets == Str(sets)
      && f.value.reps == Str(reps)
      && (f.value.start == Number(start) <==> Truthy(Number(start)))
      && (f.value.start != Number(start) ==> f.value.start == Str(""))
      && (f.value.max == Number(max) <==> Truthy(Number(max)))
      && (f.value.max != Number(max) ==> f.value.max == Str(""))
  {
  }

  /** One column of the chart: `log.map(record => record.field)`. */
  function Column(log: seq<Record>, field: Record -> Value): (col: seq<Value>)
    ensures |col| == |log|
    ensures forall i :: 0 <= i < |log| ==> col[i] == field(log[i])
  {
    if log == [] then [] else [field(log[0])] + Column(log[1..], field)
  }

  /** The labels and data points of the weight chart. */
  datatype Series = Series(dates: seq<Value>, weights: seq<Value>)

  /**
    `initializeWeightChart`: no chart for an empty log; otherwise a date and a
    weight per record, aligned with the log by index.
  */
  function Chart(log: seq<Record>): (c: Option<Series>)
    ensures c.None? <==> log == []
    ensures c.Some? ==> |c.value.dates| == |log| && |c.value.weights| == |log|
    ensures c.Some? ==> forall i :: 0 <= i < |log| ==>
      c.value.dates[i] == DateOf(log[i]) && c.value.weights[i] == WeightOf(log[i])
  {
    if |log| == 0 then None else Some(Series(Column(log, DateOf), Column(log, WeightOf)))
  }

  /**
    After a weight save the chart has at most `WeightCap` points and its last
    point is the new record's date and weight.
  */
  lemma ChartAfterSave(log: seq<Record>, rec: Record)
    ensures var c := Chart(AppendWeight(log, rec));
      && c.Some?
      && 0 < |c.value.dates| <= WeightCap
      && c.value.dates[|c.value.dates| - 1] == DateOf(rec)
      && c.value.weights[|c.value.weights| - 1] == WeightOf(rec)
  {
  }
}
