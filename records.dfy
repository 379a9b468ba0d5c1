/** The records the tracker keeps in storage. */
module Records {
  import opened JsValues

  /**
    A stored record. `Progress` is what the exercise page saves,
    `Weighing` what the weight page saves; both only ever hold a date string
    produced by the (unmodelled) locale formatter.
  */
  datatype Record =
    | Progress(date: string, startWeight: Num, maxWeight: Num, sets: string, reps: string)
    | Weighing(date: string, weight: Num)

  function DateOf(r: Record): Value
  {
    Str(r.date)
  }

  function StartWeightOf(r: Record): Value
  {
    if r.Progress? then Number(r.startWeight) else Undefined
  }

  function MaxWeightOf(r: Record): Value
  {
    if r.Progress? then Number(r.maxWeight) else Undefined
  }

  function SetsOf(r: Record): Value
  {
    if r.Progress? then Str(r.sets) else Undefined
  }

  function RepsOf(r: Record): Value
  {
    if r.Progress? then Str(r.reps) else Undefined
  }

  function WeightOf(r: Record): Value
  {
    if r.Weighing? then Number(r.weight) else Undefined
  }
}
