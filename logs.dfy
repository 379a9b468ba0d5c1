/** How a save changes a stored log. */
module Logs {
  import opened Records
  import opened Windows

  /** `saveWeight` keeps only the last 30 weight records. */
  const WeightCap: nat := 30

  /** The weight log `saveWeight` writes back: the old log with the new record pushed, trimmed to the last `WeightCap` entries. */
  function AppendWeight(log: seq<Record>, rec: Record): (r: seq<Record>)
    ensures 0 < |r| <= WeightCap
    ensures r[|r| - 1] == rec
  {
    SliceLast(log + [rec], WeightCap)
  }

  /**
    A weight save leaves min(N + 1, `WeightCap`) records: the new one last,
    and before it the newest records of the old log, in order, so the oldest
    are the ones dropped.
  */
  lemma AppendWeightRetains(log: seq<Record>, rec: Record)
    ensures var r := AppendWeight(log, rec);
      && |r| == Min(|log| + 1, WeightCap)
      && r[|r| - 1] == rec
      && r[..|r| - 1] == log[|log| + 1 - |r|..]
  {
  }

  /** The weight log after saving each of `recs` in turn, starting from `log`. */
  function AppendWeights(log: seq<Record>, recs: seq<Record>): seq<Record>
    decreases |recs|
  {
    if recs == [] then log else AppendWeights(AppendWeight(log, recs[0]), recs[1..])
  }

  /**
    However many weights are saved, one at a time, the stored log is exactly
    the last `WeightCap` of everything ever pushed onto it.
  */
  lemma {:induction false} AppendWeightsKeepsLatest(log: seq<Record>, recs: seq<Record>)
    requires recs != []
    ensures AppendWeights(log, recs) == SliceLast(log + recs, WeightCap)
    decreases |recs|
  {
    var pushed := log + [recs[0]];
    var saved := AppendWeight(log, recs[0]);
    assert saved == SliceLast(pushed, WeightCap);
    if |recs| == 1 {
      assert log + recs == pushed;
    } else {
      var rest := recs[1..];
      assert AppendWeights(log, recs) == AppendWeights(saved, rest);
      AppendWeightsKeepsLatest(saved, rest);
      SliceLastAbsorbs(pushed, rest, WeightCap);
      assert recs == [recs[0]] + rest;
      assert pushed + rest == log + recs;
    }
  }
}
