/** LangGraph channel reducers. A node returns a partial update; each written key is folded into
    the state by its channel's reducer. `operator.add` and `add_messages` channels append (the
    message-id replacement of `add_messages` is not modelled); every other channel keeps the
    last value written. A missing key in an update is `None`. */
module Reducers {
  import opened Wrappers

  /** `r` is `current` with `write` (if any) appended. */
  ghost predicate Appended<T>(current: seq<T>, write: Option<seq<T>>, r: seq<T>) {
    current <= r && r[|current|..] == write.GetOr([])
  }

  /** `r` is the written value if there was one, and `current` otherwise. */
  ghost predicate Overwritten<T>(current: T, write: Option<T>, r: T) {
    (write.Some? ==> r == write.value) && (write.None? ==> r == current)
  }

  /** One write to an append channel. */
  function AppendWrite<T>(current: seq<T>, write: Option<seq<T>>): (r: seq<T>)
    ensures Appended(current, write, r)
    ensures |r| == |current| + |write.GetOr([])|
  {
    current + write.GetOr([])
  }

  /** One write to a last-value channel. */
  function OverwriteWrite<T>(current: T, write: Option<T>): (r: T)
    ensures Overwritten(current, write, r)
  {
    write.GetOr(current)
  }

  /** Everything the writes contribute, in order: the reference for a run of appends. */
  function Written<T>(writes: seq<Option<seq<T>>>): seq<T> {
    if |writes| == 0 then [] else writes[0].GetOr([]) + Written(writes[1..])
  }

  /** The writes applied one after another, in dispatch order. */
  function AppendAll<T>(current: seq<T>, writes: seq<Option<seq<T>>>): seq<T>
    decreases |writes|
  {
    if |writes| == 0 then current else AppendAll(AppendWrite(current, writes[0]), writes[1..])
  }

  /** The last value written, or `current` when nothing was written: the reference for a run of
      overwrites, read from the end. */
  function LastWritten<T>(current: T, writes: seq<Option<T>>): T
    decreases |writes|
  {
    if |writes| == 0 then current
    else if writes[|writes| - 1].Some? then writes[|writes| - 1].value
    else LastWritten(current, writes[..|writes| - 1])
  }

  /** The writes applied one after another, in dispatch order. */
  function OverwriteAll<T>(current: T, writes: seq<Option<T>>): T
    decreases |writes|
  {
    if |writes| == 0 then current else OverwriteAll(OverwriteWrite(current, writes[0]), writes[1..])
  }

  /** Merging branch outputs in dispatch order concatenates their contributions in that order,
      so the merged channel never loses or reorders an item. */
  lemma {:induction false} AppendAllConcatenates<T>(current: seq<T>, writes: seq<Option<seq<T>>>)
    ensures AppendAll(current, writes) == current + Written(writes)
    decreases |writes|
  {
    if |writes| > 0 {
      AppendAllConcatenates(AppendWrite(current, writes[0]), writes[1..]);
      assert AppendWrite(current, writes[0]) + Written(writes[1..])
          == current + (writes[0].GetOr([]) + Written(writes[1..]));
    }
  }

  /** Writes of one item each contribute exactly those items, in order. */
  lemma {:induction false} WrittenSingletons<T>(writes: seq<Option<seq<T>>>, xs: seq<T>)
    requires |writes| == |xs|
    requires forall i :: 0 <= i < |xs| ==> writes[i] == Some([xs[i]])
    ensures Written(writes) == xs
    decreases |xs|
  {
    if |xs| > 0 {
      WrittenSingletons(writes[1..], xs[1..]);
    }
  }

  lemma {:induction false} LastWrittenSnoc<T>(current: T, writes: seq<Option<T>>, w: Option<T>)
    ensures LastWritten(current, writes + [w]) == OverwriteWrite(LastWritten(current, writes), w)
  {
    assert (writes + [w])[..|writes|] == writes;
  }

  lemma {:induction false} OverwriteAllSnoc<T>(current: T, writes: seq<Option<T>>, w: Option<T>)
    ensures OverwriteAll(current, writes + [w]) == OverwriteWrite(OverwriteAll(current, writes), w)
    decreases |writes|
  {
    if |writes| > 0 {
      assert (writes + [w])[1..] == writes[1..] + [w];
      OverwriteAllSnoc(OverwriteWrite(current, writes[0]), writes[1..], w);
    }
  }

  /** Merging branch outputs in dispatch order leaves a last-value channel holding the value of
      the last branch that wrote it (the state's value if none did). */
  lemma {:induction false} OverwriteAllLastWriterWins<T>(current: T, writes: seq<Option<T>>)
    ensures OverwriteAll(current, writes) == LastWritten(current, writes)
    decreases |writes|
  {
    if |writes| > 0 {
      var front := writes[..|writes| - 1];
      var w := writes[|writes| - 1];
      assert writes == front + [w];
      OverwriteAllLastWriterWins(current, front);
      OverwriteAllSnoc(current, front, w);
      LastWrittenSnoc(current, front, w);
    }
  }

  /** A last-value channel that no branch writes keeps its value. */
  lemma {:induction false} OverwriteAllUnwritten<T>(current: T, writes: seq<Option<T>>)
    requires forall i :: 0 <= i < |writes| ==> writes[i].None?
    ensures OverwriteAll(current, writes) == current
    decreases |writes|
  {
    if |writes| > 0 {
      OverwriteAllUnwritten(current, writes[1..]);
    }
  }
}
