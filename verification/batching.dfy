/** The stepped loops that add tracks to the playlist:

      for i in range(0, stop, 100): add(ids[i:i+100])

    with `stop = len(ids)` in app.py and run.py and `stop = min(len(ids), 10000)`
    in main.py. Python clamps a slice's end to the length of the list. */
module Batching {
  import opened Seqs

  /** Most ids one add call carries. */
  const BATCH_SIZE: nat := 100
  /** main.py's cap on how many ids it adds at all. */
  const PLAYLIST_CAP: nat := 10000

  function Min(a: nat, b: nat): nat {
    if a <= b then a else b
  }

  /** `s[i:i+100]` with Python's clamping. */
  function Slice<T>(s: seq<T>, i: nat): (b: seq<T>)
    ensures |b| <= BATCH_SIZE
    ensures i < |s| ==> |b| > 0
  {
    s[Min(i, |s|)..Min(i + BATCH_SIZE, |s|)]
  }

  /** The slices taken for `i` in `range(from, stop, 100)`. */
  function SlicesFrom<T>(s: seq<T>, from: nat, stop: nat): seq<seq<T>>
    decreases stop - from
  {
    if from >= stop then [] else [Slice(s, from)] + SlicesFrom(s, from + BATCH_SIZE, stop)
  }

  /** The slices taken for `i` in `range(0, stop, 100)`. */
  function Slices<T>(s: seq<T>, stop: nat): seq<seq<T>> {
    SlicesFrom(s, 0, stop)
  }

  /** `stop` rounded up to a whole number of batches. */
  function RoundUp(stop: nat): nat {
    (stop + BATCH_SIZE - 1) / BATCH_SIZE * BATCH_SIZE
  }

  /** The slices are non-empty, hold at most 100 ids each, and together are
      the ids up to `stop` rounded up to a whole batch (as far as there are
      ids): the loop never stops inside a batch. */
  lemma {:induction false} SlicesFromSpec<T>(s: seq<T>, from: nat, stop: nat)
    requires from % BATCH_SIZE == 0 && from <= |s| && stop <= |s|
    ensures |SlicesFrom(s, from, stop)| == if from >= stop then 0 else (stop - from + BATCH_SIZE - 1) / BATCH_SIZE
    ensures forall k :: 0 <= k < |SlicesFrom(s, from, stop)| ==> 0 < |SlicesFrom(s, from, stop)[k]| <= BATCH_SIZE
    ensures from < stop ==> Flatten(SlicesFrom(s, from, stop)) == s[from..Min(RoundUp(stop), |s|)]
    decreases stop - from
  {
    if from < stop {
      var head := Slice(s, from);
      var next := from + BATCH_SIZE;
      var rest := SlicesFrom(s, next, stop);
      FlattenCons(head, rest);
      if next < stop {
        SlicesFromSpec(s, next, stop);
        assert s[from..Min(RoundUp(stop), |s|)] == head + s[next..Min(RoundUp(stop), |s|)];
      } else {
        assert RoundUp(stop) == next;
        assert rest == [];
      }
    }
  }

  /** Batches cover the first `stop` ids exactly when `stop` is the whole
      list or a multiple of the batch size: each id up to `stop` is sent
      once, in order, and nothing beyond it. */
  lemma {:induction false} SlicesCover<T>(s: seq<T>, stop: nat)
    requires stop <= |s|
    requires stop == |s| || stop % BATCH_SIZE == 0
    ensures Flatten(Slices(s, stop)) == s[..stop]
    ensures forall k :: 0 <= k < |Slices(s, stop)| ==> 0 < |Slices(s, stop)[k]| <= BATCH_SIZE
    ensures |Slices(s, stop)| == (stop + BATCH_SIZE - 1) / BATCH_SIZE
  {
    SlicesFromSpec(s, 0, stop);
    if 0 < stop {
      assert Min(RoundUp(stop), |s|) == stop;
    }
  }

  /** The stepped add loop of app.py and run.py: returns the id lists of
      the add calls it makes, in order. */
  method AddInBatches<T>(ids: seq<T>) returns (calls: seq<seq<T>>)
    ensures calls == Slices(ids, |ids|)
    ensures Flatten(calls) == ids
    ensures forall k :: 0 <= k < |calls| ==> 0 < |calls[k]| <= BATCH_SIZE
  {
    calls := [];
    var index := 0;
    while index < |ids|
      invariant index % BATCH_SIZE == 0
      invariant calls + SlicesFrom(ids, index, |ids|) == Slices(ids, |ids|)
      decreases |ids| - index
    {
      calls := calls + [Slice(ids, index)];
      index := index + BATCH_SIZE;
    }
    SlicesCover(ids, |ids|);
    assert ids[..|ids|] == ids;
  }
}
