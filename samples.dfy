/**
 * Turning an ordered rate history into (window, truth) samples, and the
 * random train/test partition of those samples.
 *
 * The rate history fetched from the database is an input here. A window of
 * `size` consecutive rates starting at `offset` is paired with the rate at
 * its truth index `offset + size - 1 + offsetMinutes`; scanning stops at the
 * first candidate offset whose truth index lies beyond the history, and a
 * "flat" window (more than half of its positions equal to their predecessor,
 * the first position being compared with 0.0) is skipped.
 */
module Samples {
  import opened Common

  /** The training batch keeps only every fifth offset, to thin out near-identical samples. */
  const OFFSET_STRIDE: nat := 5

  function TruthIndex(offset: nat, size: nat, offsetMinutes: nat): (t: nat)
    requires size >= 1
    ensures offset + size <= t + 1
  {
    offset + size - 1 + offsetMinutes
  }

  /** The value a window position is compared with: its predecessor, or 0.0 for the first. */
  function Before(w: seq<real>, j: nat): real
    requires j < |w|
  {
    if j == 0 then 0.0 else w[j - 1]
  }

  /** Number of positions of w equal to the value before them. */
  function SameCount(w: seq<real>): (n: nat)
    ensures n <= |w|
  {
    if |w| == 0 then 0
    else SameCount(w[..|w| - 1]) + (if w[|w| - 1] == Before(w, |w| - 1) then 1 else 0)
  }

  predicate IsFlat(w: seq<real>)
  {
    SameCount(w) > |w| / 2
  }

  /** An offset yields a sample: it is on the stride, its truth exists and its window is not flat. */
  predicate Qualifies(rates: seq<real>, size: nat, offsetMinutes: nat, stride: nat, o: nat)
    requires size >= 1 && stride >= 1
  {
    o % stride == 0 &&
    TruthIndex(o, size, offsetMinutes) < |rates| &&
    !IsFlat(rates[o..o + size])
  }

  /** Every offset in offs has its truth value inside the history. */
  predicate InHistory(rates: seq<real>, size: nat, offsetMinutes: nat, offs: seq<nat>)
    requires size >= 1
  {
    forall k :: 0 <= k < |offs| ==> TruthIndex(offs[k], size, offsetMinutes) < |rates|
  }

  /**
   * The offsets, from `from` on, that the scan turns into samples, in scan
   * order. Each one qualifies, and they strictly increase.
   */
  function SampleOffsetsFrom(rates: seq<real>, size: nat, offsetMinutes: nat, stride: nat, from: nat)
    : (offs: seq<nat>)
    requires size >= 1 && stride >= 1
    ensures forall k :: 0 <= k < |offs| ==> from <= offs[k]
    ensures forall k, l :: 0 <= k < l < |offs| ==> offs[k] < offs[l]
    ensures InHistory(rates, size, offsetMinutes, offs)
    decreases |rates| - from
  {
    if from >= |rates| then []
    else if from % stride > 0 then SampleOffsetsFrom(rates, size, offsetMinutes, stride, from + 1)
    else if TruthIndex(from, size, offsetMinutes) >= |rates| then []
    else if IsFlat(rates[from..from + size]) then
      SampleOffsetsFrom(rates, size, offsetMinutes, stride, from + 1)
    else [from] + SampleOffsetsFrom(rates, size, offsetMinutes, stride, from + 1)
  }

  function SampleOffsets(rates: seq<real>, size: nat, offsetMinutes: nat, stride: nat): seq<nat>
    requires size >= 1 && stride >= 1
  {
    SampleOffsetsFrom(rates, size, offsetMinutes, stride, 0)
  }

  /**
   * The scan misses nothing: an offset at or after `from` is a sample offset
   * exactly when it qualifies. In particular no offset beyond the first one
   * without a truth value contributes.
   */
  lemma {:induction false} SampleOffsetsFromComplete(
    rates: seq<real>, size: nat, offsetMinutes: nat, stride: nat, from: nat, o: nat)
    requires size >= 1 && stride >= 1
    ensures o in SampleOffsetsFrom(rates, size, offsetMinutes, stride, from)
        <==> from <= o && Qualifies(rates, size, offsetMinutes, stride, o)
    decreases |rates| - from
  {
    var offs := SampleOffsetsFrom(rates, size, offsetMinutes, stride, from);
    if o in offs {
      var k :| 0 <= k < |offs| && offs[k] == o;
    }
    if from < |rates| && (from % stride > 0 || TruthIndex(from, size, offsetMinutes) < |rates|) {
      SampleOffsetsFromComplete(rates, size, offsetMinutes, stride, from + 1, o);
    }
  }

  lemma SampleOffsetsComplete(rates: seq<real>, size: nat, offsetMinutes: nat, stride: nat, o: nat)
    requires size >= 1 && stride >= 1
    ensures o in SampleOffsets(rates, size, offsetMinutes, stride)
        <==> Qualifies(rates, size, offsetMinutes, stride, o)
  {
    SampleOffsetsFromComplete(rates, size, offsetMinutes, stride, 0, o);
  }

  /** The windows taken at the given offsets. */
  function WindowsAt(rates: seq<real>, size: nat, offsetMinutes: nat, offs: seq<nat>): (x: seq<InputData>)
    requires size >= 1 && InHistory(rates, size, offsetMinutes, offs)
    ensures |x| == |offs|
  {
    seq(|offs|, k requires 0 <= k < |offs| => rates[offs[k]..offs[k] + size])
  }

  /** The truth values of the windows taken at the given offsets. */
  function TruthsAt(rates: seq<real>, size: nat, offsetMinutes: nat, offs: seq<nat>): (y: seq<real>)
    requires size >= 1 && InHistory(rates, size, offsetMinutes, offs)
    ensures |y| == |offs|
  {
    seq(|offs|, k requires 0 <= k < |offs| => rates[TruthIndex(offs[k], size, offsetMinutes)])
  }

  /** One step of the scan at `offset`. */
  lemma ScanStep(rates: seq<real>, size: nat, offsetMinutes: nat, stride: nat, offset: nat)
    requires size >= 1 && stride >= 1 && offset < |rates|
    ensures offset % stride > 0 ==>
              SampleOffsetsFrom(rates, size, offsetMinutes, stride, offset)
              == SampleOffsetsFrom(rates, size, offsetMinutes, stride, offset + 1)
    ensures offset % stride == 0 && TruthIndex(offset, size, offsetMinutes) >= |rates| ==>
              SampleOffsetsFrom(rates, size, offsetMinutes, stride, offset) == []
    ensures offset % stride == 0 && TruthIndex(offset, size, offsetMinutes) < |rates| ==>
              SampleOffsetsFrom(rates, size, offsetMinutes, stride, offset)
              == (if IsFlat(rates[offset..offset + size]) then [] else [offset])
                 + SampleOffsetsFrom(rates, size, offsetMinutes, stride, offset + 1)
  {
  }

  lemma InHistorySnoc(rates: seq<real>, size: nat, offsetMinutes: nat, offs: seq<nat>, o: nat)
    requires size >= 1 && InHistory(rates, size, offsetMinutes, offs)
    requires TruthIndex(o, size, offsetMinutes) < |rates|
    ensures InHistory(rates, size, offsetMinutes, offs + [o])
  {
    var offs' := offs + [o];
    forall k | 0 <= k < |offs'|
      ensures TruthIndex(offs'[k], size, offsetMinutes) < |rates|
    {
      if k < |offs| {
        assert offs'[k] == offs[k];
      }
    }
  }

  lemma SamplesSnoc(rates: seq<real>, size: nat, offsetMinutes: nat, offs: seq<nat>, o: nat)
    requires size >= 1 && InHistory(rates, size, offsetMinutes, offs)
    requires TruthIndex(o, size, offsetMinutes) < |rates|
    requires InHistory(rates, size, offsetMinutes, offs + [o])
    ensures WindowsAt(rates, size, offsetMinutes, offs + [o])
         == WindowsAt(rates, size, offsetMinutes, offs) + [rates[o..o + size]]
    ensures TruthsAt(rates, size, offsetMinutes, offs + [o])
         == TruthsAt(rates, size, offsetMinutes, offs) + [rates[TruthIndex(o, size, offsetMinutes)]]
  {
    assert (offs + [o])[|offs|] == o;
  }

  /**
   * One kept sample: the offset joins the offsets already taken and both
   * output sequences grow by its window and its truth value.
   */
  lemma ScanKeep(rates: seq<real>, size: nat, offsetMinutes: nat, stride: nat,
                 all: seq<nat>, done: seq<nat>, offset: nat)
    requires size >= 1 && stride >= 1 && offset < |rates| && offset % stride == 0
    requires TruthIndex(offset, size, offsetMinutes) < |rates|
    requires !IsFlat(rates[offset..offset + size])
    requires all == done + SampleOffsetsFrom(rates, size, offsetMinutes, stride, offset)
    requires InHistory(rates, size, offsetMinutes, done)
    ensures all == done + [offset] + SampleOffsetsFrom(rates, size, offsetMinutes, stride, offset + 1)
    ensures InHistory(rates, size, offsetMinutes, done + [offset])
    ensures WindowsAt(rates, size, offsetMinutes, done + [offset])
         == WindowsAt(rates, size, offsetMinutes, done) + [rates[offset..offset + size]]
    ensures TruthsAt(rates, size, offsetMinutes, done + [offset])
         == TruthsAt(rates, size, offsetMinutes, done) + [rates[TruthIndex(offset, size, offsetMinutes)]]
  {
    ScanStep(rates, size, offsetMinutes, stride, offset);
    InHistorySnoc(rates, size, offsetMinutes, done, offset);
    SamplesSnoc(rates, size, offsetMinutes, done, offset);
    var rest := SampleOffsetsFrom(rates, size, offsetMinutes, stride, offset + 1);
    assert all == done + ([offset] + rest);
    assert done + ([offset] + rest) == done + [offset] + rest;
  }

  /**
   * Takes the window at `offset` and counts its repeated positions, as the
   * inner loop of both windowing scans does.
   */
  method TakeWindow(rates: seq<real>, offset: nat, size: nat) returns (data: InputData, sameCount: nat)
    requires offset + size <= |rates|
    ensures data == rates[offset..offset + size]
    ensures sameCount == SameCount(data)
  {
    var before := 0.0;
    sameCount := 0;
    data := [];
    for index := offset to offset + size
      invariant data == rates[offset..index]
      invariant sameCount == SameCount(data)
      invariant before == if index == offset then 0.0 else rates[index - 1]
    {
      data := data + [rates[index]];
      assert data[..|data| - 1] == rates[offset..index];
      if rates[index] == before {
        sameCount := sameCount + 1;
      }
      before := rates[index];
    }
  }

  /**
   * The windowing loop of `load_input_data`: every fifth offset, stopping at
   * the first one without a truth value, skipping flat windows.
   */
  method LoadInputData(rates: seq<real>, forecastInputSize: nat, forecastOffsetMinutes: nat)
    returns (x: seq<InputData>, y: seq<real>)
    requires forecastInputSize >= 1
    ensures var offs := SampleOffsets(rates, forecastInputSize, forecastOffsetMinutes, OFFSET_STRIDE);
            InHistory(rates, forecastInputSize, forecastOffsetMinutes, offs) &&
            x == WindowsAt(rates, forecastInputSize, forecastOffsetMinutes, offs) &&
            y == TruthsAt(rates, forecastInputSize, forecastOffsetMinutes, offs)
  {
    var size, om := forecastInputSize, forecastOffsetMinutes;
    ghost var all := SampleOffsets(rates, size, om, OFFSET_STRIDE);
    ghost var done: seq<nat> := [];
    x, y := [], [];
    var offset := 0;
    while offset < |rates|
      invariant offset <= |rates|
      invariant all == done + SampleOffsetsFrom(rates, size, om, OFFSET_STRIDE, offset)
      invariant InHistory(rates, size, om, done)
      invariant x == WindowsAt(rates, size, om, done)
      invariant y == TruthsAt(rates, size, om, done)
      decreases |rates| - offset
    {
      ScanStep(rates, size, om, OFFSET_STRIDE, offset);
      if offset % OFFSET_STRIDE > 0 {
        offset := offset + 1;
        continue;
      }
      var truth := TruthIndex(offset, size, om);
      if truth >= |rates| {
        break;
      }
      var data, sameCount := TakeWindow(rates, offset, size);
      if sameCount > |data| / 2 {
        offset := offset + 1;
        continue;
      }
      ScanKeep(rates, size, om, OFFSET_STRIDE, all, done, offset);
      x := x + [data];
      y := y + [rates[truth]];
      done := done + [offset];
      offset := offset + 1;
    }
    assert done == all;
  }

  // ---------------------------------------------------------------------------
  // train_test_split with one draw per sample

  /**
   * The indices below k whose draw puts them in the test half (want = true)
   * or in the training half (want = false), in increasing order.
   */
  function IndexesWhere(draws: seq<real>, testRatio: real, want: bool, k: nat): (idx: seq<nat>)
    requires k <= |draws|
    ensures forall j :: 0 <= j < |idx| ==> idx[j] < k
    ensures forall j, l :: 0 <= j < l < |idx| ==> idx[j] < idx[l]
  {
    if k == 0 then []
    else
      IndexesWhere(draws, testRatio, want, k - 1)
        + (if (draws[k - 1] <= testRatio) == want then [k - 1] else [])
  }

  /** An index below k is selected exactly when its draw puts it on the wanted side. */
  lemma {:induction false} IndexesWhereMembers(draws: seq<real>, testRatio: real, want: bool, k: nat)
    requires k <= |draws|
    ensures forall i :: 0 <= i < k ==>
              (i in IndexesWhere(draws, testRatio, want, k) <==> (draws[i] <= testRatio) == want)
  {
    if k > 0 {
      IndexesWhereMembers(draws, testRatio, want, k - 1);
      var before := IndexesWhere(draws, testRatio, want, k - 1);
      var added: seq<nat> := if (draws[k - 1] <= testRatio) == want then [k - 1] else [];
      assert IndexesWhere(draws, testRatio, want, k) == before + added;
      assert k - 1 !in before;
    }
  }

  /** The halves partition the indices: their sizes add up to the number of samples. */
  lemma {:induction false} IndexesPartition(draws: seq<real>, testRatio: real, k: nat)
    requires k <= |draws|
    ensures |IndexesWhere(draws, testRatio, true, k)| + |IndexesWhere(draws, testRatio, false, k)| == k
  {
    if k > 0 {
      IndexesPartition(draws, testRatio, k - 1);
      var t := IndexesWhere(draws, testRatio, true, k - 1);
      var f := IndexesWhere(draws, testRatio, false, k - 1);
      if draws[k - 1] <= testRatio {
        assert IndexesWhere(draws, testRatio, true, k) == t + [k - 1];
        assert IndexesWhere(draws, testRatio, false, k) == f + [];
      } else {
        assert IndexesWhere(draws, testRatio, true, k) == t + [];
        assert IndexesWhere(draws, testRatio, false, k) == f + [k - 1];
      }
    }
  }

  function Gather<T>(xs: seq<T>, idx: seq<nat>): (r: seq<T>)
    requires forall j :: 0 <= j < |idx| ==> idx[j] < |xs|
    ensures |r| == |idx|
  {
    seq(|idx|, j requires 0 <= j < |idx| => xs[idx[j]])
  }

  lemma GatherSnoc<T>(xs: seq<T>, idx: seq<nat>, i: nat)
    requires forall j :: 0 <= j < |idx| ==> idx[j] < |xs|
    requires i < |xs|
    ensures Gather(xs, idx + [i]) == Gather(xs, idx) + [xs[i]]
  {
  }

  /**
   * `train_test_split`: index i goes to the test half exactly when its draw is
   * at most `testRatio`; both halves keep the original order and the x/y pairing.
   */
  method TrainTestSplit(x: seq<InputData>, y: seq<real>, testRatio: real, draws: seq<real>)
    returns (trainX: seq<InputData>, testX: seq<InputData>, trainY: seq<real>, testY: seq<real>)
    requires |draws| == |x|
    requires |x| <= |y|
    ensures var test := IndexesWhere(draws, testRatio, true, |x|);
            testX == Gather(x, test) && testY == Gather(y, test)
    ensures var train := IndexesWhere(draws, testRatio, false, |x|);
            trainX == Gather(x, train) && trainY == Gather(y, train)
  {
    var testIndexes: set<nat> := {};
    for i := 0 to |x|
      invariant testIndexes == set j | 0 <= j < i && draws[j] <= testRatio
    {
      if draws[i] <= testRatio {
        testIndexes := testIndexes + {i};
      }
    }

    trainX, trainY, testX, testY := [], [], [], [];
    for i := 0 to |x|
      invariant var test := IndexesWhere(draws, testRatio, true, i);
                testX == Gather(x, test) && testY == Gather(y, test)
      invariant var train := IndexesWhere(draws, testRatio, false, i);
                trainX == Gather(x, train) && trainY == Gather(y, train)
    {
      ghost var test := IndexesWhere(draws, testRatio, true, i);
      ghost var train := IndexesWhere(draws, testRatio, false, i);
      if i in testIndexes {
        assert draws[i] <= testRatio;
        assert IndexesWhere(draws, testRatio, true, i + 1) == test + [i];
        assert IndexesWhere(draws, testRatio, false, i + 1) == train;
        GatherSnoc(x, test, i);
        GatherSnoc(y, test, i);
        testX := testX + [x[i]];
        testY := testY + [y[i]];
      } else {
        assert IndexesWhere(draws, testRatio, true, i + 1) == test;
        assert IndexesWhere(draws, testRatio, false, i + 1) == train + [i];
        GatherSnoc(x, train, i);
        GatherSnoc(y, train, i);
        trainX := trainX + [x[i]];
        trainY := trainY + [y[i]];
      }
    }
  }

  /** Every sample lands in exactly one half, so no sample is lost or duplicated. */
  lemma SplitSizes(x: seq<InputData>, draws: seq<real>, testRatio: real)
    requires |draws| == |x|
    ensures |IndexesWhere(draws, testRatio, true, |x|)| + |IndexesWhere(draws, testRatio, false, |x|)| == |x|
    ensures forall i :: 0 <= i < |x| ==>
              (i in IndexesWhere(draws, testRatio, true, |x|)) != (i in IndexesWhere(draws, testRatio, false, |x|))
  {
    IndexesPartition(draws, testRatio, |x|);
    IndexesWhereMembers(draws, testRatio, true, |x|);
    IndexesWhereMembers(draws, testRatio, false, |x|);
  }
}
