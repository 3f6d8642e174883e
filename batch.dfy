/**
 * The older training run of the batch's entry point: load every window of
 * the rate history, give up quietly when there are too few, save the data
 * sets, collect the candidate models (a reusable stored model, then
 * `trainingCount` fits of every family in a fixed order, where any failing
 * fit aborts the run), pick the first model with the smallest mean squared
 * error and upsert it.
 *
 * The regression library and the database are oracles. Each fit attempt is
 * made on its own random sub-split of the training data; that split is not
 * modelled, so the fit oracle is indexed by family and attempt number.
 * Writes to the database are returned as a log.
 */
module Batch {
  import opened Common
  import Samples
  import Training

  // ---------------------------------------------------------------------------
  // load_data: every offset, no stride

  /** Offsets here advance one at a time. */
  const EVERY_OFFSET: nat := 1

  /**
   * The windowing loop of the entry point's `load_data`. It differs from the
   * training batch's loader only in taking every offset; its even-count
   * adjustment tests `offset == rates.len()` inside a loop over offsets below
   * `rates.len()`, so it never fires.
   */
  method LoadData(config: Config, fetched: Result<seq<real>, MyError>)
    returns (r: Result<(seq<InputData>, seq<real>), MyError>)
    requires config.forecastInputSize >= 1
    ensures fetched.Err? ==> r == Err(fetched.error)
    ensures fetched.Ok? ==>
              var rates := fetched.value;
              var size, om := config.forecastInputSize, config.forecastOffsetMinutes;
              var offs := Samples.SampleOffsets(rates, size, om, EVERY_OFFSET);
              r == Ok((Samples.WindowsAt(rates, size, om, offs), Samples.TruthsAt(rates, size, om, offs)))
  {
    if fetched.Err? {
      return Err(fetched.error);
    }
    var x, y := ScanEveryOffset(fetched.value, config.forecastInputSize, config.forecastOffsetMinutes);
    return Ok((x, y));
  }

  /** The loop of `load_data` over every offset. */
  method ScanEveryOffset(rates: seq<real>, size: nat, om: nat) returns (x: seq<InputData>, y: seq<real>)
    requires size >= 1
    ensures var offs := Samples.SampleOffsets(rates, size, om, EVERY_OFFSET);
            x == Samples.WindowsAt(rates, size, om, offs) && y == Samples.TruthsAt(rates, size, om, offs)
  {
    ghost var all := Samples.SampleOffsets(rates, size, om, EVERY_OFFSET);
    ghost var done: seq<nat> := [];
    x, y := [], [];
    var offset := 0;
    while offset < |rates|
      invariant offset <= |rates|
      invariant all == done + Samples.SampleOffsetsFrom(rates, size, om, EVERY_OFFSET, offset)
      invariant Samples.InHistory(rates, size, om, done)
      invariant x == Samples.WindowsAt(rates, size, om, done)
      invariant y == Samples.TruthsAt(rates, size, om, done)
      decreases |rates| - offset
    {
      Samples.ScanStep(rates, size, om, EVERY_OFFSET, offset);
      var truth := Samples.TruthIndex(offset, size, om);
      if truth >= |rates| {
        break;
      }
      var data, sameCount := Samples.TakeWindow(rates, offset, size);
      if sameCount > |data| / 2 {
        offset := offset + 1;
        continue;
      }
      // `load_data` skips the sample when `offset == rates.len()` and the
      // count so far is even; inside this loop the first half never holds,
      // so the parity half is never evaluated.
      if offset == |rates| {
        assert false;
      }
      Samples.ScanKeep(rates, size, om, EVERY_OFFSET, all, done, offset);
      x := x + [data];
      y := y + [rates[truth]];
      done := done + [offset];
      offset := offset + 1;
    }
    assert done == all;
  }

  /**
   * Without a stride every offset whose truth value exists and whose window
   * is not flat yields a sample.
   */
  lemma EveryOffsetComplete(rates: seq<real>, size: nat, offsetMinutes: nat, o: nat)
    requires size >= 1
    ensures o in Samples.SampleOffsets(rates, size, offsetMinutes, EVERY_OFFSET)
        <==> Samples.TruthIndex(o, size, offsetMinutes) < |rates| && !Samples.IsFlat(rates[o..o + size])
  {
    Samples.SampleOffsetsComplete(rates, size, offsetMinutes, EVERY_OFFSET, o);
  }

  // ---------------------------------------------------------------------------
  // Candidates

  /** The regression library as the entry point uses it. */
  datatype BatchNumerics = BatchNumerics(
    // fitting attempt `attempt` (counted from 1) of a family
    fit: (ModelFamily, Training.FitSettings, nat) -> Result<FittedModel, MyError>,
    // prediction on the test inputs
    predict: ForecastModel -> Result<seq<real>, MyError>,
    // mean squared error of a prediction against the test truth values
    mse: seq<real> -> real)

  /** A model fitted by the entry point: no feature parameters and no measured performance. */
  function BatchModel(config: Config, family: ModelFamily, fitted: FittedModel): (m: ForecastModel)
    ensures m.family == family && m.model == fitted && m.memo == FamilyName(family)
    ensures m.pair == config.currencyPair && m.no == config.forecastModelNo
    ensures m.inputDataSize == Some(config.forecastInputSize)
    ensures m.featureParams.None? && m.performance.None?
  {
    ForecastModel(family, config.currencyPair, config.forecastModelNo, fitted,
                  Some(config.forecastInputSize), None, None, FamilyName(family))
  }

  /** Fit attempts 1..n of one family; the first failing fit ends them with its error. */
  function FamilyCandidates(config: Config, family: ModelFamily, num: BatchNumerics, n: nat)
    : (r: Result<seq<ForecastModel>, MyError>)
    ensures r.Ok? <==> forall k :: 1 <= k <= n ==> num.fit(family, Training.SettingsFor(family), k).Ok?
    ensures r.Ok? ==> |r.value| == n
    ensures r.Ok? ==> forall k :: 0 <= k < n ==>
              r.value[k] == BatchModel(config, family, num.fit(family, Training.SettingsFor(family), k + 1).value)
  {
    if n == 0 then Ok([])
    else
      var before := FamilyCandidates(config, family, num, n - 1);
      if before.Err? then before
      else
        var fitted := num.fit(family, Training.SettingsFor(family), n);
        if fitted.Err? then Err(fitted.error)
        else Ok(before.value + [BatchModel(config, family, fitted.value)])
  }

  /** Once an attempt has failed, later attempts do not change the outcome. */
  lemma {:induction false} FamilyCandidatesErrSticks(config: Config, family: ModelFamily, num: BatchNumerics,
                                                     k: nat, n: nat)
    requires k <= n
    requires FamilyCandidates(config, family, num, k).Err?
    ensures FamilyCandidates(config, family, num, n) == FamilyCandidates(config, family, num, k)
    decreases n - k
  {
    if k < n {
      FamilyCandidatesErrSticks(config, family, num, k + 1, n);
    }
  }

  /**
   * One of the entry point's per-family loops: `trainingCount` fits, each
   * pushed as a model; a failing fit returns its error at once.
   */
  method TrainFamily(config: Config, family: ModelFamily, num: BatchNumerics)
    returns (r: Result<seq<ForecastModel>, MyError>)
    ensures r == FamilyCandidates(config, family, num, config.trainingCount)
  {
    var models: seq<ForecastModel> := [];
    for index := 1 to config.trainingCount + 1
      invariant FamilyCandidates(config, family, num, index - 1) == Ok(models)
    {
      var fitted := num.fit(family, Training.SettingsFor(family), index);
      if fitted.Err? {
        FamilyCandidatesErrSticks(config, family, num, index, config.trainingCount);
        return Err(fitted.error);
      }
      FamilyCandidatesStep(config, family, num, index);
      models := models + [BatchModel(config, family, fitted.value)];
    }
    return Ok(models);
  }

  /** One more successful fit appends its model. */
  lemma FamilyCandidatesStep(config: Config, family: ModelFamily, num: BatchNumerics, n: nat)
    requires n > 0 && FamilyCandidates(config, family, num, n - 1).Ok?
    requires num.fit(family, Training.SettingsFor(family), n).Ok?
    ensures FamilyCandidates(config, family, num, n)
         == Ok(FamilyCandidates(config, family, num, n - 1).value
               + [BatchModel(config, family, num.fit(family, Training.SettingsFor(family), n).value)])
  {
  }

  /** Runs in order: the first failing run ends everything with its error; otherwise all models, in order. */
  function Chain(runs: seq<Result<seq<ForecastModel>, MyError>>): (r: Result<seq<ForecastModel>, MyError>)
    ensures r.Ok? <==> forall i :: 0 <= i < |runs| ==> runs[i].Ok?
  {
    if |runs| == 0 then Ok([])
    else
      var before := Chain(runs[..|runs| - 1]);
      var last := runs[|runs| - 1];
      if before.Err? then before
      else if last.Err? then Err(last.error)
      else Ok(before.value + last.value)
  }

  lemma ChainSnoc(runs: seq<Result<seq<ForecastModel>, MyError>>, last: Result<seq<ForecastModel>, MyError>)
    ensures Chain(runs + [last]) ==
            if Chain(runs).Err? then Chain(runs)
            else if last.Err? then Err(last.error)
            else Ok(Chain(runs).value + last.value)
  {
    assert (runs + [last])[..|runs|] == runs;
  }

  /** The per-family runs of the entry point, in NEW_MODEL_ORDER. */
  function FamilyRuns(config: Config, num: BatchNumerics): (runs: seq<Result<seq<ForecastModel>, MyError>>)
    ensures |runs| == |Training.NEW_MODEL_ORDER|
  {
    seq(|Training.NEW_MODEL_ORDER|, i requires 0 <= i < |Training.NEW_MODEL_ORDER| =>
      FamilyCandidates(config, Training.NEW_MODEL_ORDER[i], num, config.trainingCount))
  }

  /** The stored model, as a candidate list of at most one. */
  function ExistingCandidate(config: Config, existing: Result<Option<ForecastModel>, MyError>)
    : (r: Result<seq<ForecastModel>, MyError>)
    ensures existing.Err? ==> r == Err(existing.error)
    ensures r.Ok? && |r.value| > 0 ==>
              existing.Ok? && existing.value.Some? &&
              r.value == [existing.value.value] &&
              existing.value.value.inputDataSize == Some(config.forecastInputSize)
    ensures existing.Ok? && existing.value.Some? &&
            existing.value.value.inputDataSize == Some(config.forecastInputSize) ==>
              r == Ok([existing.value.value])
    ensures r == Ok([]) <==>
              existing == Ok(None) ||
              (existing.Ok? && existing.value.Some? && existing.value.value.inputDataSize.Some? &&
               existing.value.value.inputDataSize.value != config.forecastInputSize)
    ensures existing.Ok? && r.Err? <==>
              existing.Ok? && existing.value.Some? && existing.value.value.inputDataSize.None?
    ensures existing.Ok? && r.Err? ==> r.error == MissingField("input_data_size")
  {
    match existing
    case Err(e) => Err(e)
    case Ok(None) => Ok([])
    case Ok(Some(m)) =>
      match m.inputDataSize
      case None => Err(MissingField("input_data_size"))
      case Some(size) => if size == config.forecastInputSize then Ok([m]) else Ok([])
  }

  /** All candidates: the reusable stored model, then every family's fits. */
  function Candidates(config: Config, existing: Result<Option<ForecastModel>, MyError>, num: BatchNumerics)
    : Result<seq<ForecastModel>, MyError>
  {
    var first := ExistingCandidate(config, existing);
    if first.Err? then first
    else
      var trained := Chain(FamilyRuns(config, num));
      if trained.Err? then trained else Ok(first.value + trained.value)
  }

  /**
   * Collects the candidates as the entry point does. The entry point spells
   * out one fitting loop per family, in NEW_MODEL_ORDER (its Logistic loop is
   * commented out); here they are the iterations of one loop over that order.
   */
  method CollectCandidates(config: Config, existing: Result<Option<ForecastModel>, MyError>, num: BatchNumerics)
    returns (r: Result<seq<ForecastModel>, MyError>)
    ensures r == Candidates(config, existing, num)
  {
    var first := ExistingCandidate(config, existing);
    if first.Err? {
      return first;
    }
    ghost var runs := FamilyRuns(config, num);
    var trained: seq<ForecastModel> := [];
    for k := 0 to |Training.NEW_MODEL_ORDER|
      invariant Chain(runs[..k]) == Ok(trained)
    {
      var run := TrainFamily(config, Training.NEW_MODEL_ORDER[k], num);
      assert run == runs[k];
      assert runs[..k + 1] == runs[..k] + [runs[k]];
      ChainSnoc(runs[..k], run);
      if run.Err? {
        ChainErrSticks(runs, k + 1);
        return Err(run.error);
      }
      trained := trained + run.value;
    }
    assert runs[..|runs|] == runs;
    return Ok(first.value + trained);
  }

  /** Once a prefix of the runs has failed, the whole chain fails the same way. */
  lemma {:induction false} ChainErrSticks(runs: seq<Result<seq<ForecastModel>, MyError>>, k: nat)
    requires k <= |runs| && Chain(runs[..k]).Err?
    ensures Chain(runs) == Chain(runs[..k])
    decreases |runs| - k
  {
    if k < |runs| {
      assert runs[..k + 1] == runs[..k] + [runs[k]];
      ChainSnoc(runs[..k], runs[k]);
      ChainErrSticks(runs, k + 1);
    } else {
      assert runs[..k] == runs;
    }
  }

  // ---------------------------------------------------------------------------
  // Candidate families and sizes

  /** The models of runs that all succeeded, one run after the other. */
  function Concat(runs: seq<Result<seq<ForecastModel>, MyError>>): seq<ForecastModel>
    requires forall i :: 0 <= i < |runs| ==> runs[i].Ok?
  {
    if |runs| == 0 then [] else Concat(runs[..|runs| - 1]) + runs[|runs| - 1].value
  }

  /** Runs that all succeed chain to the concatenation of their models. */
  lemma {:induction false} ChainConcat(runs: seq<Result<seq<ForecastModel>, MyError>>)
    requires forall i :: 0 <= i < |runs| ==> runs[i].Ok?
    ensures Chain(runs) == Ok(Concat(runs))
  {
    if |runs| > 0 {
      ChainConcat(runs[..|runs| - 1]);
    }
  }

  /** Runs of n models each concatenate to |runs| * n models. */
  lemma {:induction false} ConcatLength(runs: seq<Result<seq<ForecastModel>, MyError>>, n: nat)
    requires forall i :: 0 <= i < |runs| ==> runs[i].Ok? && |runs[i].value| == n
    ensures |Concat(runs)| == |runs| * n
  {
    if |runs| > 0 {
      ConcatLength(runs[..|runs| - 1], n);
      assert |runs| * n == (|runs| - 1) * n + n;
    }
  }

  /** A property every run's models have holds of the whole chain. */
  lemma {:induction false} ChainAll(runs: seq<Result<seq<ForecastModel>, MyError>>, p: ForecastModel -> bool)
    requires forall i, k :: 0 <= i < |runs| && runs[i].Ok? && 0 <= k < |runs[i].value| ==> p(runs[i].value[k])
    ensures Chain(runs).Ok? ==> forall k :: 0 <= k < |Chain(runs).value| ==> p(Chain(runs).value[k])
  {
    if |runs| > 0 && Chain(runs).Ok? {
      var prefix := runs[..|runs| - 1];
      ChainAll(prefix, p);
      var before := Chain(prefix).value;
      var last := runs[|runs| - 1].value;
      assert Chain(runs).value == before + last;
      forall k | 0 <= k < |before| + |last|
        ensures p((before + last)[k])
      {
        if k < |before| {
          assert p(before[k]);
        } else {
          assert p(runs[|runs| - 1].value[k - |before|]);
        }
      }
    }
  }

  /** A trained candidate: a batch model of one of the seven families of NEW_MODEL_ORDER. */
  predicate IsTrained(config: Config, m: ForecastModel)
  {
    m.family in Training.NEW_MODEL_ORDER && m == BatchModel(config, m.family, m.model)
  }

  /**
   * Every trained candidate is a batch model of a family in NEW_MODEL_ORDER,
   * so none is Logistic and none carries feature parameters or a
   * performance.
   */
  lemma TrainedCandidates(config: Config, num: BatchNumerics)
    ensures var c := Chain(FamilyRuns(config, num));
            c.Ok? ==> forall k :: 0 <= k < |c.value| ==> IsTrained(config, c.value[k])
  {
    var runs := FamilyRuns(config, num);
    forall i, k | 0 <= i < |runs| && runs[i].Ok? && 0 <= k < |runs[i].value|
      ensures IsTrained(config, runs[i].value[k])
    {
      assert Training.NEW_MODEL_ORDER[i] in Training.NEW_MODEL_ORDER;
    }
    ChainAll(runs, m => IsTrained(config, m));
  }

  /**
   * With every fit succeeding, the families contribute `trainingCount`
   * models each, one family after the other in NEW_MODEL_ORDER.
   */
  lemma TrainedLayout(config: Config, num: BatchNumerics)
    requires forall f, k :: f in Training.NEW_MODEL_ORDER && 1 <= k <= config.trainingCount ==>
               num.fit(f, Training.SettingsFor(f), k).Ok?
    ensures var runs := FamilyRuns(config, num);
            (forall i :: 0 <= i < |runs| ==> runs[i].Ok? && |runs[i].value| == config.trainingCount) &&
            Chain(runs) == Ok(Concat(runs)) &&
            |Concat(runs)| == 7 * config.trainingCount
  {
    var runs := FamilyRuns(config, num);
    forall i | 0 <= i < |runs|
      ensures runs[i].Ok? && |runs[i].value| == config.trainingCount
    {
      assert Training.NEW_MODEL_ORDER[i] in Training.NEW_MODEL_ORDER;
    }
    ChainConcat(runs);
    ConcatLength(runs, config.trainingCount);
  }

  /** The run's candidates exist exactly when the stored model loads and every fit succeeds. */
  lemma CandidatesOk(config: Config, existing: Result<Option<ForecastModel>, MyError>, num: BatchNumerics)
    ensures Candidates(config, existing, num).Ok? <==>
              ExistingCandidate(config, existing).Ok? &&
              forall f, k :: f in Training.NEW_MODEL_ORDER && 1 <= k <= config.trainingCount ==>
                num.fit(f, Training.SettingsFor(f), k).Ok?
  {
    var runs := FamilyRuns(config, num);
    if Chain(runs).Ok? {
      forall f, k | f in Training.NEW_MODEL_ORDER && 1 <= k <= config.trainingCount
        ensures num.fit(f, Training.SettingsFor(f), k).Ok?
      {
        var i :| 0 <= i < |Training.NEW_MODEL_ORDER| && Training.NEW_MODEL_ORDER[i] == f;
        assert runs[i].Ok?;
      }
    } else {
      var i :| 0 <= i < |runs| && runs[i].Err?;
      assert Training.NEW_MODEL_ORDER[i] in Training.NEW_MODEL_ORDER;
    }
  }

  // ---------------------------------------------------------------------------
  // Choosing the best candidate

  /** Position i holds the first smallest element of s. */
  predicate IsFirstMin(s: seq<real>, i: nat)
  {
    i < |s| &&
    (forall j :: 0 <= j < |s| ==> s[i] <= s[j]) &&
    (forall j :: 0 <= j < i ==> s[i] < s[j])
  }

  /** The first position holding the smallest element. */
  function FirstMinIndex(s: seq<real>): (i: nat)
    requires |s| > 0
    ensures IsFirstMin(s, i)
  {
    if |s| == 1 then 0
    else
      var i := FirstMinIndex(s[..|s| - 1]);
      if s[|s| - 1] < s[i] then |s| - 1 else i
  }

  /**
   * The mean squared error of every candidate on the test half, in order;
   * the first failing prediction ends the scoring with its error.
   */
  function Scores(models: seq<ForecastModel>, num: BatchNumerics): (r: Result<seq<real>, MyError>)
    ensures r.Ok? <==> forall k :: 0 <= k < |models| ==> num.predict(models[k]).Ok?
    ensures r.Ok? ==> |r.value| == |models|
    ensures r.Ok? ==> forall k :: 0 <= k < |models| ==> r.value[k] == num.mse(num.predict(models[k]).value)
  {
    if |models| == 0 then Ok([])
    else
      var before := Scores(models[..|models| - 1], num);
      if before.Err? then before
      else
        var predicted := num.predict(models[|models| - 1]);
        if predicted.Err? then Err(predicted.error)
        else Ok(before.value + [num.mse(predicted.value)])
  }

  /** Once a prefix has failed, scoring the rest does not change the outcome. */
  lemma {:induction false} ScoresErrSticks(models: seq<ForecastModel>, num: BatchNumerics, k: nat)
    requires k <= |models| && Scores(models[..k], num).Err?
    ensures Scores(models, num) == Scores(models[..k], num)
    decreases |models| - k
  {
    if k < |models| {
      assert models[..k + 1][..k] == models[..k];
      ScoresErrSticks(models, num, k + 1);
    } else {
      assert models[..k] == models;
    }
  }

  /** Scoring one more model appends its error. */
  lemma ScoresStep(models: seq<ForecastModel>, num: BatchNumerics, k: nat)
    requires k < |models| && Scores(models[..k], num).Ok? && num.predict(models[k]).Ok?
    ensures Scores(models[..k + 1], num)
         == Ok(Scores(models[..k], num).value + [num.mse(num.predict(models[k]).value)])
  {
    assert models[..k + 1][..k] == models[..k];
  }

  /** A new last element is the first minimum exactly when it is below the old one. */
  lemma FirstMinSnoc(s: seq<real>, x: real)
    requires |s| > 0
    ensures FirstMinIndex(s + [x]) == if x < s[FirstMinIndex(s)] then |s| else FirstMinIndex(s)
  {
    assert (s + [x])[..|s|] == s;
  }

  /**
   * The running choice of the selection loop after the given scores: nothing
   * before the first score, then the first model of smallest error so far.
   */
  ghost predicate Tracks(models: seq<ForecastModel>, scores: seq<real>,
                         best: Option<ForecastModel>, bestMse: Option<real>)
  {
    |scores| <= |models| &&
    (|scores| == 0 ==> best.None? && bestMse.None?) &&
    (|scores| > 0 ==> best == Some(models[FirstMinIndex(scores)]) && bestMse == Some(scores[FirstMinIndex(scores)]))
  }

  /** Replacing the choice exactly when the new error is strictly smaller keeps it the first minimum. */
  lemma TracksStep(models: seq<ForecastModel>, scores: seq<real>,
                   best: Option<ForecastModel>, bestMse: Option<real>, mse: real)
    requires Tracks(models, scores, best, bestMse) && |scores| < |models|
    ensures var better := bestMse.None? || mse < bestMse.value;
            Tracks(models, scores + [mse],
                   if better then Some(models[|scores|]) else best,
                   if better then Some(mse) else bestMse)
  {
    if |scores| > 0 {
      FirstMinSnoc(scores, mse);
    } else {
      assert [] + [mse] == [mse];
    }
  }

  /**
   * The selection loop of the entry point: keeps the first model whose error
   * is strictly below every earlier one; a failing prediction aborts.
   */
  method SelectBest(models: seq<ForecastModel>, num: BatchNumerics) returns (r: Result<Option<ForecastModel>, MyError>)
    ensures Scores(models, num).Err? ==> r == Err(Scores(models, num).error)
    ensures Scores(models, num).Ok? && |models| == 0 ==> r == Ok(None)
    ensures Scores(models, num).Ok? && |models| > 0 ==>
              r == Ok(Some(models[FirstMinIndex(Scores(models, num).value)]))
  {
    var best: Option<ForecastModel> := None;
    var bestMse: Option<real> := None;
    ghost var scores: seq<real> := [];
    for k := 0 to |models|
      invariant Scores(models[..k], num) == Ok(scores) && |scores| == k
      invariant Tracks(models, scores, best, bestMse)
    {
      var predicted := num.predict(models[k]);
      if predicted.Err? {
        assert models[..k + 1][..k] == models[..k];
        ScoresErrSticks(models, num, k + 1);
        return Err(predicted.error);
      }
      var mse := num.mse(predicted.value);
      ScoresStep(models, num, k);
      TracksStep(models, scores, best, bestMse, mse);
      if bestMse.None? || mse < bestMse.value {
        best := Some(models[k]);
        bestMse := Some(mse);
      }
      scores := scores + [mse];
    }
    assert models[..|models|] == models;
    return Ok(best);
  }

  // ---------------------------------------------------------------------------
  // The training run

  /** The database writes of the run, as far as they commit. */
  datatype Write = SavedDatasets(x: seq<InputData>, y: seq<real>) | UpsertedModel(model: ForecastModel)

  /** The database as the run writes to it: each write reports its failure, if any. */
  datatype Store = Store(
    saveDatasets: (seq<InputData>, seq<real>) -> Option<MyError>,
    upsert: ForecastModel -> Option<MyError>)

  /**
   * The entry point's `training`. `fetched` is the rate history of the
   * configured window and `existing` the stored model lookup.
   */
  method Run(config: Config, fetched: Result<seq<real>, MyError>, existing: Result<Option<ForecastModel>, MyError>,
             store: Store, num: BatchNumerics)
    returns (r: Result<(), MyError>, writes: seq<Write>)
    requires config.forecastInputSize >= 1
    // a failing load writes nothing
    ensures fetched.Err? ==> r == Err(fetched.error) && writes == []
    ensures fetched.Ok? ==>
      var size, om := config.forecastInputSize, config.forecastOffsetMinutes;
      var offs := Samples.SampleOffsets(fetched.value, size, om, EVERY_OFFSET);
      var x, y := Samples.WindowsAt(fetched.value, size, om, offs), Samples.TruthsAt(fetched.value, size, om, offs);
      var cands := Candidates(config, existing, num);
      // too little data: quiet success, nothing written
      (|x| < config.trainingDataRequiredCount ==> r == Ok(()) && writes == []) &&
      (|x| >= config.trainingDataRequiredCount ==>
        // the data sets are saved before anything else
        (store.saveDatasets(x, y).Some? ==> r == Err(store.saveDatasets(x, y).value) && writes == []) &&
        (store.saveDatasets(x, y).None? ==>
          |writes| >= 1 && writes[0] == SavedDatasets(x, y) &&
          (cands.Err? ==> r == Err(cands.error) && writes == [SavedDatasets(x, y)]) &&
          (cands.Ok? ==>
            var scores := Scores(cands.value, num);
            (scores.Err? ==> r == Err(scores.error) && writes == [SavedDatasets(x, y)]) &&
            // no candidate at all: success without an upsert
            (scores.Ok? && |cands.value| == 0 ==> r == Ok(()) && writes == [SavedDatasets(x, y)]) &&
            (scores.Ok? && |cands.value| > 0 ==>
              var best := cands.value[FirstMinIndex(scores.value)];
              (store.upsert(best).Some? ==> r == Err(store.upsert(best).value) && writes == [SavedDatasets(x, y)]) &&
              (store.upsert(best).None? ==> r == Ok(()) && writes == [SavedDatasets(x, y), UpsertedModel(best)])))))
  {
    writes := [];
    var loaded := LoadData(config, fetched);
    if loaded.Err? {
      return Err(loaded.error), writes;
    }
    var (x, y) := loaded.value;
    if |x| < config.trainingDataRequiredCount {
      return Ok(()), writes;
    }
    var saved := store.saveDatasets(x, y);
    if saved.Some? {
      return Err(saved.value), writes;
    }
    writes := writes + [SavedDatasets(x, y)];
    var cands := CollectCandidates(config, existing, num);
    if cands.Err? {
      return Err(cands.error), writes;
    }
    var best := SelectBest(cands.value, num);
    if best.Err? {
      return Err(best.error), writes;
    }
    if best.value.None? {
      return Ok(()), writes;
    }
    var upserted := store.upsert(best.value.value);
    if upserted.Some? {
      return Err(upserted.value), writes;
    }
    writes := writes + [UpsertedModel(best.value.value)];
    return Ok(()), writes;
  }
}
