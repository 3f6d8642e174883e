/**
 * The model maker of the training batch: the guard on the amount of loaded
 * data, the construction of one model per regression family, the fixed-order
 * attempt at every family in which a failing family is only skipped, and the
 * reuse of a stored model.
 *
 * Fitting, feature extraction and performance measurement belong to numeric
 * libraries; they are the oracles of a `Numerics` value, each of which either
 * succeeds or fails.
 */
module Training {
  import opened Common
  import Samples

  const PERFORMANCE_MSE_DEFAULT: real := 1.0
  const PERFORMANCE_RMSE_DEFAULT: real := 1.0

  /** The hyperparameters a family is fitted with. */
  datatype FitSettings =
    | Defaults
    | EuclideanDistance
    | Penalty(alpha: real)
    | MixedPenalty(alpha: real, l1Ratio: real)
    | RbfKernel(gamma: real, c: real, eps: real)

  function SettingsFor(f: ModelFamily): FitSettings
  {
    match f
    case KNN => EuclideanDistance
    case Ridge => Penalty(0.5)
    case LASSO => Penalty(0.5)
    case ElasticNet => MixedPenalty(0.5, 0.5)
    case SVR => RbfKernel(0.5, 2000.0, 10.0)
    case _ => Defaults
  }

  /** The numeric collaborators: feature extraction, fitting and measuring. */
  datatype Numerics = Numerics(
    convert: (seq<InputData>, FeatureParams) -> Result<seq<FeatureData>, MyError>,
    fit: (ModelFamily, FitSettings, seq<FeatureData>, seq<real>) -> Result<FittedModel, MyError>,
    evaluate: (ForecastModel, seq<FeatureData>, seq<real>) -> Result<Performance, MyError>)

  /** Training and test features with their truth values. */
  datatype Features = Features(
    trainX: seq<FeatureData>, trainY: seq<real>,
    testX: seq<FeatureData>, testY: seq<real>)

  // ---------------------------------------------------------------------------
  // InputDataLoader::load_data

  /**
   * Loads the samples of the fetched rate history and refuses them when there
   * are fewer than `requiredCount`; a failed fetch is passed on.
   */
  method LoadData(config: Config, fetched: Result<seq<real>, MyError>, requiredCount: nat)
    returns (r: Result<(seq<InputData>, seq<real>), MyError>)
    requires config.forecastInputSize >= 1
    ensures fetched.Err? ==> r == Err(fetched.error)
    ensures fetched.Ok? ==>
              var rates := fetched.value;
              var offs := Samples.SampleOffsets(rates, config.forecastInputSize,
                                                config.forecastOffsetMinutes, Samples.OFFSET_STRIDE);
              (r.Ok? <==> |offs| >= requiredCount) &&
              (r.Err? ==> r.error == InputDataIsTooLittle(|offs|, requiredCount)) &&
              (r.Ok? ==>
                 r.value.0 == Samples.WindowsAt(rates, config.forecastInputSize, config.forecastOffsetMinutes, offs) &&
                 r.value.1 == Samples.TruthsAt(rates, config.forecastInputSize, config.forecastOffsetMinutes, offs))
  {
    if fetched.Err? {
      return Err(fetched.error);
    }
    var x, y := Samples.LoadInputData(fetched.value, config.forecastInputSize, config.forecastOffsetMinutes);
    var count := |x|;
    if count < requiredCount {
      return Err(InputDataIsTooLittle(count, requiredCount));
    }
    return Ok((x, y));
  }

  // ---------------------------------------------------------------------------
  // ModelMaker::make_* and make_new_models

  /** The metadata every model made for `family` carries. */
  predicate HasMetadata(m: ForecastModel, config: Config, modelNo: int, params: FeatureParams, family: ModelFamily)
  {
    m.family == family &&
    m.pair == config.currencyPair &&
    m.no == modelNo &&
    m.inputDataSize == Some(config.forecastInputSize) &&
    m.featureParams == Some(params) &&
    m.memo == FamilyName(family)
  }

  /**
   * The model a `make_*` function builds around a fitted model, before its
   * performance is measured: the batch's metadata and the default performance.
   */
  function Unmeasured(config: Config, modelNo: int, params: FeatureParams, family: ModelFamily,
                      fitted: FittedModel): (m: ForecastModel)
    ensures HasMetadata(m, config, modelNo, params, family)
    ensures m.model == fitted
    ensures m.performance == Some(Performance(PERFORMANCE_MSE_DEFAULT, PERFORMANCE_RMSE_DEFAULT))
  {
    ForecastModel(family, config.currencyPair, modelNo, fitted,
                  Some(config.forecastInputSize), Some(params),
                  Some(Performance(PERFORMANCE_MSE_DEFAULT, PERFORMANCE_RMSE_DEFAULT)),
                  FamilyName(family))
  }

  /**
   * A model of `family` fitted on the training features, with its
   * performance then measured on the test features. Failing to fit or to
   * measure fails the family.
   */
  function MakeModel(config: Config, modelNo: int, params: FeatureParams, family: ModelFamily,
                     data: Features, num: Numerics): (r: Result<ForecastModel, MyError>)
    ensures var fitted := num.fit(family, SettingsFor(family), data.trainX, data.trainY);
            fitted.Err? ==> r == Err(fitted.error)
    ensures var fitted := num.fit(family, SettingsFor(family), data.trainX, data.trainY);
            fitted.Ok? ==>
              var m := Unmeasured(config, modelNo, params, family, fitted.value);
              var measured := num.evaluate(m, data.testX, data.testY);
              (measured.Err? ==> r == Err(measured.error)) &&
              (measured.Ok? ==> r == Ok(m.(performance := Some(measured.value))))
    ensures r.Ok? ==>
              HasMetadata(r.value, config, modelNo, params, family) &&
              r.value.model == num.fit(family, SettingsFor(family), data.trainX, data.trainY).value
    ensures r.Ok? ==> r.value.performance.Some?
  {
    var fitted := num.fit(family, SettingsFor(family), data.trainX, data.trainY);
    if fitted.Err? then Err(fitted.error)
    else
      var m := Unmeasured(config, modelNo, params, family, fitted.value);
      var measured := num.evaluate(m, data.testX, data.testY);
      if measured.Err? then Err(measured.error)
      else Ok(m.(performance := Some(measured.value)))
  }

  /** The families the model maker tries, in the order it tries them. */
  const NEW_MODEL_ORDER: seq<ModelFamily> := [RandomForest, KNN, Linear, Ridge, LASSO, ElasticNet, SVR]

  /** Position of a family in NEW_MODEL_ORDER; Logistic is not in it. */
  function OrderIndex(f: ModelFamily): nat
  {
    match f
    case RandomForest => 0
    case KNN => 1
    case Linear => 2
    case Ridge => 3
    case LASSO => 4
    case ElasticNet => 5
    case SVR => 6
    case Logistic => 7
  }

  /** The model of an attempt that succeeded, or nothing for one that failed. */
  function Kept(made: Result<ForecastModel, MyError>): seq<ForecastModel>
  {
    if made.Ok? then [made.value] else []
  }

  /** The models of the successful attempts, in attempt order. */
  function Successes(attempts: seq<Result<ForecastModel, MyError>>): (ms: seq<ForecastModel>)
    ensures |ms| <= |attempts|
  {
    if |attempts| == 0 then []
    else Successes(attempts[..|attempts| - 1]) + Kept(attempts[|attempts| - 1])
  }

  /** One attempt at making a model per family, in the given order. */
  function Attempts(families: seq<ModelFamily>, config: Config, modelNo: int, params: FeatureParams,
                    data: Features, num: Numerics): (attempts: seq<Result<ForecastModel, MyError>>)
    ensures |attempts| == |families|
  {
    seq(|families|, i requires 0 <= i < |families| => MakeModel(config, modelNo, params, families[i], data, num))
  }

  /**
   * `make_new_models`: extracts the training and test features (either
   * failure aborts), then tries every family of NEW_MODEL_ORDER in turn,
   * keeping the models that were made and skipping the families that failed.
   * `make_new_models` spells the seven attempts out one after another; here they are
   * the iterations of one loop over NEW_MODEL_ORDER.
   */
  method MakeNewModels(config: Config, modelNo: int, params: FeatureParams,
                       trainX: seq<InputData>, trainY: seq<real>,
                       testX: seq<InputData>, testY: seq<real>, num: Numerics)
    returns (r: Result<seq<ForecastModel>, MyError>)
    ensures num.convert(trainX, params).Err? ==> r == Err(num.convert(trainX, params).error)
    ensures num.convert(trainX, params).Ok? && num.convert(testX, params).Err? ==>
              r == Err(num.convert(testX, params).error)
    ensures num.convert(trainX, params).Ok? && num.convert(testX, params).Ok? ==>
              var data := Features(num.convert(trainX, params).value, trainY,
                                   num.convert(testX, params).value, testY);
              r == Ok(Successes(Attempts(NEW_MODEL_ORDER, config, modelNo, params, data, num)))
  {
    var models: seq<ForecastModel> := [];

    var trainFeatures := num.convert(trainX, params);
    if trainFeatures.Err? {
      return Err(trainFeatures.error);
    }
    var testFeatures := num.convert(testX, params);
    if testFeatures.Err? {
      return Err(testFeatures.error);
    }
    var data := Features(trainFeatures.value, trainY, testFeatures.value, testY);

    ghost var attempts: seq<Result<ForecastModel, MyError>> := [];
    for k := 0 to |NEW_MODEL_ORDER|
      invariant attempts == Attempts(NEW_MODEL_ORDER[..k], config, modelNo, params, data, num)
      invariant models == Successes(attempts)
    {
      var made := MakeModel(config, modelNo, params, NEW_MODEL_ORDER[k], data, num);
      AttemptsSnoc(k, config, modelNo, params, data, num);
      SuccessesSnoc(attempts, made);
      models := PushIfMade(models, made);
      attempts := attempts + [made];
    }
    assert NEW_MODEL_ORDER[..|NEW_MODEL_ORDER|] == NEW_MODEL_ORDER;
    return Ok(models);
  }

  /** Keeps a model that was made; a family that failed is skipped. */
  method PushIfMade(models: seq<ForecastModel>, made: Result<ForecastModel, MyError>)
    returns (models': seq<ForecastModel>)
    ensures models' == models + Kept(made)
  {
    match made {
      case Ok(m) => models' := models + [m];
      case Err(_) => models' := models;
    }
  }

  lemma SuccessesSnoc(attempts: seq<Result<ForecastModel, MyError>>, a: Result<ForecastModel, MyError>)
    ensures Successes(attempts + [a]) == Successes(attempts) + Kept(a)
  {
    assert (attempts + [a])[..|attempts|] == attempts;
  }

  /** Whether some model of `ms` belongs to family f. */
  predicate HasFamily(ms: seq<ForecastModel>, f: ModelFamily)
  {
    exists m :: m in ms && m.family == f
  }

  lemma OrderIndexLocates(f: ModelFamily, k: nat)
    requires k < |NEW_MODEL_ORDER|
    ensures OrderIndex(NEW_MODEL_ORDER[k]) == k
    ensures OrderIndex(f) == k ==> f == NEW_MODEL_ORDER[k]
  {
  }

  lemma AttemptsSnoc(k: nat, config: Config, modelNo: int, params: FeatureParams, data: Features, num: Numerics)
    requires k < |NEW_MODEL_ORDER|
    ensures Attempts(NEW_MODEL_ORDER[..k + 1], config, modelNo, params, data, num)
         == Attempts(NEW_MODEL_ORDER[..k], config, modelNo, params, data, num)
            + [MakeModel(config, modelNo, params, NEW_MODEL_ORDER[k], data, num)]
  {
  }

  /**
   * After the first k attempts: every kept model is exactly what the attempt
   * for its family produced, the families are among the first k, in order,
   * and a family among the first k is present exactly when its attempt succeeded.
   */
  lemma {:induction false} NewModelsPrefix(k: nat, config: Config, modelNo: int, params: FeatureParams,
                                           data: Features, num: Numerics)
    requires k <= |NEW_MODEL_ORDER|
    ensures var ms := Successes(Attempts(NEW_MODEL_ORDER[..k], config, modelNo, params, data, num));
            (forall m :: m in ms ==>
               OrderIndex(m.family) < k &&
               MakeModel(config, modelNo, params, m.family, data, num) == Ok(m)) &&
            (forall i, j :: 0 <= i < j < |ms| ==> OrderIndex(ms[i].family) < OrderIndex(ms[j].family)) &&
            (forall f :: OrderIndex(f) < k ==>
               (HasFamily(ms, f) <==> MakeModel(config, modelNo, params, f, data, num).Ok?))
  {
    if k > 0 {
      NewModelsPrefix(k - 1, config, modelNo, params, data, num);
      var before := Attempts(NEW_MODEL_ORDER[..k - 1], config, modelNo, params, data, num);
      var family := NEW_MODEL_ORDER[k - 1];
      var made := MakeModel(config, modelNo, params, family, data, num);
      AttemptsSnoc(k - 1, config, modelNo, params, data, num);
      SuccessesSnoc(before, made);
      var ms0 := Successes(before);
      var ms := ms0 + Kept(made);
      assert Successes(Attempts(NEW_MODEL_ORDER[..k], config, modelNo, params, data, num)) == ms;
      OrderIndexLocates(family, k - 1);
      if made.Ok? {
        assert made.value.family == family;
      }
      forall f | OrderIndex(f) < k
        ensures HasFamily(ms, f) <==> MakeModel(config, modelNo, params, f, data, num).Ok?
      {
        OrderIndexLocates(f, k - 1);
        if OrderIndex(f) == k - 1 {
          assert f == family;
          if made.Ok? {
            assert made.value in ms;
          }
          if HasFamily(ms, f) {
            var m :| m in ms && m.family == f;
            assert m !in ms0;
          }
        } else {
          if HasFamily(ms0, f) {
            var m :| m in ms0 && m.family == f;
            assert m in ms;
          }
          if HasFamily(ms, f) {
            var m :| m in ms && m.family == f;
            assert m in ms0;
          }
        }
      }
    }
  }

  /**
   * `make_new_models` yields at most one model per family of NEW_MODEL_ORDER,
   * never a Logistic one, in that order, each carrying the batch's metadata;
   * a family is present exactly when making its model succeeded, whatever
   * happened to the other families.
   */
  lemma NewModelsShape(config: Config, modelNo: int, params: FeatureParams, data: Features, num: Numerics)
    ensures var ms := Successes(Attempts(NEW_MODEL_ORDER, config, modelNo, params, data, num));
            |ms| <= 7 &&
            (forall m :: m in ms ==> m.family != Logistic && HasMetadata(m, config, modelNo, params, m.family)) &&
            (forall i, j :: 0 <= i < j < |ms| ==> OrderIndex(ms[i].family) < OrderIndex(ms[j].family)) &&
            (forall f :: f in NEW_MODEL_ORDER ==>
               (HasFamily(ms, f) <==> MakeModel(config, modelNo, params, f, data, num).Ok?))
  {
    var ms := Successes(Attempts(NEW_MODEL_ORDER, config, modelNo, params, data, num));
    NewModelsPrefix(7, config, modelNo, params, data, num);
    assert NEW_MODEL_ORDER[..7] == NEW_MODEL_ORDER;
    forall m | m in ms
      ensures m.family != Logistic && HasMetadata(m, config, modelNo, params, m.family)
    {
      assert MakeModel(config, modelNo, params, m.family, data, num) == Ok(m);
    }
    forall f | f in NEW_MODEL_ORDER
      ensures OrderIndex(f) < 7
    {
    }
  }

  // ---------------------------------------------------------------------------
  // ModelMaker::load_existing_model

  /** The performance of a stored model re-measured on the test data. */
  function Remeasure(m: ForecastModel, testX: seq<InputData>, testY: seq<real>, num: Numerics)
    : (r: Result<Performance, MyError>)
    ensures m.featureParams.None? ==> r == Err(MissingField("feature_params"))
    ensures m.featureParams.Some? && num.convert(testX, m.featureParams.value).Err? ==>
              r == Err(num.convert(testX, m.featureParams.value).error)
    ensures m.featureParams.Some? && num.convert(testX, m.featureParams.value).Ok? ==>
              r == num.evaluate(m, num.convert(testX, m.featureParams.value).value, testY)
  {
    match m.featureParams
    case None => Err(MissingField("feature_params"))
    case Some(params) =>
      var features := num.convert(testX, params);
      if features.Err? then Err(features.error)
      else num.evaluate(m, features.value, testY)
  }

  /**
   * `load_existing_model`: a stored model is reused only when it was trained
   * for the configured input size, and then with its performance re-measured
   * on the test data. A failed lookup, a model without an input size and a
   * failed re-measurement are errors.
   */
  function LoadExistingModel(config: Config, selected: Result<Option<ForecastModel>, MyError>,
                             testX: seq<InputData>, testY: seq<real>, num: Numerics)
    : (r: Result<Option<ForecastModel>, MyError>)
    ensures selected.Err? ==> r == Err(selected.error)
    ensures r == Ok(None) <==>
              selected == Ok(None) ||
              (selected.Ok? && selected.value.Some? &&
               selected.value.value.inputDataSize.Some? &&
               selected.value.value.inputDataSize.value != config.forecastInputSize)
    ensures r.Ok? && r.value.Some? ==>
              selected.Ok? && selected.value.Some? &&
              var m := selected.value.value;
              m.inputDataSize == Some(config.forecastInputSize) &&
              Remeasure(m, testX, testY, num).Ok? &&
              r.value.value == m.(performance := Some(Remeasure(m, testX, testY, num).value))
    ensures selected.Ok? && r.Err? ==>
              var m := selected.value.value;
              selected.value.Some? &&
              (m.inputDataSize.None? ==> r.error == MissingField("input_data_size")) &&
              (m.inputDataSize.Some? ==> Remeasure(m, testX, testY, num) == Err(r.error))
  {
    match selected
    case Err(e) => Err(e)
    case Ok(None) => Ok(None)
    case Ok(Some(m)) =>
      match m.inputDataSize
      case None => Err(MissingField("input_data_size"))
      case Some(size) =>
        if size == config.forecastInputSize then
          var p := Remeasure(m, testX, testY, num);
          if p.Err? then Err(p.error) else Ok(Some(m.(performance := Some(p.value))))
        else Ok(None)
  }
}
