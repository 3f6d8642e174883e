/**
 * Types shared by the training batch and the model store: the error and
 * result wrappers, the decoded feature-extraction parameters, the regression
 * families and the opaque fitted model handed back by the numeric library.
 */
module Common {

  datatype Option<+T> = None | Some(value: T)

  datatype Result<+T, +E> = Ok(value: T) | Err(error: E)

  /** The batch's error kinds (common-lib's MyError, plus the kinds the batch raises). */
  datatype MyError =
    | ParseError(paramName: string, text: string, memo: string)
    | UnknownModelType(value: nat)
    | UnsupportedModelTypeEnum(name: string)
    | UnmatchFeatureParamsHash(pair: string, modelNo: int)
    | InputDataIsTooLittle(count: nat, require: nat)
    | ArrayIsEmpty(name: string)
    // a model that lacks a field an accessor asked for
    | MissingField(name: string)
    // a failure reported by a collaborator that is not modelled
    // (database, regression library, feature conversion)
    | External(reason: string)

  /** The part of the training batch's configuration the modelled code reads. */
  datatype Config = Config(
    currencyPair: string,
    forecastInputSize: nat,
    forecastOffsetMinutes: nat,
    trainingCount: nat,
    trainingDataRequiredCount: nat,
    forecastModelNo: int)

  /** Decoded feature-extraction hyperparameters. */
  datatype FeatureParams = FeatureParams(
    featureSize: nat,
    fastPeriod: nat,
    slowPeriod: nat,
    signalPeriod: nat,
    bbPeriod: nat)

  /** The regression families a forecast model can belong to. */
  datatype ModelFamily =
    | RandomForest | KNN | Linear | Ridge | LASSO | ElasticNet | Logistic | SVR

  /** The family name the batch writes into a model's memo. */
  function FamilyName(f: ModelFamily): (name: string)
    ensures |name| > 0
  {
    match f
    case RandomForest => "RandomForest"
    case KNN => "KNN"
    case Linear => "Linear"
    case Ridge => "Ridge"
    case LASSO => "LASSO"
    case ElasticNet => "ElasticNet"
    case Logistic => "Logistic"
    case SVR => "SVR"
  }

  /** Distinct families carry distinct names, so a memo identifies its family. */
  lemma FamilyNameInjective(f: ModelFamily, g: ModelFamily)
    requires FamilyName(f) == FamilyName(g)
    ensures f == g
  {
  }

  /** A fitted regressor, seen only through its serialised bytes. */
  datatype FittedModel = FittedModel(data: seq<bv8>)

  /** One input window of rates. */
  type InputData = seq<real>

  /** Features extracted from one input window. */
  type FeatureData = seq<real>

  /** Mean squared error and its square root on the test data. */
  datatype Performance = Performance(mse: real, rmse: real)

  /**
   * A forecast model of one family. The batch's models carry the input size
   * they were trained for; the newer revision also carries the feature
   * parameters and a measured performance. A model rebuilt from a stored
   * record carries neither.
   */
  datatype ForecastModel = ForecastModel(
    family: ModelFamily,
    pair: string,
    no: int,
    model: FittedModel,
    inputDataSize: Option<nat>,
    featureParams: Option<FeatureParams>,
    performance: Option<Performance>,
    memo: string)
}
