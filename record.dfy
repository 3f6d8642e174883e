/**
 * The stored form of a forecast model: a database row whose `model_type`
 * byte names the regression family. Writing a model encodes its family as
 * that byte; reading decodes the byte back, rejecting unknown values, and
 * deserialises the model bytes.
 */
module Record {
  import opened Common

  /** An unsigned byte, the column type of `model_type`. */
  newtype u8 = x: int | 0 <= x < 0x100

  const MODEL_TYPE_RANDOM_FOREST: u8 := 0
  const MODEL_TYPE_KNN: u8 := 1
  const MODEL_TYPE_LINEAR: u8 := 2
  const MODEL_TYPE_RIDGE: u8 := 3
  const MODEL_TYPE_LASSO: u8 := 4
  const MODEL_TYPE_ELASTIC_NET: u8 := 5
  const MODEL_TYPE_LOGISTIC: u8 := 6
  const MODEL_TYPE_SVR: u8 := 7

  /** A timestamp without time zone. */
  datatype DateTime = DateTime(year: int, month: nat, day: nat, hour: nat, minute: nat, second: nat)

  /** The placeholder timestamp a new record carries until the database sets its own. */
  const PLACEHOLDER_TIME := DateTime(2022, 1, 1, 0, 0, 0)

  datatype ForecastModelRecord = ForecastModelRecord(
    pair: string,
    modelNo: int,
    modelType: u8,
    modelData: seq<bv8>,
    memo: string,
    createdAt: DateTime,
    updatedAt: DateTime)

  /** The byte the store writes for a family. */
  function TypeTag(f: ModelFamily): (t: u8)
    ensures t <= MODEL_TYPE_SVR
    ensures DecodeTag(t) == Some(f)
  {
    match f
    case RandomForest => MODEL_TYPE_RANDOM_FOREST
    case KNN => MODEL_TYPE_KNN
    case Linear => MODEL_TYPE_LINEAR
    case Ridge => MODEL_TYPE_RIDGE
    case LASSO => MODEL_TYPE_LASSO
    case ElasticNet => MODEL_TYPE_ELASTIC_NET
    case Logistic => MODEL_TYPE_LOGISTIC
    case SVR => MODEL_TYPE_SVR
  }

  /** The family a stored byte names, if any. */
  function DecodeTag(t: u8): (f: Option<ModelFamily>)
    ensures f.Some? <==> t <= MODEL_TYPE_SVR
  {
    if t == MODEL_TYPE_RANDOM_FOREST then Some(RandomForest)
    else if t == MODEL_TYPE_KNN then Some(KNN)
    else if t == MODEL_TYPE_LINEAR then Some(Linear)
    else if t == MODEL_TYPE_RIDGE then Some(Ridge)
    else if t == MODEL_TYPE_LASSO then Some(LASSO)
    else if t == MODEL_TYPE_ELASTIC_NET then Some(ElasticNet)
    else if t == MODEL_TYPE_LOGISTIC then Some(Logistic)
    else if t == MODEL_TYPE_SVR then Some(SVR)
    else None
  }

  /** Decoding a known byte and encoding the family gives the byte back. */
  lemma DecodeTagInverse(t: u8)
    requires t <= MODEL_TYPE_SVR
    ensures DecodeTag(t).Some? && TypeTag(DecodeTag(t).value) == t
  {
    if t == 0 {
    } else if t == 1 {
    } else if t == 2 {
    } else if t == 3 {
    } else if t == 4 {
    } else if t == 5 {
    } else if t == 6 {
    } else {
      assert t == 7;
    }
  }

  /** Distinct families are stored under distinct bytes. */
  lemma TypeTagInjective(f: ModelFamily, g: ModelFamily)
    requires TypeTag(f) == TypeTag(g)
    ensures f == g
  {
    assert DecodeTag(TypeTag(f)) == Some(f);
  }

  /** A new record: the given fields and the placeholder timestamps. */
  function NewRecord(pair: string, modelNo: int, modelType: u8, modelData: seq<bv8>, memo: string)
    : (r: Result<ForecastModelRecord, MyError>)
    ensures r.Ok?
    ensures r.value.pair == pair && r.value.modelNo == modelNo && r.value.modelType == modelType
    ensures r.value.modelData == modelData && r.value.memo == memo
    ensures r.value.createdAt == r.value.updatedAt == DateTime(2022, 1, 1, 0, 0, 0)
  {
    Ok(ForecastModelRecord(pair, modelNo, modelType, modelData, memo, PLACEHOLDER_TIME, PLACEHOLDER_TIME))
  }

  /**
   * The domain model a record describes. An unknown byte is an error naming
   * it; the model bytes are deserialised for the family the byte names, and a
   * failure there is returned as is. The stored form read here carries no
   * input size, feature parameters or performance.
   */
  function ToDomain(rec: ForecastModelRecord, deserialize: (ModelFamily, seq<bv8>) -> Result<FittedModel, MyError>)
    : (r: Result<ForecastModel, MyError>)
    ensures rec.modelType > MODEL_TYPE_SVR ==> r == Err(UnknownModelType(rec.modelType as nat))
    ensures rec.modelType <= MODEL_TYPE_SVR ==>
              var family := DecodeTag(rec.modelType).value;
              var fitted := deserialize(family, rec.modelData);
              (fitted.Err? ==> r == Err(fitted.error)) &&
              (fitted.Ok? ==> r.Ok? && r.value.model == fitted.value)
    ensures r.Ok? ==> TypeTag(r.value.family) == rec.modelType
    ensures r.Ok? ==> r.value.pair == rec.pair && r.value.no == rec.modelNo && r.value.memo == rec.memo
    ensures r.Ok? ==> r.value.inputDataSize.None? && r.value.featureParams.None? && r.value.performance.None?
  {
    match DecodeTag(rec.modelType)
    case None => Err(UnknownModelType(rec.modelType as nat))
    case Some(family) =>
      DecodeTagInverse(rec.modelType);
      match deserialize(family, rec.modelData)
      case Err(e) => Err(e)
      case Ok(fitted) => Ok(ForecastModel(family, rec.pair, rec.modelNo, fitted, None, None, None, rec.memo))
  }

  /**
   * Storing a model and reading it back keeps its family, pair, number, memo
   * and fitted model, provided the bytes deserialise to what was serialised.
   */
  lemma StoreRoundTrip(m: ForecastModel, data: seq<bv8>,
                       deserialize: (ModelFamily, seq<bv8>) -> Result<FittedModel, MyError>)
    requires deserialize(m.family, data) == Ok(m.model)
    ensures var rec := NewRecord(m.pair, m.no, TypeTag(m.family), data, m.memo).value;
            ToDomain(rec, deserialize)
            == Ok(m.(inputDataSize := None, featureParams := None, performance := None))
  {
    var rec := NewRecord(m.pair, m.no, TypeTag(m.family), data, m.memo).value;
    TypeTagInjective(ToDomain(rec, deserialize).value.family, m.family);
  }
}
