# bin-option-rust: training batch, model store and query-parameter codecs

This project models, in Dafny, the part of the bin-option-rust system that decides what gets
trained and stored, together with the text forms its HTTP models use:

- **Genetic-algorithm operators** of the training batch (`Ga`). A gene is a vector of unsigned
  integers that decodes to feature-extraction parameters. The operators are random genes,
  one-slot mutation, two-bit crossover with clamping, the component-wise integer average of a
  population, squared-distance similarity, and roulette and uniform selection. Every random draw
  is a parameter. `Gene` is a class whose `values` field `Mutation` and `Crossover` update in place.
- **Sample windowing and splitting** (`Samples`). An ordered rate history becomes
  `(window, truth)` samples: every fifth offset, stopping at the first offset without a truth
  value, skipping "flat" windows. The samples are then split into train and test halves by one
  draw per sample.
- **The model maker** (`Training`). It guards against too little data, makes one model per
  regression family in a fixed order (a failing family is skipped), and reuses a stored model
  only when it was trained for the configured input size.
- **The older training run of the batch's entry point** (`Batch`). It loads every window,
  collects the candidates (the stored model, then `training_count` fits of each family, where any
  failure aborts), picks the first candidate with the smallest mean squared error and upserts it.
  Its writes are returned as a log.
- **The stored form of a model** (`Record`). The `model_type` byte is encoded per family and
  decoded back, and unknown bytes are rejected.
- **The query-parameter codecs** of the generated API models (`QueryParams`, `ApiModels`,
  `ForecastModels`, `GatewayModels`). `to_string` joins `key,value` tokens with `,`. `from_str`
  splits at `,` and walks the tokens in pairs; its errors are "missing value", "unexpected key",
  "field missing" and the value parser's own message. A repeated key keeps its first value. The
  64-bit integer text form follows the standard library's `i64` printing and parsing, including
  its four error kinds and messages.

The fitting library, feature conversion, performance measurement, prediction and mean squared
error are oracles: function-valued fields of `Training.Numerics` and `Batch.BatchNumerics`. Each
one either succeeds or fails. The database is modelled in three ways:

- the fetched rate history and the stored-model lookup are inputs;
- the writes are `Batch.Store` oracles;
- bincode deserialisation is a parameter of `Record.ToDomain`.

`usize` is `nat`, `u8` is a newtype, `i64` is a subset type, and `f64` values are `real`.

Where the older entry point (`training-batch/src/main.rs`) and the newer model maker
(`training-batch/src/training.rs`) disagree, both are modelled as written:

- a failing fit aborts the whole older run, but the newer maker only skips that family;
- the older loader takes every offset, the newer one every fifth.

The shared `ForecastModel` carries the union of the two revisions' fields, as `Option`s.

## Model

| member | source | states |
|---|---|---|
| Common.FamilyName | training-batch/src/training.rs:261-448 | the memo each family's model carries (lines 261, 292, 319, 350, 381, 414 and 448) is a non-empty name |
| Common.FamilyNameInjective | training-batch/src/training.rs:261-448 | distinct families have distinct memo names (lines 261, 292, 319, 350, 381, 414 and 448) |
| Ga.RoundForFeatureSize | training-batch/src/ga.rs:73-75 | the result lies in [1, 10) and is congruent to the input modulo 9 |
| Ga.ToFeatureParams | training-batch/src/ga.rs:43-51 | the feature size lies in [1, 9]; slow - fast is component 2; so slow >= fast + 2 whenever component 2 is at least 2 |
| Ga.NewValues | training-batch/src/ga.rs:21-29 | `Gene::new` builds five components |
| Ga.NewThenDecode | training-batch/src/ga.rs:21-51 | encoding then decoding keeps every period; the feature size f comes back as f % 9 + 1, i.e. f + 1 when f < 9 |
| Ga.DecodeThenNew | training-batch/src/ga.rs:21-51 | decoding then encoding gives back every component but the first, which comes back wrapped |
| Ga.GenValueRandom | training-batch/src/ga.rs:77-80 | a fresh value lies in [2, forecast_input_size / 3]; a draw already in range is taken as is |
| Ga.GenIndexRandom | training-batch/src/ga.rs:59-62 | an index drawn for a gene is below its length |
| Ga.NewRandomValues | training-batch/src/ga.rs:31-41 | a random gene has length 5, component 0 in [1, 9] and the others in [2, forecast_input_size / 3] |
| Ga.RandomGeneDecodes | training-batch/src/ga.rs:31-51 | a random gene decodes to slow >= fast + 2, with the fast period and feature size in range |
| Ga.SelectGeneIndexRandom | training-batch/src/ga.rs:82-85 | the selected index is below the population size |
| Ga.MutatedValues | training-batch/src/ga.rs:53-57 | mutation keeps the length and every component but the drawn one, which gets a value in [2, forecast_input_size / 3] |
| Ga.MutationChangesAtMostOne | training-batch/src/ga.rs:53-57 | at most one component differs after a mutation |
| Ga.Gene.New | training-batch/src/ga.rs:21-29 | the new gene holds the encoded parameters |
| Ga.Gene.NewRandomGene | training-batch/src/ga.rs:31-41 | the new gene holds the five drawn components |
| Ga.Gene.Mutation | training-batch/src/ga.rs:53-57 | the gene's components become the mutated components of the old ones |
| Ga.SwapMaskedBitsSpec | training-batch/src/ga.rs:113-120 | `(v & !mask) \| (w & mask)` carries w's two masked bits and keeps all other bits of v |
| Ga.SwapMaskedBitsPreservesSum | training-batch/src/ga.rs:113-120 | exchanging the masked bits moves value between the two components without creating any |
| Ga.Clamp | training-batch/src/ga.rs:117-122 | `max(min(x, max), 2)` is at least 2, at most max when max >= 2, and x when x is already in range |
| Ga.CrossedValues | training-batch/src/ga.rs:109-124 | crossover changes only the drawn index in both genes, and both new values are at least 2 (at most max when max >= 2) |
| Ga.CrossoverExchangesMaskedBits | training-batch/src/ga.rs:109-124 | when the clamp does nothing, the two chosen components have traded exactly their masked bits |
| Ga.Gene.Crossover | training-batch/src/ga.rs:109-124 | both genes' components become the crossed components of the old ones |
| Ga.AverageValues | training-batch/src/ga.rs:133-141 | the average has one entry per gene of the population; entry i is the floor of column sum i over the population size |
| Ga.AverageOfIdentical | training-batch/src/ga.rs:126-143 | the average of identical genes is that gene followed by zeros |
| Ga.MakeAverageGene | training-batch/src/ga.rs:126-143 | fails with ArrayIsEmpty("genes") exactly on an empty population, otherwise returns the integer averages |
| Ga.SquaredDistanceZeroIff | training-batch/src/ga.rs:64-71 | the squared distance is zero iff the gene equals the other gene's prefix |
| Ga.SquaredDistanceSymmetric | training-batch/src/ga.rs:64-71 | for equally long genes the distance does not depend on the argument order |
| Ga.Gene.CalcSimilarity | training-batch/src/ga.rs:64-71 | the loop sums the squared component differences, and the sum is zero iff the genes agree |
| Ga.CalcSimilarityAverage | training-batch/src/ga.rs:145-150 | fails exactly on an empty population, otherwise gives each gene's squared distance to the average gene |
| Ga.DiversityZeroIffIdentical | training-batch/src/ga.rs:126-150 | every distance to the average is zero iff all genes of the population are equal |
| Ga.SelectIndexRoulette | training-batch/src/ga.rs:87-107 | returns the first index whose running sum of w / Σ(1 - w) reaches the border, and 0 when none does |
| Samples.TruthIndex | training-batch/src/util.rs:40-41 | the truth value lies at or after the window's last rate |
| Samples.SameCount | training-batch/src/util.rs:46-55 | the repeated-position count is at most the window length |
| Samples.SampleOffsetsFrom | training-batch/src/util.rs:34-60 | the sample offsets strictly increase and each has its truth value inside the history |
| Samples.SampleOffsetsFromComplete | training-batch/src/util.rs:34-60 | from a starting offset on, an offset yields a sample iff it is on the stride, its truth exists and its window is not flat |
| Samples.SampleOffsetsComplete | training-batch/src/util.rs:34-60 | an offset yields a sample iff it is on the stride, its truth exists and its window is not flat; nothing past the first missing truth contributes |
| Samples.WindowsAt | training-batch/src/util.rs:46-62 | one window per sample offset |
| Samples.TruthsAt | training-batch/src/util.rs:40-63 | one truth value per sample offset |
| Samples.TakeWindow | training-batch/src/util.rs:46-55 | the inner loop copies `rates[offset..offset+size]` and counts positions equal to their predecessor (0.0 before the first) |
| Samples.LoadInputData | training-batch/src/util.rs:34-64 | x and y are exactly the windows and truths of the sample offsets, in increasing order, so \|x\| = \|y\| |
| Samples.IndexesWhere | training-batch/src/util.rs:79-83 | every selected index is below the bound, in strictly increasing order |
| Samples.IndexesWhereMembers | training-batch/src/util.rs:79-83 | an index is selected iff its draw is at most the test ratio (test half) or above it (train half) |
| Samples.IndexesPartition | training-batch/src/util.rs:79-97 | the two halves' sizes add up to the number of samples |
| Samples.TrainTestSplit | training-batch/src/util.rs:71-100 | each half is x and y gathered at that half's indices, so order and x/y pairing are kept |
| Samples.SplitSizes | training-batch/src/util.rs:79-97 | every sample lands in exactly one half |
| Training.LoadData | training-batch/src/training.rs:55-71 | a failed fetch is passed on; fails with InputDataIsTooLittle{count, require} exactly when fewer samples than required load; otherwise returns the samples unchanged |
| Training.Unmeasured | training-batch/src/training.rs:243-262 | the model literal of every `make_*` function carries the batch's metadata, the fitted model and the default performance |
| Training.MakeModel | training-batch/src/training.rs:243-453 | a fit failure is the family's error; after a successful fit, a failed measurement is the family's error and a successful one makes the unmeasured model with the measured performance; a made model carries the configured pair, number, input size, the feature parameters and the family name |
| Training.Successes | training-batch/src/training.rs:130-137 | no more models than attempts |
| Training.PushIfMade | training-batch/src/training.rs:130-137 | a made model is appended and a failed family leaves the list unchanged |
| Training.MakeNewModels | training-batch/src/training.rs:111-241 | a conversion failure of the train or test inputs aborts before any family; otherwise the result is the successful attempts, in the order of the seven families |
| Training.NewModelsPrefix | training-batch/src/training.rs:121-238 | after any number of attempts, the kept models are exactly the successful attempts, in attempt order |
| Training.NewModelsShape | training-batch/src/training.rs:111-241 | at most 7 models, never Logistic, in the fixed family order, each with the batch's metadata; a family is present iff its own attempt succeeded |
| Training.Remeasure | training-batch/src/training.rs:96-97 | a model without feature parameters, or whose test conversion fails, cannot be re-measured; otherwise the result is the measurement of the model on the converted test data |
| Training.LoadExistingModel | training-batch/src/training.rs:87-109 | None iff no stored model or a different input size; otherwise the stored model with its re-measured performance; lookup, missing-size and re-measure failures are errors |
| Batch.LoadData | training-batch/src/main.rs:282-333 | a failed fetch is passed on; otherwise the windows and truths of every offset (no stride) |
| Batch.ScanEveryOffset | training-batch/src/main.rs:302-328 | the loop yields exactly the windows and truths of the qualifying offsets; the even-count adjustment never fires |
| Batch.EveryOffsetComplete | training-batch/src/main.rs:302-328 | without a stride an offset yields a sample iff its truth exists and its window is not flat |
| Batch.BatchModel | training-batch/src/main.rs:111-117 | a model fitted by the entry point carries the family, the fitted model, the configured pair, number and input size and the family's memo, with no feature parameters and no performance (the same literal recurs for each family down to main.rs:239) |
| Batch.FamilyCandidates | training-batch/src/main.rs:108-119 | a family's fits succeed iff each of attempts 1..training_count does; then attempt k gives the k-th model, with the batch metadata |
| Batch.FamilyCandidatesErrSticks | training-batch/src/main.rs:108-119 | after a failing fit, further attempts do not change the outcome |
| Batch.TrainFamily | training-batch/src/main.rs:108-119 | one family's loop returns the first fit error or all `training_count` models |
| Batch.Chain | training-batch/src/main.rs:108-239 | the families' runs succeed together iff every run succeeds |
| Batch.ChainErrSticks | training-batch/src/main.rs:108-239 | once a family has failed, the later families do not change the error |
| Batch.FamilyRuns | training-batch/src/main.rs:108-239 | one run per family of the fixed order |
| Batch.ExistingCandidate | training-batch/src/main.rs:96-107 | a lookup error is passed on; the stored model becomes the only candidate iff its input size matches the configured one; there is no candidate and no error iff there is no stored model or its size differs; a stored model without a size fails with the missing `input_data_size` error |
| Batch.CollectCandidates | training-batch/src/main.rs:96-239 | the stored model, if reusable, then every family's models in the fixed order; the first failure aborts |
| Batch.TrainedCandidates | training-batch/src/main.rs:108-239 | every trained candidate is a batch model of one of the seven families, so never Logistic |
| Batch.TrainedLayout | training-batch/src/main.rs:108-239 | with every fit succeeding, each family's run yields training_count models, the chained runs succeed with their concatenation in the fixed family order, and that holds 7 * training_count candidates |
| Batch.ChainConcat | training-batch/src/main.rs:108-239 | chaining family runs that all succeed yields their concatenation, in order |
| Batch.ConcatLength | training-batch/src/main.rs:108-239 | runs of n models each concatenate to (number of runs) * n models |
| Batch.CandidatesOk | training-batch/src/main.rs:96-239 | the candidates exist iff the stored model loads and every fit of every family succeeds |
| Batch.FirstMinIndex | training-batch/src/main.rs:241-253 | the index of a smallest score, strictly smaller than every earlier score, so the earlier candidate wins ties |
| Batch.Scores | training-batch/src/main.rs:243-246 | scoring succeeds iff every prediction does; then score k is the MSE of candidate k's prediction |
| Batch.ScoresErrSticks | training-batch/src/main.rs:243-246 | after a failing prediction, scoring further candidates does not change the outcome |
| Batch.SelectBest | training-batch/src/main.rs:241-260 | a prediction error aborts; no candidates gives None; otherwise the first candidate with the minimal MSE |
| Batch.Run | training-batch/src/main.rs:78-280 | too little data gives Ok with no write; the data sets are saved first; candidate and scoring errors abort after the save; no candidate gives Ok; otherwise exactly one upsert, of the first minimal-MSE candidate |
| Record.TypeTag | common-lib/src/mysql/client.rs:297-458 | the byte written for a family is a known tag and decodes back to that family |
| Record.DecodeTag | common-lib/src/mysql/model.rs:44-111 | a byte names a family iff it is at most 7 |
| Record.DecodeTagInverse | common-lib/src/mysql/model.rs:8-15 | decoding a known byte and encoding the family gives the byte back |
| Record.TypeTagInjective | common-lib/src/mysql/model.rs:8-15 | the tag constants are pairwise distinct |
| Record.NewRecord | common-lib/src/mysql/model.rs:30-41 | copies its arguments and sets created_at = updated_at = 2022-01-01 00:00:00 |
| Record.ToDomain | common-lib/src/mysql/model.rs:43-113 | a tag above 7 gives UnknownModelType{value: tag}; a deserialisation error is passed on; otherwise pair, number and memo are copied and the family is the tag's |
| Record.StoreRoundTrip | common-lib/src/mysql/model.rs:30-113 | writing a model's record and reading it back keeps its family, pair, number, memo and fitted model |
| QueryParams.Split | forecast-server-lib/src/models.rs:55 | at least one piece, none containing a comma, and joining them gives the input back |
| QueryParams.JoinTwo | forecast-server-lib/src/models.rs:35 | two pieces join around one comma |
| QueryParams.SplitJoin | forecast-server-lib/src/models.rs:35-55 | splitting joined comma-free pieces gives the pieces back |
| QueryParams.Scan | forecast-server-lib/src/models.rs:55-73 | on success there is one entry per key/value pair, each the one the type accepted for that pair |
| QueryParams.ScanFailsAt | forecast-server-lib/src/models.rs:55-73 | behind m accepted pairs, a lone last key fails with the missing-value message and a rejected pair fails with the type's message for it |
| QueryParams.ScanErrCases | forecast-server-lib/src/models.rs:55-73 | every failed scan is one of those: behind some number of accepted pairs, a lone last key or a rejected pair whose message is the error |
| QueryParams.PairsTakenCons | forecast-server-lib/src/models.rs:55-73 | the accepted pairs of the input after its accepted first pair are the later accepted pairs of the whole |
| QueryParams.NotFoundWithoutKey | forecast-server-lib/src/models.rs:55-77 | when the only key yielding a field occurs at no key position, a successful scan does not find the field |
| QueryParams.ScanAllRejected | forecast-server-lib/src/models.rs:55-73 | when the type rejects every comma-free pair, no input reads |
| QueryParams.ScanOnlyKey | forecast-server-lib/src/models.rs:55-73 | when a type takes only one key, every key of an input that reads is that key |
| QueryParams.FoundUnderKey | forecast-server-lib/src/models.rs:55-77 | a field found in an input that reads came from a pair under the only key that yields it |
| QueryParams.ScanTokens | forecast-server-lib/src/models.rs:55-73 | the reading loop computes exactly the scan |
| QueryParams.FirstOf | forecast-server-lib/src/models.rs:77 | None iff no entry is for the field; otherwise the earliest such entry's value |
| QueryParams.IntToString | forecast-server-lib/src/models.rs:276 | integer text has no comma and starts with '-' iff negative |
| QueryParams.Accumulate | forecast-server-lib/src/models.rs:318 | the accumulated value stays in the i64 range with the requested sign; its failures are never the empty-input kind |
| QueryParams.ParseI64 | forecast-server-lib/src/models.rs:318 | the empty-string error iff the input is empty; a leading '-' gives a value <= 0 |
| QueryParams.AccumulateDigits | forecast-server-lib/src/models.rs:276-318 | the digits of any in-range magnitude read back with the requested sign |
| QueryParams.IntRoundTrip | forecast-server-lib/src/models.rs:276-318 | every i64 survives printing and parsing |
| ApiModels.ErrorToString | forecast-server-lib/src/models.rs:28-37 | `message,<message>` |
| ApiModels.ErrorFromStr | forecast-server-lib/src/models.rs:42-80 | on success the first token is `message` and the message is the second token |
| ApiModels.ErrorRoundTrip | forecast-server-lib/src/models.rs:28-80 | an Error with a comma-free message reads back as itself |
| ApiModels.ErrorFirstWins | forecast-server-lib/src/models.rs:66-77 | with `message` repeated, the first value is kept |
| ApiModels.ErrorHandle | forecast-server-lib/src/models.rs:65-67 | a pair is taken iff its key is `message`, with the value as the message; any other key is unexpected |
| ApiModels.ErrorLoneKey | forecast-server-lib/src/models.rs:55-62 | a key left without a value behind any number of `message` pairs, the empty input included, fails with "Missing value while parsing Error" |
| ApiModels.ErrorUnexpectedKey | forecast-server-lib/src/models.rs:55-68 | a key other than `message` behind any number of `message` pairs fails with "Unexpected key while parsing Error" |
| ApiModels.RateToString | rate-gateway-lib/src/models.rs:263-280 | a Rate with neither field writes "" |
| ApiModels.RateToStringText | rate-gateway-lib/src/models.rs:263-280 | a Rate with fields writes `time,<time>` first and then `value,<value>`, leaving out a field that is None |
| ApiModels.RateHandle | rate-gateway-lib/src/models.rs:309-312 | a pair is taken iff its key is `time`, or `value` with float text; a bad value fails with the float parser's message and any other key is unexpected |
| ApiModels.RateFromStr | rate-gateway-lib/src/models.rs:285-326 | "" fails with "Missing value while parsing Rate" |
| ApiModels.RateRoundTrip | rate-gateway-lib/src/models.rs:263-326 | a Rate with at least one field, a comma-free time and a faithfully printed value reads back as itself |
| ApiModels.EmptyRateRejected | forecast-server-lib/src/models.rs:536-579 | the all-None Rate writes "" and "" does not read |
| ForecastModels.ForecastResponseToString | forecast-server-lib/src/models.rs:141-148 | the rate is skipped, so the text is "" |
| ForecastModels.ForecastResponseHandle | forecast-server-lib/src/models.rs:176-178 | a pair is taken iff its key is `rate` and its value reads as a Rate; a bad Rate fails with the Rate's message and any other key is unexpected |
| ForecastModels.ForecastResponseFromStr | forecast-server-lib/src/models.rs:153-191 | a successful read needs a successful scan of the tokens |
| ForecastModels.RateTokenRejected | forecast-server-lib/src/models.rs:177 | a single comma-free token never reads as a Rate |
| ForecastModels.ForecastResponseNeverParses | forecast-server-lib/src/models.rs:153-191 | no input reads as a forecast response, in particular not its own "" |
| ForecastModels.HistoriesResponseParams | forecast-server-lib/src/models.rs:265-286 | at least the `count` pair is written, and only the id or the expiry can contain a comma |
| ForecastModels.HistoriesResponseHandle | forecast-server-lib/src/models.rs:316-320 | a pair is taken iff its key is `historyId` or `expires`, or `count` with integer text; a bad count fails with the integer parser's message and any other key is unexpected |
| ForecastModels.HistoriesResponseFromStr | forecast-server-lib/src/models.rs:291-335 | a successful read found a `count` key |
| ForecastModels.HistoriesResponseRoundTrip | forecast-server-lib/src/models.rs:265-335 | a response with comma-free id and expiry reads back as itself, for every count |
| ForecastModels.HistoriesResponseNeedsCount | forecast-server-lib/src/models.rs:331 | any input whose pairs all read but which has no `count` key fails with "count missing in HistoriesPost201Response" |
| ForecastModels.RateTexts | forecast-server-lib/src/models.rs:416 | one text per rate |
| ForecastModels.HistoryToString | forecast-server-lib/src/models.rs:404-421 | a History with neither field writes "" |
| ForecastModels.HistoryHandle | forecast-server-lib/src/models.rs:450-453 | a pair is taken iff its key is `pair`; `rates` fails with the container message and any other key is unexpected |
| ForecastModels.HistoryFromStr | forecast-server-lib/src/models.rs:426-467 | on success the rates are absent and every key is `pair` |
| ForecastModels.HistoryKeys | forecast-server-lib/src/models.rs:426-467 | a History scan succeeds only when every key is `pair` |
| ForecastModels.HistoryRoundTrip | forecast-server-lib/src/models.rs:404-467 | a History with a comma-free pair and no rates reads back as itself |
| ForecastModels.HistoryRatesRejected | forecast-server-lib/src/models.rs:414-452 | a History with rates writes a `rates` key, which fails with the container-not-supported message |
| GatewayModels.PostSuccessToString | rate-gateway-lib/src/models.rs:142-151 | `count,<decimal count>` |
| GatewayModels.PostSuccessHandle | rate-gateway-lib/src/models.rs:179-181 | a pair is taken iff its key is `count` with integer text; a bad count fails with the integer parser's message and any other key is unexpected |
| GatewayModels.PostSuccessFromStr | rate-gateway-lib/src/models.rs:156-194 | on success the first key is `count` and its value parses to the count |
| GatewayModels.PostSuccessRoundTrip | rate-gateway-lib/src/models.rs:142-194 | every PostSuccess reads back as itself |
| GatewayModels.PostSuccessFirstWins | rate-gateway-lib/src/models.rs:180-191 | with `count` repeated, the first value is kept |
| GatewayModels.PostSuccessBadCount | rate-gateway-lib/src/models.rs:168-180 | a count that is not integer text, behind any number of readable counts, fails with the integer parser's message |
| GatewayModels.PostSuccessUnexpectedKey | rate-gateway-lib/src/models.rs:168-181 | a key other than `count`, behind any number of readable counts, fails with "Unexpected key while parsing PostSuccess" |
| GatewayModels.PostSuccessLoneKey | rate-gateway-lib/src/models.rs:168-176 | a key left without a value behind any number of readable counts, the empty input included, fails with "Missing value while parsing PostSuccess" |
| GatewayModels.PostSuccessFailsOnlyInScan | rate-gateway-lib/src/models.rs:172-192 | every failure comes from the token scan: a scan that succeeds always has a `count` entry, so "count missing" is never reported |

## Left out

- I/O: database access, transactions, the scheduler loop, the HTTP servers, the async API
  traits and the `HeaderValue` conversions. The fetched rates and the stored-model lookup are
  inputs; the writes are oracles or a returned log.
- Fitting, prediction, feature conversion, `update_performance` and `mean_squared_error`
  belong to the regression library. They are oracles that either succeed or fail.
- Randomness: every draw (an index, a mask offset, a fresh value, a roulette border, a split
  draw) is a parameter. A raw draw is reduced into its range by `%`. The actual distribution is
  not modelled. The one exception is the older run's first split of the loaded samples
  (`training-batch/src/main.rs:94`): it is not a parameter, but sits inside the
  `Batch.BatchNumerics` `predict` and `mse` oracles, which stand for "predict on, and score
  against, the held-out fifth of that split".
- Ga.Gene.CalcSimilarity: returns the squared distance. The square root is not modelled.
- Ga.CalcSimilarityAverage: returns each gene's squared distance. The square roots and the float
  mean are not modelled.
- Ga.SelectIndexRoulette: sums reals exactly, with no floating-point rounding. Its
  `i == weights.len()` branch can never be taken and is not modelled. It requires
  Σ(1 - w) ≠ 0, because the division by zero that `select_index_roulette` performs then is not modelled.
- Ga.MakeAverageGene: requires every gene to be no longer than the population, because
  `make_average_gene` indexes `totals` (sized by the population) out of bounds otherwise.
- Ga.Gene.New: requires slow >= fast, because `Gene::new`'s `usize` subtraction underflows
  otherwise. More generally, `usize` overflow is not modelled (`nat` is unbounded).
- Ga.GenValueRandom: requires `forecast_input_size / 3 >= 2`, because `gen_range` panics on the
  empty range `2..=forecast_input_size / 3` (`training-batch/src/ga.rs:79`). Ga.NewRandomValues,
  Ga.MutatedValues, Ga.Gene.NewRandomGene and Ga.Gene.Mutation inherit that precondition.
- Ga.GenIndexRandom and Ga.SelectGeneIndexRandom: require a non-empty gene or population,
  because `gen_range(0..len)` panics on an empty range (`training-batch/src/ga.rs:61`, `:84`).
- Ga.Gene.Crossover: requires `0 < |g1| <= |g2|`, because `Gene::crossover` indexes `g2.values` with an
  index drawn for `g1` and panics otherwise (`training-batch/src/ga.rs:109-114`).
- Ga.Gene.CalcSimilarity: requires `|values| <= |other.values|`, because `calc_similarity`
  indexes `other.values` with this gene's indices and panics otherwise (`training-batch/src/ga.rs:67`).
- Ga.ToFeatureParams: requires `|values| >= GENE_LENGTH`, because `to_feature_params` reads `values[0]`
  through `values[4]` (`training-batch/src/ga.rs:45-49`) and panics on a shorter gene. Such a gene
  can exist: `make_average_gene` builds one with one entry per population member
  (`training-batch/src/ga.rs:133-134`), so a population of fewer than five genes yields one.
- Samples.TrainTestSplit: requires `|x| <= |y|`, because `train_test_split` reads `y[i]` for every index
  `i` of `x` (`training-batch/src/util.rs:92`, `:95`) and panics otherwise.
- Samples.LoadInputData: requires a positive input size, because `load_input_data`'s
  `forecast_input_size - 1` underflows at 0. Training.LoadData, Batch.LoadData and Batch.Run
  require the same.
- The float text form of `Rate.value` and of History's rates is an oracle pair
  (`QueryParams.FloatCodec`). The Rate round trip assumes the printed value is comma-free and
  parses back to itself. ApiModels.RateRoundTrip states exactly that assumption.
- In the older training run, each fit uses its own random re-split of the training data. That
  split is not modelled: the fit oracle is indexed by family and attempt number. The first split
  (`training-batch/src/main.rs:94`) is not modelled either: it is folded into the `predict` and
  `mse` oracles of `Batch.BatchNumerics`. The re-prediction
  of the best model for logging (`training-batch/src/main.rs:262-275`) is not modelled either.
  Its result only reaches the log, but an error or a short prediction there would abort the run
  before the upsert.
- `save_training_datasets` is a single write oracle. `TrainingDataset::new` is not part of this
  model.
- Accessors that fail on a model lacking a field (`get_input_data_size`, `get_feature_params`)
  are modelled as `MissingField` errors. The stored form read by `to_domain` carries no input
  size, feature parameters or performance, so a model read back from a record has them absent.
- The older run's model selection also logs each model. Logging is not modelled.
- ForecastModels.ForecastResponseFromStr: `from_str` of the forecast response reads a whole `Rate` from a single token.
  A token contains no comma and a Rate needs one, so no forecast response ever parses.
