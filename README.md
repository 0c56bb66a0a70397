# Carbon Footprint Generator — a verified model of its core

Carbon Footprint Generator estimates the greenhouse-gas footprint of a product from five inputs: its
material, its weight, the transport mode and distance, and a manufacturing intensity. A trainer builds
a synthetic life-cycle dataset from fixed emission tables and fits a regressor to it. A Django service
loads the fitted model and answers predictions. Each answer carries:

- a breakdown computed from its own copy of the tables,
- tree, renewable-credit and vegan-day compensation figures,
- real-world equivalents,
- a ±8% confidence band.

A browser script reads the CSRF cookie, formats numbers and shows a recycling estimate.

This project models that core in Dafny and proves properties of the model:

| module | file | models |
|---|---|---|
| `Catalog` | catalog.dfy | The 35 materials (in the seven sections of the material table), 4 transport modes and 3 intensities. Also their string keys, and key lookup (`Parse*`) with the failure a dictionary lookup has on any other string. |
| `Training` | train_model.dfy | The three emission tables and `calculate_carbon_footprint` (a `KeyError` for an unknown key). The per-row rules of `generate_synthetic_dataset`, with the random draws as inputs; the row loop is a method. The encoding and feature-order part of `train_model`, which adds the encoded columns to the data frame in place. |
| `LabelEncoding` | label_encoder.dfy | The label encoder: the vocabulary is the sorted set of distinct labels, and a code is a position in it. Unseen labels are rejected. |
| `Services` | services.dfy | `_calculate_breakdown`, `_calculate_compensation`, `_get_equivalency`, the confidence band, the all-or-nothing result of `predict`, `get_available_materials`, `get_model_info`. The class-level `_instance`/`_model_artifacts` state is a class. |
| `Views` | views.dfy | `PredictCarbonFootprintView.post`: field extraction, `float()` conversion, the ordered checks, the status codes, the call into the service, and the log row written after a successful prediction. |
| `Frontend` | frontend.dfy | `getCookie` as a loop over the `;`-split entries. `formatNumber`'s regular expression, on the numeral of a non-negative integer. The recycling estimate. |
| `Numeric`, `Text`, `Json`, `Wrappers` | numeric.dfy, text.dfy, json.dfy, wrappers.dfy | Python's `round` (half to even), `math.ceil`, `int()` on a float, JavaScript's `Math.round`, `np.clip`. Decimal numerals. Decoded JSON request values with Python truthiness and `float()`. Option/Result. |

Floats are exact reals. Every rounding the code applies is written out as an explicit operation on
the exact value. A bounds property is therefore stated about the unrounded value together with the
rounding error the operation allows.

Some of the code's behaviour is easy to miss on a first reading. The model follows the code:

- **A failed first load of the model is cached.** `__new__` stores the instance before `_load_model`
  raises. Every later request then meets a created service with no artifacts: `predict` raises
  "Model not loaded", and the view answers 500. The load is never retried.
- **The breakdown is not the training formula.** The service computes manufacturing emissions with a
  fixed multiplier of 1.4, while the trainer uses each material's own multiplier. The service's
  figures are therefore a different formula from the training labels (`ManufacturingDiffersFromTraining`).
- **A missing numeric field is a server error.** A body with no `weight_kg` or no
  `transport_distance_km` makes `float(None)` raise a `TypeError`, which the view answers with 500.
  It is not answered as "Missing required fields".
- **A distance of exactly 0 is "missing".** It fails the presence check before the range check
  could accept it.
- **Unknown categories raise errors with the code's own text.** An unknown category is reported with
  the encoder's error, as `str(e)` of the exception. There is no dedicated failure kind that names
  the field.

## Model

| member | source | states |
|---|---|---|
| Catalog.KeyListsComplete | predictor/training/train_model.py:116-118 | the key lists the generator draws from contain every material, every transport mode and every intensity |
| Catalog.MaterialListed | predictor/training/train_model.py:19-68 | every material is one of the table's keys |
| Catalog.MaterialNamesDistinct | predictor/training/train_model.py:19-68 | two materials with the same key are the same material (the 35 keys are distinct) |
| Catalog.ModeNamesDistinct | predictor/training/train_model.py:70-76 | the four transport keys are distinct |
| Catalog.IntensityNamesDistinct | predictor/training/train_model.py:78-82 | the three intensity keys are distinct |
| Catalog.Find | predictor/training/train_model.py:92 | a lookup finds a listed candidate whose key is the string, or reports that no listed candidate has that key |
| Catalog.ParseMaterial | predictor/training/train_model.py:92 | `MATERIAL_FACTORS[material]`: a string is accepted exactly when it is some material's key, and then that material is returned |
| Catalog.ParseMode | predictor/training/train_model.py:100 | `TRANSPORT_FACTORS[mode]`: accepted exactly when the string is a mode's key |
| Catalog.ParseIntensity | predictor/training/train_model.py:96 | `MANUFACTURING_BASE[intensity]`: accepted exactly when the string is an intensity's key |
| Catalog.ParseMaterialName | predictor/training/train_model.py:19-68 | looking up a material's own key gives back that material |
| Catalog.ParseModeName | predictor/training/train_model.py:70-76 | looking up a mode's own key gives back that mode |
| Catalog.ParseIntensityName | predictor/training/train_model.py:78-82 | looking up an intensity's own key gives back that intensity |
| Catalog.KeysAreCaseSensitive | predictor/training/train_model.py:70-82 | "air" and "medium" are not keys; only the upper-case spellings are |
| Training.MaterialFactors | predictor/training/train_model.py:19-68 | every material factor lies in [0.4, 27.0] kg CO2e per kg and every multiplier in [0.5, 2.5] |
| Training.TransportFactors | predictor/training/train_model.py:70-76 | every transport factor lies in [0.015, 0.95]; SEA alone has the lowest, AIR alone the highest |
| Training.ManufacturingBase | predictor/training/train_model.py:78-82 | every base lies in [0.5, 3.5]; LOW alone has the lowest, HIGH alone the highest |
| Training.FactorsPositive | predictor/training/train_model.py:19-82 | every material factor, multiplier, transport factor and manufacturing base is positive |
| Training.TransportFactorsOrdered | predictor/training/train_model.py:70-76 | sea freight has the lowest factor and air freight the highest |
| Training.Emissions | predictor/training/train_model.py:91-103 | the total is exactly material + manufacturing + transport |
| Training.FootprintOf | predictor/training/train_model.py:84-110 | the footprint of known categories, total equal to the sum of its three components |
| Training.CalculateCarbonFootprint | predictor/training/train_model.py:84-110 | succeeds exactly when all three keys are table keys; otherwise fails with a KeyError naming the first unknown key in lookup order (material, intensity, mode) |
| Training.CalculateOnKnownKeys | predictor/training/train_model.py:92-110 | on the tables' own keys the result is the formula with those categories' factors |
| Training.CottonByAirExample | predictor/training/train_model.py:84-110 | 0.5 kg of cotton flown 8000 km with MEDIUM intensity gives 2.75 + 0.975 + 3.8 = 7.525 kg |
| Training.LowerCaseModeIsKeyError | predictor/training/train_model.py:100 | an unknown mode key is a KeyError naming it, not a default |
| Training.EmissionsScaleWithWeight | predictor/training/train_model.py:93-103 | scaling the weight by k scales every component and the total by k |
| Training.EmissionsDifferInMultiplier | predictor/training/train_model.py:92-97 | two multipliers change only the manufacturing component, in proportion to the multipliers |
| Training.FootprintPositive | predictor/training/train_model.py:91-103 | with a positive weight and a non-negative distance, material and manufacturing are positive, transport non-negative, the total positive |
| Training.EmissionsPositive | predictor/training/train_model.py:91-103 | the same at any positive factors |
| Training.EmissionsMonotoneInDistance | predictor/training/train_model.py:101-103 | a longer distance never lowers the transport emissions or the total |
| Training.IntensityChoices | predictor/training/train_model.py:138-151 | each material allows two or three intensities |
| Training.DistanceRange | predictor/training/train_model.py:129-136 | every mode's distance range is a non-empty range of positive distances |
| Training.RawDistance | predictor/training/train_model.py:129-136 | the uniform draw lands in the mode's range: AIR 2000-15000, SEA 5000-20000, ROAD 50-3000, RAIL 200-5000 |
| Training.StoredWeight | predictor/training/train_model.py:162 | the clipped weight rounded to 3 places stays in [0.05, 100] and moves by at most 0.0005 |
| Training.StoredDistance | predictor/training/train_model.py:164 | the distance rounded to 0.1 km stays in the mode's closed range and moves by at most 0.05 |
| Training.GenerateRow | predictor/training/train_model.py:120-170 | a row's keys are those of the drawn material, mode and allowed intensity; its weight is in [0.05, 100] and its distance in the mode's range |
| Training.GeneratedRowStoresDraws | predictor/training/train_model.py:123-164 | the stored weight is the clipped lognormal draw rounded to 3 places, within 0.0005 of it; the stored distance is the scaled uniform draw rounded to 0.1 km, within 0.05 of it |
| Training.GeneratedLabelsFollowFormula | predictor/training/train_model.py:153-169 | the stored components are the footprint's components on the unrounded weight and distance, rounded to 3 places; the stored total is footprint total × noise, rounded to 3 places |
| Training.HeavyProcessingNeverLow | predictor/training/train_model.py:139-145 | Aluminum, Steel, Leather, Beef, Lamb, Pork, Shrimp and Cheese are only ever MEDIUM or HIGH |
| Training.LightProcessingNeverHigh | predictor/training/train_model.py:141-149 | Cotton, Polyester, Plastic and the listed low-processing foods are only ever LOW or MEDIUM |
| Training.OtherMaterialsReachEveryIntensity | predictor/training/train_model.py:150-151 | every other material may get any of LOW, MEDIUM, HIGH |
| Training.MapDraws | predictor/training/train_model.py:120-172 | one row per draw, in order, row i built from draw i |
| Training.RowIntensityAllowed | predictor/training/train_model.py:138-151 | the intensity of a generated row is one its material allows |
| Training.GenerateSyntheticDataset | predictor/training/train_model.py:112-172 | the rows are exactly `GenerateRow` applied to the first `num_samples` draws, in order |
| Training.GeneratedRowsAreWellFormed | predictor/training/train_model.py:116-124 | the dataset has `num_samples` rows, and every row's material, mode and intensity are table keys and its weight lies in [0.05, 100] |
| Training.FeatureVector | predictor/training/train_model.py:189 | five features in the fixed order material, weight, transport, distance, intensity |
| Training.MaterialColumn | predictor/training/train_model.py:184 | the material column, one entry per row |
| Training.TransportColumn | predictor/training/train_model.py:185 | the transport column, one entry per row |
| Training.IntensityColumn | predictor/training/train_model.py:186 | the intensity column, one entry per row |
| Training.FeatureMatrix | predictor/training/train_model.py:189 | one feature vector per row, in the fixed order |
| Training.TargetColumn | predictor/training/train_model.py:190 | the target is each row's noisy total |
| Training.DataFrame.constructor | predictor/training/train_model.py:172 | the frame holds the generated rows and no encoded columns yet |
| Training.TrainModel | predictor/training/train_model.py:174-244 | the three encoded columns are added to the frame and its rows are unchanged; one encoder is fitted per column; X in feature order and y are built; the artifacts hold the model, the encoders, the feature names and the metrics |
| Training.TrainingFeaturesDecode | predictor/training/train_model.py:184-189 | decoding the codes in any row of X gives back that row's material, mode and intensity |
| LabelEncoding.Fit | predictor/training/train_model.py:184-186 | the vocabulary is strictly sorted and holds exactly the observed labels |
| LabelEncoding.Transform | predictor/services.py:58-60 | a label has a code exactly when it is in the vocabulary, and the code points back to it |
| LabelEncoding.InverseTransform | predictor/training/train_model.py:184-186 | a code decodes exactly when it is a position in the vocabulary, and then to the class at that position |
| LabelEncoding.FitTransform | predictor/training/train_model.py:184-186 | one code per entry, each the entry's code in the fitted encoder |
| LabelEncoding.CodeRoundTrip | predictor/services.py:58-60 | encoding the class at a code gives that code back (codes are a bijection onto the vocabulary) |
| LabelEncoding.LabelRoundTrip | predictor/training/train_model.py:184-186 | every training label is encodable, and decoding its code gives it back |
| LabelEncoding.CodesFollowOrder | predictor/training/train_model.py:184-186 | codes follow the sorted order of the labels, in both directions |
| Numeric.Round | predictor/services.py:134-139 | `round(x, n)` for n up to 3 is within half a unit in the last place of x |
| Numeric.RoundIsOnGrid | predictor/services.py:137-139 | the rounded value has at most n decimals |
| Numeric.RoundMonotone | predictor/services.py:86-87 | rounding never reverses the order of two values |
| Numeric.RoundStaysInGridRange | predictor/training/train_model.py:162-164 | rounding keeps a value inside a range whose ends lie on the grid |
| Numeric.RoundKeepsSign | predictor/services.py:81 | rounding never moves a value across zero |
| Numeric.RoundHalfEven | predictor/services.py:81 | the nearest integer; a tie goes to the even neighbour |
| Numeric.Ceil | predictor/services.py:152 | the least integer not below x |
| Numeric.Trunc | predictor/services.py:171 | `int(x)` drops the fraction toward zero, for both signs |
| Numeric.MathRound | static/js/app.js:166 | `Math.round`: within half a unit, ties upward |
| Numeric.Clip | predictor/training/train_model.py:124 | `np.clip` lies in [lo, hi], is x inside it and the nearer end outside it |
| Text.NatToString | predictor/services.py:155 | a non-empty digit string without a leading zero, "0" for 0 |
| Text.NatToStringValue | predictor/services.py:155 | the numeral reads back as the number |
| Json.GetOr | predictor/views.py:28-33 | `data.get(key, default)` |
| Json.ToFloat | predictor/views.py:30-32 | `float(v)`: a TypeError exactly for None, lists and dicts; a ValueError exactly for text that is not a number |
| Services.BreakdownFactorPositive | predictor/services.py:100-117 | every factor of the service's material table is positive |
| Services.BreakdownFactorsMatchTraining | predictor/services.py:100-117 | the service's material factors equal the trainer's |
| Services.MaterialRatePositive | predictor/services.py:127 | the material rate, fallback included, is positive |
| Services.TransportRate | predictor/services.py:119-121 | the transport rate, fallback included, is positive |
| Services.BaseRate | predictor/services.py:123-125 | the manufacturing base, fallback included, is positive |
| Services.RatesOnListedKeys | predictor/services.py:127-129 | on the tables' keys the rates are the trainer's factors |
| Services.RatesOnUnlistedKeys | predictor/services.py:127-129 | any other key falls back to 3.0, 0.1 and 1.5 |
| Services.Percent | predictor/services.py:134-136 | a share is within 0.05 of the exact percentage |
| Services.Shares | predictor/services.py:131-139 | fails exactly when the total is zero (a division by zero); otherwise gives the percentages within 0.05 and the components within 0.005 |
| Services.BreakdownAtRates | predictor/services.py:127-140 | at given rates, the breakdown fails (a division by zero) exactly when weight × material rate + weight × base × 1.4 + weight × distance/1000 × transport rate is zero |
| Services.BreakdownAtRatesComponents | predictor/services.py:127-139 | at given rates, each reported component is within 0.005 of its product |
| Services.CalculateBreakdown | predictor/services.py:97-140 | the only failure of `_calculate_breakdown` is the division by a zero total |
| Services.CalculateBreakdownComponents | predictor/services.py:127-139 | a breakdown's components are within 0.005 of weight × the material's rate (fallback 3.0), weight × its base (fallback 1.5) × 1.4, and weight × distance/1000 × the mode's rate (fallback 0.1) |
| Services.ExactSharesSumTo100 | predictor/services.py:131-136 | the unrounded percentages sum to exactly 100 |
| Services.RoundedSharesNearly100 | predictor/services.py:134-136 | the rounded percentages sum to 100 within 0.15 |
| Services.SharesArePercentages | predictor/services.py:134-136 | with non-negative components and a positive total, each percentage is in [0, 100] |
| Services.SharesIgnoreScale | predictor/services.py:131-136 | scaling all components by one non-zero factor leaves the percentages unchanged |
| Services.SharesDependOnQuotients | predictor/services.py:131-136 | the percentages depend only on each component's share of the total |
| Services.BreakdownOfValidatedInput | predictor/services.py:97-140 | for a positive weight and a non-negative distance the breakdown succeeds with every percentage in [0, 100] |
| Services.ComponentsPositive | predictor/services.py:127-131 | with positive rates the material and manufacturing components are positive and the transport one non-negative |
| Services.BreakdownIndependentOfWeight | predictor/services.py:127-136 | the percentages do not depend on the weight |
| Services.SharesIgnoreWeight | predictor/services.py:127-136 | the same, at any given rates |
| Services.BreakdownVersusTraining | predictor/services.py:127-129 | on table keys the breakdown's materials and transport components are the trainer's, and its formula is the trainer's with multiplier 1.4 |
| Services.CottonBreakdownExample | predictor/services.py:97-140 | 0.5 kg of cotton, AIR, 8000 km, MEDIUM: 2.75 / 1.05 / 3.8 kg, shares 36.2 / 13.8 / 50.0 |
| Services.ManufacturingDiffersFromTraining | predictor/services.py:128 | for that item the service reports 1.05 kg of manufacturing where the training label has 0.975 |
| Services.TreesDisplay | predictor/services.py:152 | at least one tree, enough trees to absorb the footprint at 20 kg each, and one fewer would not be |
| Services.FewestTrees | predictor/services.py:152 | no smaller positive number of trees absorbs the footprint |
| Services.CalculateCompensation | predictor/services.py:142-156 | trees per year is the footprint/20 rounded to 0.01 (so within 0.005 of it), or exactly 0.01 when that is below 0.015; trees shown as above; credits within 0.0005 of co2/1000; vegan days within 0.05 of co2/2.5; the message names the tree count, plural above one tree |
| Services.CompensationExample | predictor/services.py:142-156 | 40 kg gives 2.0 trees a year, 2 trees, 0.04 credits, 16.0 vegan days, and the plural message |
| Services.SingleTreeMessage | predictor/services.py:152-155 | up to 20 kg one tree is shown and the message is singular |
| Services.GetEquivalency | predictor/services.py:158-174 | car km within 0.05 of co2/0.25; phone charges the truncation of co2/0.008, for both signs; washing loads within 0.05 of co2/0.6 |
| Services.EquivalencyExample | predictor/services.py:158-174 | 25 kg gives 100.0 km, 3125 charges, 41.7 loads |
| Services.ConfidenceInterval | predictor/services.py:85-88 | lower within 0.005 of 0.92 × p, upper within 0.005 of 1.08 × p |
| Services.BandBracketsEstimate | predictor/services.py:81-88 | a non-negative estimate, as reported, lies inside its band; for a non-positive one the band is reversed |
| Services.Encode | predictor/services.py:57-60 | a category is encoded exactly when the encoder knows it, into a code that points back to it; otherwise it fails naming the category |
| Services.EncodeFeatures | predictor/services.py:57-63 | succeeds exactly when all three categories are known; the first unknown one (material, transport, intensity) is the error; the vector decodes back to the request in feature order |
| Services.Report | predictor/services.py:79-89 | the result is the estimate rounded to 0.01 with the given breakdown and the compensation, equivalency and band of the unrounded estimate; the reported co2 is within 0.005 of the estimate; for a non-negative estimate it lies inside the band; a positive report comes from a positive estimate |
| Services.PredictWith | predictor/services.py:47-95 | no artifacts raises "Model not loaded"; otherwise there is a full result exactly when encoding and breakdown succeed, else only the failure; a full result is the report of the model's estimate on the encoded features, carrying the breakdown of the request |
| Services.UnknownMaterialFails | predictor/services.py:50-95 | an unknown material gives only a failure naming it |
| Services.ValidatedKnownRequestSucceeds | predictor/services.py:50-89 | known categories with a positive weight and a non-negative distance always give a full result |
| Services.AvailableMaterials | predictor/services.py:176-180 | empty without a model; otherwise exactly the material encoder's classes, each a category it knows |
| Services.ModelInfoOf | predictor/services.py:182-191 | model info exactly when a model is loaded, with its feature names, r2 score, rmse and mae |
| Services.TrainedMaterialsAvailable | predictor/services.py:176-180 | for a model from `train_model`, the materials offered are sorted, and are exactly the training rows' materials |
| Services.CarbonFootprintService.constructor | predictor/services.py:13-14 | no instance created, no artifacts |
| Services.CarbonFootprintService.Instance | predictor/services.py:16-31 | the first call marks the instance created and loads the model file, or fails when it is missing while staying created; later calls change nothing and succeed |
| Services.CarbonFootprintService.Predict | predictor/services.py:33-95 | `predict` on the service's current artifacts |
| Services.CarbonFootprintService.GetAvailableMaterials | predictor/services.py:176-180 | the available materials of the current artifacts |
| Services.CarbonFootprintService.GetModelInfo | predictor/services.py:182-191 | the model info of the current artifacts |
| Services.FailedLoadIsCached | predictor/services.py:16-48 | after a failed first load the next construction succeeds without loading, and prediction reports "Model not loaded" |
| Views.ErrorStatus | predictor/views.py:37-94 | 500 exactly for a server error, 400 for every other error |
| Views.FloatField | predictor/views.py:30-32 | a missing key, or a null, list or object value, is a server error (TypeError); a number converts to itself, a boolean to 1.0 or 0.0; numeric text to its value; other text is invalid input (ValueError) |
| Views.ParseRequest | predictor/views.py:26-53 | succeeds exactly when both numbers convert, material and mode are truthy, 0 < weight ≤ 1000 and 0 < distance ≤ 50000, and then carries the fields with their defaults; otherwise fails with the first failing check's error: the weight's conversion, the distance's conversion, missing fields (a falsy material or mode, or a zero weight or distance), the weight range, the distance range |
| Views.LogEntryOf | predictor/views.py:69-80 | the log row carries the request's product name, material, weight, mode and distance, the reported co2, the three breakdown components and the trees per year |
| Views.Respond | predictor/views.py:26-94 | status is 200, 400 or 500; 200 exactly for a prediction; a rejected request is answered with its validation error and that error's status; an acceptable request with no service yet and no model file is a 500 "model file not found"; otherwise the service predicts on the held artifacts (or, on the first request, the loaded file) and a prediction is answered 200 with the service's result, a service failure 400 with the service's own error, and a missing model 500 "Model not loaded" |
| Views.Answer | predictor/views.py:26-28 | a parsed body that is not a JSON object is answered 500 (AttributeError on `.get`); an object is answered as `Respond` |
| Views.PredictionLog.Append | predictor/views.py:69-80 | one row is added at the end |
| Views.Post | predictor/views.py:12-94 | answers as `Answer`; constructs the service only for an acceptable object body; logs exactly one row, for the prediction answered, only on 200 |
| Views.MissingWeightIsServerError | predictor/views.py:26-94 | a body without `weight_kg` is answered 500 |
| Views.NonNumericWeightIsInvalidInput | predictor/views.py:84-88 | a non-numeric weight string is answered 400 as invalid input |
| Views.ZeroDistanceIsMissing | predictor/views.py:36-40 | a distance of exactly 0 is rejected as missing |
| Views.FalsyFieldIsMissing | predictor/views.py:36-40 | once both numbers convert, a falsy material or mode or a zero weight or distance is answered 400 "Missing required fields" |
| Views.WeightRangeCheck | predictor/views.py:43-47 | with the fields present, the weight is rejected exactly when negative or above 1000 |
| Views.DistanceRangeCheck | predictor/views.py:49-53 | with the fields present and the weight in range, the distance is rejected exactly when negative or above 50000 |
| Views.AbsentIntensityIsMedium | predictor/views.py:33 | leaving out the intensity is answered as sending "MEDIUM" |
| Views.ServiceFailureIs400 | predictor/views.py:65-66 | a service failure is answered 400 with the service's own error, on the first (loading) request and on later ones |
| Views.CachedFailedLoadIsServerError | predictor/views.py:56-57 | once the first load has failed, every acceptable request is answered 500 |
| Views.KnownCategoriesSucceed | predictor/views.py:55-82 | an acceptable request on known categories is answered 200 with the service's prediction as the body, on the first (loading) request and on later ones |
| Frontend.Split | static/js/app.js:275 | `split` yields at least one piece |
| Frontend.SplitWithoutSeparator | static/js/app.js:275 | a string without `;` is a single entry |
| Frontend.SplitPiecesLackSeparator | static/js/app.js:275 | no entry contains the separator |
| Frontend.JoinSplit | static/js/app.js:275 | joining the entries gives back the cookie string |
| Frontend.SplitJoin | static/js/app.js:275 | splitting a join of separator-free pieces gives back the pieces |
| Frontend.SplitAppend | static/js/app.js:275 | splitting at a separator concatenates the entries of both sides |
| Frontend.SplitPrepend | static/js/app.js:275 | text without the separator in front only lengthens the first entry |
| Frontend.TrimStartRemovesLeadingSpace | static/js/app.js:277 | the removed prefix is all white space and the rest does not start with white space |
| Frontend.TrimEndRemovesTrailingSpace | static/js/app.js:277 | the removed suffix is all white space and the rest does not end with white space |
| Frontend.TrimIgnoresLeadingSpace | static/js/app.js:277 | white space in front does not change the trimmed entry |
| Frontend.SubstringToEnd | static/js/app.js:279 | `substring(start)` is the suffix from start |
| Frontend.SubstringTestIsPrefix | static/js/app.js:278 | the substring comparison holds exactly when the entry begins with `name=` |
| Frontend.FirstMatchIsFirst | static/js/app.js:276-282 | a value found is the decoded rest of an entry that names the cookie, and no earlier entry names it |
| Frontend.FirstMatchFound | static/js/app.js:276-282 | a value is found exactly when some trimmed entry begins with `name=` |
| Frontend.CookieValue | static/js/app.js:272-285 | the empty cookie string gives null |
| Frontend.GetCookie | static/js/app.js:272-285 | null for an empty cookie string; otherwise the decoded value of the first trimmed entry that begins with `name=` |
| Frontend.CookieFoundIff | static/js/app.js:273-282 | `getCookie` finds a value exactly when the string is non-empty and some trimmed entry begins with `name=` |
| Frontend.FirstMatchAppend | static/js/app.js:276-282 | a match in the first entries hides all later ones |
| Frontend.LaterEntriesIgnored | static/js/app.js:280 | after a matching entry, whatever follows the next `;` is ignored |
| Frontend.SpaceAfterSeparatorIgnored | static/js/app.js:277 | white space after a `;` does not affect the result |
| Frontend.ExtendedNameDoesNotMatch | static/js/app.js:278 | an entry whose name only extends the requested one is no match |
| Frontend.SingleEntry | static/js/app.js:272-285 | a one-entry cookie string gives its value if it names the cookie, else null |
| Frontend.NamedEntryGivesValue | static/js/app.js:272-285 | a lone entry `name=v` gives the decoded v |
| Frontend.ExtendedEntryGivesNothing | static/js/app.js:272-285 | a lone entry whose name only extends the requested one gives null |
| Frontend.CsrfTokenExample | static/js/app.js:272-285 | `csrftokenX=abc` gives null for `csrftoken`, and `csrftoken=abc` gives the decoded `abc` |
| Frontend.SeparatorInNumeral | static/js/app.js:291 | in a numeral the expression matches exactly at the positions after the first from which a positive multiple of three digits remains |
| Frontend.InsertSeparators | static/js/app.js:291 | on a numeral, the global replace inserts exactly the commas of the reference grouping rule |
| Frontend.FormatNumber | static/js/app.js:290-292 | below 10^21, `formatNumber(n)` is the decimal numeral of n grouped by the reference rule |
| Frontend.GroupFromRemoveCommas | static/js/app.js:291 | deleting the commas from the grouping gives back the digits |
| Frontend.FormatNumberRemoveCommas | static/js/app.js:290-292 | deleting the commas from `formatNumber(n)` gives back `n.toString()`, which reads back as n |
| Frontend.GroupFourDigits | static/js/app.js:291 | a four-digit numeral gets one comma, after its first digit |
| Frontend.FormatNumberExample | static/js/app.js:290-292 | `formatNumber(1234)` is "1,234" |
| Frontend.RecycleKg | static/js/app.js:166 | the recycling estimate is exactly 25 kg per tree shown |

## Left out

- Fitting the random forest, predicting with it, `train_test_split`, the metrics and the feature importances are library calls. The fitted regressor is an opaque function of the feature vector, and the metrics are parameters of `TrainModel`.
- The random distributions are not modelled: the lognormal weight, the uniform distance, the weighted choices and the normal noise. Their draws are inputs, and a valid draw lies in the distribution's support. The seed and the choice probabilities are not modelled.
- The model file (`joblib.dump`/`joblib.load`, the file-existence check) is left out as I/O. The file's content enters as a parameter, `None` when the file is missing.
- The CSV export, all `print` output and `main` are I/O.
- Concurrent first access to the singleton is not modelled. One object stands for the class-level state of the process.
- `PredictionLog.objects.create` is a sequence of log rows, not the ORM.
- `GetMaterialsView` and `ModelInfoView` (predictor/views.py:97-121) only wrap `get_available_materials`/`get_model_info` in a response. Those two service operations are modelled.
- Python's float syntax in `float(text)` is a parameter.
- Floats are exact reals, so binary rounding error is not modelled, and neither are NaN and infinities.
  - The text "nan" passes the view's range checks in Python. The model has no such value.
- The text of exception messages is approximated. An error carries the offending value, not the library's wording.
- The `display` string of the equivalency is not modelled.
- `decodeURIComponent` is a parameter. The `URIError` it can raise is not modelled.
- An undefined `document.cookie` is not modelled, since a cookie string is always a string.
- JavaScript strings are sequences of UTF-16 code units, while a Dafny `string` is a sequence of characters. `getCookie` uses `length` and `substring` on them; the prefix test for `name + '='` gives the same answer either way, because the `=` ends on a whole code unit.
- The DOM, animation and network code around the recycling figure are UI.
- `Services.CompensationExample`: the message is stated as the concatenation of its pieces, not as one literal.
- `Services.BreakdownVersusTraining`: the manufacturing relation to the training formula is stated separately, in `Training.EmissionsDifferInMultiplier`.
- `Frontend.FormatNumberRemoveCommas`: `formatNumber` is modelled only on non-negative integers below 10^21. From 10^21 on `toString()` gives exponent form ("1e+21"), which is not modelled. Above 2^53 a JavaScript number cannot hold every integer; the model does not capture that either. The regular expression is defined on any string, but its properties are proved only for numerals.
- `Views.FloatField`: a JSON integer beyond the double range makes `float()` raise `OverflowError`, which the view answers with 500. The model converts every number exactly, so it does not capture that case.
- `Training.GenerateSyntheticDataset`: the sample count is a parameter. The default of 5000 is the constant `Training.DefaultSamples`. The 8000 that `main` passes belongs to `main`, which is I/O.
- `Services.CalculateBreakdown`: the components and the failure condition are stated on `Services.BreakdownAtRates` at explicit rates and in `Services.CalculateBreakdownComponents`, not as clauses of `CalculateBreakdown` itself.
- `Frontend.CookieValue`: which entry gives the value is stated on the entries in `Frontend.FirstMatchIsFirst`, `Frontend.FirstMatchFound` and `Frontend.CookieFoundIff`.
