# Medical-cost prediction page: feature encoder and result classification

This project models the logic inside `predict_page` of `yiliao.py`, a
Streamlit page that predicts an insured person's medical costs with a
pre-trained random-forest model. It has two parts.

- `FeatureEncoder` (`feature_encoder.dfy`): the form's answers go in: age,
  BMI, number of children, and the sex, smoker and region labels. Out comes
  the 11-entry row the model is given:
  `age, bmi, children, sex_female, sex_male, smoke_no, smoke_yes,
  region_northeast, region_southeast, region_northwest, region_southwest`.
  The labels stay strings, exactly as the form hands them over:
  - any sex label other than `女性` counts as male;
  - any smoker label other than `是` counts as non-smoker;
  - a region label outside the four tested ones leaves all four region
    indicators at 0.

  The row is specified in two independent ways. The first is column by
  column, by name (`FeatureValue`). The second is by a decoder
  (`DecodeVector`) that reads a submission back from a row. Both directions
  of the round trip are proved for submissions that use the form's labels.
- `PredictionService` (`prediction_service.dfy`): the try block and its two
  `except` handlers. `TryBody` loads the model, predicts, and takes element
  0. `Handle` maps the outcome to one of three page results: the predicted
  cost, the "model file not found" error, or the generic error carrying the
  failure's message. `Submit` chains the encoder, the try block and the
  handlers. The model is abstract: loading it is a given `Attempt`, and its
  prediction on a row is a given function.

Numbers are `real` throughout. Age and the number of children are integers
lifted to `real`, and the indicators are `0.0` and `1.0`. The Python list
mixes `int` and `float`, and the model reads it as numeric columns.

For a region label that matches none of the four tests, the encoder leaves
all four region indicators at 0 and raises nothing (`yiliao.py:82-90`); the
model does the same. The select box at `yiliao.py:64` offers only the four
tested labels, so a form submission cannot reach this case.
`OneHotGroups` and `UnmatchedRegionIsAllZero` state both sides of this.

## Model

| member | source | states |
|---|---|---|
| FeatureEncoder.SexFlags | yiliao.py:69-73 | both sex indicators are 0 or 1 and sum to 1; sex_female is 1 if and only if the label is `女性` (every other label gives sex_male = 1) |
| FeatureEncoder.SmokerFlags | yiliao.py:76-80 | both smoker indicators are 0 or 1 and sum to 1; smoke_yes is 1 if and only if the label is `是` (every other label gives smoke_no = 1) |
| FeatureEncoder.RegionFlags | yiliao.py:82-90 | four indicators in the order northeast, southeast, northwest, southwest; indicator i is 1 exactly when the label equals the i-th tested label, so an unmatched label gives four zeros |
| FeatureEncoder.Encode | yiliao.py:93-97 | the row has 11 entries; entries 0-2 are age, BMI and children unchanged; entry i is the value of the column named `Columns[i]`, as defined column by column by name |
| FeatureEncoder.EncodeExample | yiliao.py:93-97 | a male non-smoker of 30 from the southeast with BMI 25.5 and one child encodes to [30, 25.5, 1, 0, 1, 1, 0, 0, 1, 0, 0] |
| FeatureEncoder.IndicatorsAreFlags | yiliao.py:69-90 | every indicator entry (indices 3 to 10) is 0 or 1, for every input |
| FeatureEncoder.OneHotGroups | yiliao.py:64-90 | the sex and smoker groups each sum to 1 for every input; the region group sums to 1 if and only if the region label is one of the select box's four options |
| FeatureEncoder.UnmatchedRegionIsAllZero | yiliao.py:82-90 | a region label that matches none of the four tests leaves all four region indicators at 0 (no error) |
| FeatureEncoder.OfferedRegionSetsItsOwnFlag | yiliao.py:82-90 | each of the four region labels sets its own indicator to 1 and the other three to 0 |
| FeatureEncoder.DecodeAfterEncode | yiliao.py:69-97 | a submission with the form's labels decodes back from its row unchanged: the encoding loses nothing |
| FeatureEncoder.EncodeAfterDecode | yiliao.py:69-97 | every row that decodes is exactly the encoding of the decoded submission, and that submission uses only the form's labels |
| FeatureEncoder.EncodeIsInjective | yiliao.py:69-97 | two different form submissions never produce the same row |
| PredictionService.TryBody | yiliao.py:100-112 | a failure while loading ends the block with that failure; once loaded, a failure raised by prediction ends it with that same failure, and an empty prediction array ends it with numpy's index error; the block returns a value if and only if the model loaded and its prediction returned a non-empty array, and the value is element 0 |
| PredictionService.Handle | yiliao.py:112-118 | success is shown as the predicted cost, a missing-file failure as the "not found" error, any other failure as the generic error with its message, each exactly when that outcome occurred |
| PredictionService.Submit | yiliao.py:93-118 | the model is given exactly the encoded row; a missing model file, while loading or predicting, shows the "not found" error; any other failure while loading or predicting shows the generic error with its message; an empty prediction array shows the generic error with numpy's index message; a cost is shown if and only if the model loaded and its prediction on the encoded row returned a value, and the cost is the first prediction |
| PredictionService.MissingFileSkipsPrediction | yiliao.py:100-116 | with a missing model file the result is the same whatever the model would predict: no prediction takes part |
| PredictionService.HandleIsInvertible | yiliao.py:112-118 | the outcome of the try block can be recovered from the page result, so distinct outcomes are shown as distinct results |

## Left out

- Page configuration, the introduction page, the form widgets, sidebar navigation and the rendering of messages (`yiliao.py:1-65`, `yiliao.py:120-130`) are presentation. The form's label options are kept as constants, because the properties are stated for them.
- Range limits of age (0-120), BMI (0.0-100.0) and children (0-20) are enforced by the form widgets and never checked by the encoder. The model imposes no range on them.
- Opening `rfr_model.pkl` and unpickling it are file I/O and deserialisation. They are modelled only as the outcome of the load step.
- Building the pandas table with the model's `feature_names_in_` as column names, and the random-forest `predict`, are library calls. Together they are an abstract function from the loaded model and the row to an outcome. A column-count mismatch that pandas would raise is one of that function's failures.
- The table takes its column names from the model by position (`yiliao.py:106-109`), so nothing checks that the encoder's column order matches the order the model was trained with. A model trained with another order would silently receive misaligned data; the model, like the code, does not check this.
- Failures are modelled as the two kinds the handlers tell apart. A missing file carries no message, because the page shows a fixed text for it (`yiliao.py:116`). Any other exception carries the message `str(e)` would show (`yiliao.py:118`).
- Exceptions that `except Exception` does not catch (`BaseException` subclasses such as `KeyboardInterrupt`, `SystemExit` and Streamlit's stop and rerun signals) escape both handlers in the source. The model has no such failure: every failure in `Failure` reaches a handler.
- Rounding the prediction to two decimals for display is floating-point formatting. The page result carries the unrounded first prediction.
- The model file is read again on every submission. The source has no caching and no concurrency, so the model has none either.
- Determinism of the encoder is not stated as a lemma, because every Dafny function is deterministic.
