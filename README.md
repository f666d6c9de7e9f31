# Per-user prediction table of an image-classification API, in Dafny

This project models the core of a small authenticated HTTP API. Users upload
images, a pretrained classifier labels them, and every result is stored in a
per-user prediction history. The model covers:

- **The `predictions` table** (`PredictionModel`). A row is a `Prediction`
  with a primary-key id, the owner's user id, the `{filename}` input, the
  `{result}` output, optional image bytes and a timestamp. The predicates
  `IdsIncreasing`, `IdsBelow` and `DistinctIds` state the primary-key
  discipline.
- **The response shapes** (`PredictionSchema`). These are
  `PredictionOutput`, `PredictionRecord` and the projection
  `FromOrmWithImage`. The projection adds the link
  `/predictions/{id}/image` only when asked. `ParseImageUrl` matches a path
  against that route template, and the link and the template are proved to
  round-trip.
- **The end of `run_model`** (`Inference`). It transposes a (224, 224, 3)
  image to channel-first layout and adds the batch axis, over any element
  type. It then takes the first maximal score (`np.argmax`) and indexes the
  label table with it. Opening, resizing and normalising the image (`decode`)
  and the forward pass (`session`) are function parameters.
- **The prediction routes** (`PredictRoutes`).
  - The class `PredictionStore` holds the table as `records: seq<Prediction>`
    and the next id as `nextId`.
  - `Predict` (`POST /predict`) and `PredictMultiple`
    (`POST /predict-multiple`) are methods that append rows.
  - The read routes are pure functions of the table. These are the list
    (`GET /predictions`), the lookup (`GET /predictions/{id}`), the raw image
    (`GET /predictions/{id}/image`) and the label counts (`GET /stats`).

Every route takes the authenticated caller as a plain `userId`. The create
routes take the classifier as a function
`seq<Byte> -> Result<string, ModelError>` that may fail. `Inference.RunModel`
is that function once `decode`, `session` and the label table are fixed.
The label table is an immutable value, so the classifier can only read it.

Two behaviours of the code matter here:

- The server does not check file extensions. Only the web client restricts
  uploads to jpg/jpeg/png/webp. So the model has no "unsupported file type"
  error.
- `predict_multiple` commits each file's row before classifying the next
  one. A classifier failure on file k therefore leaves the rows of files
  0..k-1 stored, and the request still fails. `PredictMultiple` states
  exactly this. The model does not replace it with all-or-nothing batches.

The model hands out ids 1, 2, 3, … in insertion order and keeps the table in
that order. The code leaves both choices to the database (see "## Left out").

## Model

| member | source | states |
|---|---|---|
| PredictionModel.NewPrediction | app/routes/predict.py:45-50 | the new row has the caller as owner, `{filename}` as input_data, `{result}` as output_data, the uploaded bytes as image_data, and the id and timestamp given |
| PredictionModel.IncreasingIdsAreDistinct | app/models/prediction.py:10 | a table kept in insertion order with increasing ids never holds two rows with the same primary key |
| PredictionModel.AppendKeepsIdsIncreasing | app/routes/predict.py:45-52 | inserting a row whose id is at least the next id keeps the ids increasing, and the new bound is that id plus one |
| PredictionSchema.FromOrmWithImage | app/schemas/prediction.py:22-30 | the projection copies id, input_data, output_data and timestamp unchanged; image_url is present iff include_image holds, and then it routes back to the row's id |
| PredictionSchema.ProjectionDefaultsOmitImage | app/schemas/prediction.py:17-23 | include_image defaults to false, and a record built without image_url has none; the two defaults give the same record |
| PredictionSchema.ImageUrl | app/schemas/prediction.py:29 | the link has the form `/predictions/` + numeral + `/image`, where the numeral is canonical: digits only, no leading zero unless it is "0" |
| PredictionSchema.Decimal | app/schemas/prediction.py:29 | the decimal numeral of an id (Python's `str` of a non-negative int) is canonical, and starts with '0' only for the id 0 |
| PredictionSchema.CanonicalDecimalRoundTrip | app/schemas/prediction.py:29 | every canonical numeral is the one written for its own value, so writing an id is a bijection onto canonical numerals |
| PredictionSchema.ParseImageUrl | app/routes/predict.py:76-78 | the image route matches a path iff it is `/predictions/` + a non-empty digit string + `/image`; a match with a canonical numeral is exactly the link built for the id read |
| PredictionSchema.DecimalRoundTrip | app/schemas/prediction.py:29 | reading back the decimal numeral written for an id gives the id |
| PredictionSchema.ImageUrlRoundTrip | app/routes/predict.py:76-82 | the path `/predictions/{id}/image` built for an id is matched by the image route with that same integer id |
| PredictionSchema.ImageUrlInjective | app/schemas/prediction.py:29 | two ids have the same image link iff they are equal |
| Inference.HwcToChw | app/services/inference.py:25 | the transpose of a (h, w, c) array has shape (c, h, w) and chw[c][h][w] == hwc[h][w][c] |
| Inference.TransposeRoundTrip | app/services/inference.py:25 | transposing back with the inverse axis permutation restores the image, so the transpose loses and invents nothing |
| Inference.ExpandDims | app/services/inference.py:26 | the batch has exactly one element, the given array, and an array of shape (d0, d1, d2) becomes one of shape (1, d0, d1, d2) |
| Inference.ModelInput | app/services/inference.py:25-26 | the session's input has shape (1, 3, 224, 224) and input[0][c][h][w] is the image's pixel (h, w) in channel c |
| Inference.ModelInputLayout | app/services/inference.py:25-26 | a (224, 224, 3) image becomes a (1, 3, 224, 224) batch whose only element is the channel-first image |
| Inference.ArgMax | app/services/inference.py:35 | for a non-empty score vector, the index holds a maximum and every earlier score is strictly smaller (ties go to the lowest index) |
| Inference.FirstMaxUnique | app/services/inference.py:35 | an index is the first maximum iff it is the one argmax returns, so the choice is determined |
| Inference.SelectLabel | app/services/inference.py:35-36 | succeeds iff the scores are non-empty and argmax indexes the label table; the label is labels[i] for the first maximum i and is in the table; scores no longer than the table always succeed; empty scores fail with EmptyScores, and an argmax past the table fails with LabelIndexOutOfRange |
| Inference.RunModel | app/services/inference.py:11-36 | a decode failure and a session failure are errors; once both succeed, the answer is exactly SelectLabel of the session's scores on the transposed, batched image; a returned label is in the label table |
| PredictRoutes.Owned | app/routes/predict.py:63 | the filter by user_id keeps exactly the caller's rows |
| PredictRoutes.OwnedKeepsOrder | app/routes/predict.py:63 | the filter keeps the table's order, so when ids increase along the table they increase along the caller's rows |
| PredictRoutes.GetUserPredictions | app/routes/predict.py:57-63 | the list holds one projection of each of the caller's rows and nothing from other users, none has an image_url, and the list follows the table's order (increasing ids when the table's ids increase) |
| PredictRoutes.Summaries | app/routes/predict.py:63 | one record per row, in the same order, with the row's id, input_data, output_data and timestamp and no image_url |
| PredictRoutes.FindOwned | app/routes/predict.py:71 | the lookup finds a row with that id owned by the caller iff one exists |
| PredictRoutes.FindOwnedUnique | app/routes/predict.py:71 | with distinct ids, the lookup for a row's id and owner finds that row |
| PredictRoutes.FindOwnedOnlyCandidate | app/routes/predict.py:82 | with distinct ids, any row matching (id, caller) is the one the image route fetches |
| PredictRoutes.GetPredictionById | app/routes/predict.py:65-74 | succeeds iff some row has that id and the caller as owner, and then returns its projection with the image link; every failure is the same 404 "Prediction not found" |
| PredictRoutes.GetPredictionImage | app/routes/predict.py:76-87 | returns the non-empty bytes stored in the caller's row with that id; with distinct ids it succeeds iff such a row has a non-empty image; every failure is the same 404 "Image not found" |
| PredictRoutes.FoundRowReads | app/routes/predict.py:71-87 | once the lookup finds a row, the detail route answers its projection with the image link, and the image route answers its bytes, or a 404 when it has none or they are empty |
| PredictRoutes.ForeignIdLooksMissing | app/routes/predict.py:71-84 | asking for another user's prediction or its image gives exactly the answer for an id that does not exist |
| PredictRoutes.LabelCount | app/routes/predict.py:130 | a label's count is positive iff some row carries it, and is at most the number of rows |
| PredictRoutes.StatsOf | app/routes/predict.py:129-136 | the group-by maps exactly the labels present to their counts, each at least one |
| PredictRoutes.GetPredictionStats | app/routes/predict.py:124-136 | the caller's stats have exactly the labels of the caller's rows, each count between one and the caller's row count; a caller with no rows gets an empty map |
| PredictRoutes.StatsOfSnoc | app/routes/predict.py:129-136 | one more row raises its label's count by one (from zero for a new label) and leaves the other counts |
| PredictRoutes.StatsOfTotal | app/routes/predict.py:129-136 | the counts of a group-by add up to the number of rows counted |
| PredictRoutes.StatsSumToOwnedCount | app/routes/predict.py:129-136 | the caller's counts add up to the caller's number of predictions |
| PredictRoutes.OwnedSnoc | app/routes/predict.py:51-63 | after an insert, the filtered list is the old one plus the new row if the caller owns it |
| PredictRoutes.FindOwnedSnoc | app/routes/predict.py:51-71 | an insert does not change a lookup of any other id |
| PredictRoutes.CreateThenRead | app/routes/predict.py:45-84 | after inserting a row with a new id, its owner reads back its projection and its exact bytes (a 404 if the upload was empty), and every other user gets the answers for a missing id |
| PredictRoutes.CreateKeepsEarlierReads | app/routes/predict.py:51-52 | an insert changes no answer of the id-based routes for earlier ids |
| PredictRoutes.CreateAppendsToOwnersList | app/routes/predict.py:51-63 | an insert appends one entry, without image link, to its owner's list and changes no other user's list |
| PredictRoutes.CreateBumpsOwnersStats | app/routes/predict.py:129-136 | an insert raises its label's count in its owner's stats by one (from zero for a new label) |
| PredictRoutes.CreateKeepsOthersStats | app/routes/predict.py:129-136 | an insert leaves every other user's stats unchanged |
| PredictRoutes.ClassifiedPrefix | app/routes/predict.py:100-102 | counts the files, from the first, that the classifier labels before it first fails |
| PredictRoutes.BatchEntries | app/routes/predict.py:115-120 | one entry per file in input order, with the file's name and label; ids and image links are pairwise distinct |
| PredictRoutes.BatchRecords | app/routes/predict.py:105-111 | one row per file in order: id firstId + i, the caller as owner, the file's name and bytes, the label the classifier returned for those bytes, and the time of insert i |
| PredictRoutes.BatchRecordsIds | app/routes/predict.py:105-113 | a batch stores one row per classified file, owned by the caller, with consecutive increasing ids |
| PredictRoutes.BatchEntryMatchesRow | app/routes/predict.py:105-120 | entry j has the id, filename and label of the row stored for file j, which holds file j's bytes; its image_url is the projection's link for that row and routes back to prediction_id |
| PredictRoutes.BatchReadBack | app/routes/predict.py:105-120 | after a batch, the owner's lookup of the id returned for file j gives that row's projection, and the image route returns file j's bytes (a 404 for an empty file) |
| PredictRoutes.PredictionStore.Predict | app/routes/predict.py:37-53 | on success, exactly one row is appended (caller as owner, {filename}, {result}, the uploaded bytes, the next id and the given time) and {result} is returned; a classifier failure writes nothing; the table stays valid |
| PredictRoutes.PredictionStore.PredictMultiple | app/routes/predict.py:92-122 | rows are appended for the files classified before the first failure, in order and with consecutive ids, and earlier rows are untouched; with no failure the answer is the list of entries for every file, otherwise the first failure's error |

## Left out

- Authentication (`get_current_user`, app/routes/predict.py:28-35). JWT decoding and the user lookup are not part of this model. The caller's id is a parameter, so a token whose user no longer exists is not modelled.
- The authentication routes (app/routes/auth.py), the application wiring (app/main.py) and the web client (streamlit_app.py) are not part of this model.
- Image opening, RGB conversion, resizing and the float32 normalisation by mean and std (app/services/inference.py:13-22) are the `decode` parameter of `RunModel`. It is assumed to return a (224, 224, 3) image or fail. Floating-point arithmetic is not modelled.
- The ONNX session (app/services/inference.py:7, 32-33) is the `session` parameter. Its scores are integers, because only their order matters to argmax. NaN scores, which numpy's argmax treats specially, are not modelled.
- Inference.RunModel: the final `astype(np.float32)` (app/services/inference.py:29) does not change the values in this model, because the element type is generic.
- Database mechanics are not modelled: the session, `commit`, `refresh` and `get_db`. A failing commit is not modelled either: the model's inserts always succeed.
- Response formatting is not modelled: `StreamingResponse` with its `image/jpeg` media type and `Content-Disposition` header, `JSONResponse`, and the mapping of an unhandled exception to a 500 response.
- The timestamp is an opaque value from the caller: `now` for `Predict` and `clock(i)` for file i in `PredictMultiple`. The wall clock (`datetime.utcnow`) is not modelled.
- Concurrent requests are not modelled: each operation runs alone on the table.
- The list order and the id values are fixed by the model, not by the code. `get_user_predictions` has no `order_by` (app/routes/predict.py:63), and the ids come from the database engine, which is not part of this model. The model keeps rows in insertion order and numbers them 1, 2, 3, … in that order. Every "order" property of `GetUserPredictions` and `OwnedKeepsOrder` rests on that choice.
- PredictionSchema.ParseImageUrl: the path parameter is read as a plain digit string. Signs, surrounding spaces or digit separators that the framework's integer conversion may also accept are not modelled. Such a path would name a negative id or one written non-canonically, and a negative id matches no row.
- `PredictionInput` (app/schemas/prediction.py:6-7) is not used by any core route, so the model leaves it out.
- The JSON columns `input_data` and `output_data` are typed records holding only the keys the routes write.
