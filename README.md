# NYC real-estate price advisor: feature aligner and importance panel

The advisor is a one-page form. It collects a listing's attributes, turns them
into the feature vector a trained regression model expects, and shows a
predicted nightly price and a chart of the seven most important features.
This project models the two pieces of that flow that hold logic:

- **The feature aligner** (`preprocess_input`). The input dictionary becomes a
  one-row frame. pandas `get_dummies` then one-hot encodes it: every string
  attribute `a` with value `v` becomes an indicator column `a_v` holding 1, and
  numeric attributes stay as they are. Finally the frame is reindexed onto the
  model's feature list, and every expected column the input did not produce
  is filled with 0. Module `FeatureAligner` (feature_aligner.dfy) states each
  of those steps as a function. `GetDummies` builds the encoded frame; its
  definition puts the untouched numeric columns first and the indicator
  columns after them, as pandas does. `Reindex` aligns it, and
  `PreprocessInput` composes the two.
- **The form's input record** (module `PricingForm`, pricing_form.dfy).
  `InputRecord` is the dictionary the predict button builds from the two
  categorical and eight numeric form fields (app.py:132-143). Lemmas show
  that the aligner always succeeds on it, that an unseen category leaves its
  indicator block at 0, and that the worked Brooklyn examples align to the
  expected vectors.
- **The importance panel** (module `Importance`, importance.dfy). Feature names
  are paired positionally with the model's importance weights. The pairs are
  sorted ascending by weight, and the last seven are kept.

`Wrappers` (wrappers.dfy) holds the `Result` type used for pandas' exceptions.

Alignment is meant to be total, but the pandas calls it rests on can raise:

- Reindexing raises "cannot reindex on an axis with duplicate labels" when
  two encoded columns share a label. For example, attributes `a = "b_c"` and
  `a_b = "c"` both give `a_b_c`. The one exception is a frame whose labels already equal the feature
  list exactly: it is returned unchanged.
  `Reindex` models both cases: `Err(DuplicateLabels)` and the positional copy.
  `FormHasNoCollisions` shows that the form's own record can never hit the
  error.
- A record with no attributes gives a frame with no columns. `get_dummies`
  then has nothing to concatenate and raises. `PreprocessInput` returns
  `Err(NoColumns)` for it. The form never sends an empty record.
- Building the importance table raises when the name list and the weight list
  differ in length (`Err(LengthMismatch)`).

## Model

| member | source | states |
|---|---|---|
| `FeatureAligner.PreprocessInput` | app.py:97-111 | on success the vector has exactly one entry per feature name; an empty record, and only an empty record, fails with `NoColumns`; a `DuplicateLabels` failure implies two attributes produce the same column label; a non-empty record without such a collision always succeeds and looks each feature up by name |
| `FeatureAligner.GetDummiesPermutes` | app.py:104-105 | the one-hot encoded frame holds exactly one column per input attribute (the value itself for a number, `attr_level` = 1 for a string), only reordered (the order, numeric columns first, comes from `GetDummies`'s definition, not from this contract) |
| `FeatureAligner.Reindex` | app.py:107-109 | reindexing fails only when the frame has a repeated label; with unique labels the result is the by-name lookup with 0 fill, including when the frame already has exactly the feature list's labels |
| `FeatureAligner.PositionalIsLookup` | app.py:109 | a frame whose labels already are the feature list and are unique gives the same vector as looking every feature up |
| `FeatureAligner.UniqueLabelsIff` | app.py:105-109 | pandas' unique-label test on the encoded frame holds exactly when no two record entries produce the same column label |
| `FeatureAligner.PreprocessColumn` | app.py:107-109 | for a non-empty record without label collisions, entry `i` belongs to `features[i]`: it is the value of the column the record produces under that name, or 0 when none does |
| `FeatureAligner.NumericLands` | app.py:102-109 | a numeric attribute whose name is a feature lands in that column with its value unchanged |
| `FeatureAligner.CategoryLands` | app.py:104-109 | a categorical attribute `a` with level `v` sets column `a_v` to 1 when that column is a feature |
| `FeatureAligner.FillZero` | app.py:108-109 | whenever alignment succeeds, every feature no attribute produces is 0 (unseen categories and missing inputs alike), with no error |
| `FeatureAligner.DropsExtras` | app.py:109 | for a non-empty record, with no label collision, an added attribute whose column is not a feature has no effect on the result: extra inputs are dropped |
| `FeatureAligner.KeyOrderIrrelevant` | app.py:102-109 | for a record with no label collision, permuting its attributes changes neither success nor the vector; column order comes from the feature list alone |
| `PricingForm.FormHasNoCollisions` | app.py:132-146 | for any neighbourhood and room-type choice, the form's record produces distinct labels, so alignment succeeds for every feature list |
| `PricingForm.UnseenCategoryIsZero` | app.py:132-146 | any neighbourhood or room-type indicator column for a level other than the one chosen is 0, whatever the feature list |
| `PricingForm.BrooklynAlignment` | app.py:132-146 | a Brooklyn listing aligns against the example feature list to its eight numeric values in order, then 1 for Brooklyn, 0 for Manhattan, and the two room-type indicators: 1 for the chosen type if it is "Entire home/apt" or "Private room", and 0 for the other (both 0 for any other type) |
| `PricingForm.BrooklynExample` | app.py:132-146 | the entire-home example aligns to `[40.71, -73.98, 2, 10, 1.5, 1, 150, 14, 1, 0, 1, 0]` |
| `PricingForm.SharedRoomExample` | app.py:132-146 | a shared room, which has no column, sets both room-type indicators to 0 |
| `Importance.ImportanceTable` | app.py:167-169 | building the name/weight table succeeds exactly when both lists have the same length |
| `Importance.SortByWeight` | app.py:170 | the rows come out ascending by weight and as a permutation of the input rows |
| `Importance.Insert` | app.py:170 | inserting a row into sorted rows keeps them sorted and adds exactly that row |
| `Importance.Tail` | app.py:170 | keeps the last `min(n, len)` rows of the table, in their order |
| `Importance.TailIsHeaviest` | app.py:170 | the last `n` rows of sorted rows are sorted, are rows of the input, and no row before them weighs more than any of them |
| `Importance.TopImportances` | app.py:166-170 | the panel shows `min(7, number of features)` rows, ascending by weight, each a row of the table; every row left out weighs no more than every row shown; it fails only on a length mismatch |
| `Importance.SelectionKeepsPairing` | app.py:167-170 | each row shown pairs `names[i]` with `weights[i]` for one position `i` |

## Left out

- Page configuration, CSS, sidebar widgets, layout, the metrics panel and the footer. These are presentation only. The widgets' value ranges are not carried into `PricingForm.InputRecord`; its lemmas hold for any values.
- Loading the model file with `joblib.load` and the framework's resource cache, including the "model file not found" message. This is file I/O. The feature list and the importance weights are parameters instead.
- `model.predict`, `np.expm1` and the fixed ±37 reliability range. The first is a foreign estimator; the other two are floating-point display arithmetic.
- The `hasattr(model, 'feature_importances_')` capability test. The model takes the weights as given; a model without weights simply draws no chart.
- The Plotly chart, `time.sleep` and the spinner.
- The CSV batch upload. It is file I/O, and the feature behind it is an unimplemented stub.
- Floating-point numbers. Values are exact `real`s.
- Dtypes. Indicator cells are modelled as 1 (pandas stores `True`), fill cells as 0.
- Value kinds. Attribute values are numbers or strings: booleans, missing values and other pandas dtypes are not modelled.
- `Importance.SortByWeight`: rows with equal weights come out in one fixed order. The source's sort is unstable and promises no order among ties, so the model only claims sortedness and permutation.
