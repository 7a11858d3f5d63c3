# Fertilizer recommendation: feature alignment and result resolution

This project models the logic of a small Streamlit front-end for fertilizer
recommendations. The front-end takes eight form fields: soil type, crop type,
temperature, humidity, nitrogen, phosphorous, potassium and moisture. It turns
them into the one-row feature frame a trained classifier expects, asks the
classifier for a fertilizer label, and shows that label with an image and an
English and a Hindi description.

The model has three modules:

- `Frame` (`frame.dfy`) is a one-row data frame: an ordered sequence of
  (label, value) columns. It models the pandas operations the app uses:
  - `frame[labels]` is `Select`.
  - Building a frame from the encoder output and assigning its `.columns` is `Labelled`.
  - The list comprehension that picks which columns to drop is `KeepPresent`.
  - `drop(columns=...)` is `Drop` and `Without`.
  - `reindex(columns=..., fill_value=0)` is `Reindex`.
  
  Values are opaque: nothing is computed on them. The one value the frame
  produces itself is `Zero`, the reindex fill value.
- `Recommender` (`recommender.dfy`) is `recommend_fertilizer`. It builds the
  named input row, runs the encoding stage, puts the encoder's columns in front
  of the six measurements, aligns the row to the training schema and asks the
  classifier. Each stage that can fail has its own sentinel answer: "Encoding
  Error", "Column Matching Error" or "Prediction Error". The first failing
  stage decides the answer.
  - The fitted encoder is a pair of function values that may fail
    (`transform`, `featureNamesOut`). So is the classifier (`predict`). Nothing
    is assumed about how they work inside.
  - The training column list is a parameter. Loading these artifacts from disk
    is not part of the model.
- `Display` (`display.dfy`) is the result area.
  - It shows nothing when the answer is one of the three sentinels.
  - The image table and the description table are `map` constants with the
    app's own entries.
  - The image is looked up with a "Default" fallback.
  - The date-shaped label "10/26/2026" is renamed to "10-26-26" before the
    description lookup, which also falls back to "Default".
  - Inside the chosen entry, each language has its own fallback text.

Two things in the code are easy to miss, and the model keeps both:

- The two tables key the 10-26-26 fertilizer differently. The image table uses
  "10/26/2026" and the description table uses "10-26-26". The description key
  is renamed but the image key is not. So the label "10/26/2026" gets its own
  image and description. The label "10-26-26" gets its own description but
  only the Default image.
- Three less obvious failures are caught by the same guards, so they too give
  "Encoding Error", "Column Matching Error" or "Prediction Error":
  - The encoder names a different number of columns than it produced. This is
    a length mismatch when `.columns` is assigned, so it is an encoding error.
  - The classifier returns nothing. Then `[0]` fails, so it is a prediction error.
  - The reindex fails because the combined row has duplicate labels. This is
    "Column Matching Error".

The rename is a single `if` in the code, inside the display logic, and the
model keeps it that way. It is not a separate table of renames.

## Model

| member | source | states |
|---|---|---|
| Frame.Lookup | app.py:59 | the value under a label: Zero when no column has that label; with distinct labels, the value of the column that has it |
| Frame.Select | app.py:43 | selecting the categorical columns succeeds exactly when every requested label is present; the result is labelled by the requested labels in order and carries the frame's value under each |
| Frame.Labelled | app.py:43-45 | labelling the encoder output succeeds exactly when the name count equals the value count; the result carries the names in order and the values by position |
| Frame.KeepPresent | app.py:52 | a label is kept exactly when it is wanted and present; the result is no longer than the wanted list; when every wanted label is present the result is the wanted list itself |
| Frame.Without | app.py:53 | removing the columns with given labels never lengthens the row (its members and order are stated by the three lemmas below) |
| Frame.WithoutMembers | app.py:53 | a column survives dropping exactly when its label is not dropped |
| Frame.WithoutNone | app.py:53 | a row in which no column carries a dropped label comes back unchanged |
| Frame.WithoutConcat | app.py:53-54 | dropping distributes over concatenation, so the surviving columns keep their order |
| Frame.Drop | app.py:53 | dropping fails exactly when a label to drop is absent; otherwise it removes every column carrying a dropped label |
| Frame.Reindex | app.py:58-62 | reindexing fails exactly when the row has a duplicated label and its labels are not already the schema; a row whose labels already are the schema comes back unchanged; on success the labels of the result are exactly the schema, in order, so columns outside the schema are gone |
| Frame.ReindexAligns | app.py:56-59 | zero-fill law: with distinct labels, reindexing succeeds; position i is labelled schema[i]; it holds the row's value when the row has that label and Zero when it does not |
| Frame.ReindexConcat | app.py:54-59 | for a row built by concatenation with distinct labels, a column of either part whose label the schema names reaches the aligned row with its value |
| Frame.ReindexIdempotent | app.py:59 | reindexing an aligned row to the same schema changes nothing |
| Recommender.InputRow | app.py:30-39 | the input row is labelled Soil_Type, Crop_Type, Temperature, Humidity, Nitrogen, Phosphorous, Potassium, Moisture, in that order, and its eight labels are distinct |
| Recommender.InputRowLayout | app.py:30-39 | the input row is the two categorical columns followed by the six measurements |
| Recommender.SelectCategorical | app.py:43 | the encoder is handed exactly the Soil_Type and Crop_Type columns of the submission, in that order |
| Recommender.Encode | app.py:42-48 | encoding succeeds exactly when transform and feature naming both succeed and agree in length; the encoded row is labelled by the feature names and carries transform's values by position |
| Recommender.DropCategorical | app.py:50-53 | the categorical labels picked for dropping are both of them; dropping cannot fail and leaves exactly the six measurement columns in input order with their values unchanged |
| Recommender.Combine | app.py:50-54 | the combined row is the encoder's columns followed by Temperature, Humidity, Nitrogen, Phosphorous, Potassium and Moisture with the submitted values |
| Recommender.RecommendFertilizer | app.py:28-70 | an encoding failure answers "Encoding Error"; otherwise a reindex failure answers "Column Matching Error"; otherwise the answer is the classifier's first label on the aligned row, or "Prediction Error" when the classifier fails or answers no label |
| Recommender.EncodingFailureStops | app.py:46-48 | after an encoding failure the answer is "Encoding Error" whatever the schema and the classifier, so neither later stage influences it |
| Recommender.ColumnMatchingFailureStops | app.py:58-62 | after a reindex failure the answer is "Column Matching Error" whatever the classifier |
| Recommender.AlignCombined | app.py:54-59 | when the encoder's labels are distinct and none is a measurement name: alignment succeeds; the aligned row is labelled by the schema; each schema-named measurement holds the submitted value; each schema-named encoder column holds the encoder's value; every other schema column is Zero |
| Recommender.AlignMeasurements | app.py:54-59 | each measurement the schema names reaches the aligned row with its submitted value |
| Recommender.AlignEncoded | app.py:54-59 | each encoder column the schema names reaches the aligned row with the encoder's value |
| Recommender.CombinedNames | app.py:54 | the combined row's labels are the encoder's labels followed by the six measurement names |
| Recommender.AnswerCarriesLabel | app.py:64-70 | an answer that is none of the three sentinels comes only from a request in which encoding, alignment and prediction all succeeded; it is the classifier's first label on the aligned row |
| Recommender.PredictionStage | app.py:58-70 | past a clean encoding and a successful reindex, the classifier sees a row labelled exactly by the schema, and only its answer on that row matters: two classifiers that agree on it give the request the same answer |
| Display.ImagePath | app.py:200 | a label in the image table gets its own path; any other label gets "images/default.jpg" |
| Display.DescriptionKey | app.py:220-222 | the label "10/26/2026" is looked up as "10-26-26"; every other label is looked up as itself |
| Display.Description | app.py:220-223 | the entry under the normalised key, else the Default entry; either way the entry has an English and a Hindi text |
| Display.English | app.py:226 | the entry's English text when it has one, else "Not available." |
| Display.Hindi | app.py:228 | the entry's Hindi text when it has one, else the Hindi fallback text |
| Display.EntriesComplete | app.py:89-127 | both tables have a Default entry, and every description entry, Default included, has exactly the languages "en" and "hi" |
| Display.Resolve | app.py:191-228 | something is displayed exactly when the answer is none of the three sentinels; then it shows the label, its resolved image and the entry's own English and Hindi texts, never the per-language fallbacks |
| Display.DateLabelResolves | app.py:220-223 | the label "10/26/2026" shows the 10-26-26 image and the 10-26-26 description, which differs from the Default description |
| Display.TableKeysDiffer | app.py:75-127 | the image table keys "10/26/2026" but not "10-26-26"; the description table keys "10-26-26" but not "10/26/2026" |
| Display.HyphenLabelAsymmetry | app.py:191-228 | the label "10-26-26" shows its own description but the Default image |
| Display.TablesAgree | app.py:75-127 | every image-table label has a description entry after normalisation; every description key except "10-26-26" is an image-table label |
| Display.UnknownLabelResolves | app.py:200-228 | a label in neither table, not a sentinel and not renamed, shows the Default image and the Default English and Hindi texts |

## Left out

- Page layout, CSS, title, sidebar form, expanders, introductory and footer
  text (app.py:130-185, 233-254). These are presentation only.
- Loading the model, encoder and column list from disk, and stopping the app
  when that fails (app.py:13-25). This is file I/O and process control. The
  three artifacts are parameters of the model instead.
- How the fitted encoder and the random-forest classifier work inside. They
  are opaque function values that may fail.
  - No one-hot behaviour is assumed. So no property states which indicator
    columns a given soil type and crop type set to 1.
  - The choice between rejecting an unseen category and encoding it as all
    zeros is the encoder's own. A failing `transform` stands for the first
    choice.
- Rendering the image and retrying with the default image when the file is
  missing (app.py:201-214). This is file I/O. The model stops at the resolved
  path.
- Float semantics of temperature and humidity, and the widget bounds
  (app.py:173-180). The values are only passed on, so they are reals here.
- The sorted option lists of the form (app.py:166-167). This is UI
  configuration.
- Frame.Select: when the frame has a duplicated label, pandas selects every
  column with that label, but the model takes only the first. The app only
  selects from the eight-column input row, whose labels are distinct
  (InputRowLayout), so this case never arises.
- Frame.Reindex: of the ways pandas reindexing can fail, only the
  duplicate-label ValueError is modelled. A row whose labels already equal the
  schema comes back unchanged even with duplicate labels, as in pandas.
- Error messages written to the page (`st.error`, `st.warning`) are not
  modelled. Only the answers and the display outcome are.
- Recommender.AnswerCarriesLabel: this lemma starts from an answer that is no
  sentinel. A classifier that itself answered one of the three sentinel
  strings would get the warning, just like a real failure.
