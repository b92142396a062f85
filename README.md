# Breast cancer treatment recommender: decision path

This project models, in Dafny, the decision path of the Streamlit page
`chemo_app.py`. The page asks for nine clinical inputs and a treatment
(Chemotherapy, Hormone Therapy or Radiotherapy). It then:

1. encodes ER, PR and HER2 status as 1 for `"Positive"` and 0 for anything
   else, and the menopausal state as 1 for `"Post"` and 0 for anything else;
2. packs the nine values into a dictionary in a fixed key order (Age, Tumor
   Size, Tumor Stage, Histologic Grade, ER, PR, HER2, Nodes positive,
   Menopausal state), turns it into a one-row table and re-selects its
   columns by the dictionary's own key order;
3. hands the table to the shared scaler;
4. picks the classifier for the chosen treatment: `"Chemotherapy"` picks
   the chemotherapy model, `"Hormone Therapy"` the hormone model, and
   every other string the radiotherapy model;
5. when Predict is pressed, takes the classifier's label and positive-class
   probability `p`. Label 1 shows "recommended" with confidence `p*100`.
   Any other label shows "not needed" with confidence `100 - p*100`. An
   exception during scoring shows the error message instead.

The modules follow that structure:

- `Wrappers` (`wrappers.dfy`): `Option` and `Result`. `Err` carries the
  text of the exception raised.
- `Features` (`features.dfy`): the categorical encoders, the one-row table
  as a sequence of named columns, pandas-style column selection, and the
  encoder `Encode` with its canonical row `FeatureRow`.
- `Dispatch` (`dispatch.dfy`): the treatment-to-model selection and the
  registry of the three loaded models.
- `Decision` (`decision.dfy`): the classifier as two opaque scoring calls,
  `Score`, the confidence rule, and the outcome of one press of Predict.
- `App` (`app.dfy`): one run of the page, from inputs to what is shown.

The scaler and the classifiers are parameters. A classifier is a pair of
total functions that return a `Result`, so any exception they raise is
modelled. A probability of `[0, 1]` is assumed only where a lemma needs it
(`ProbabilitiesInRange`). Python floats are modelled as `real`.

On the negative branch, line 79 subtracts the percentage computed at
line 74 from 100 once, so the figure shown is `(1 - p) * 100`.
`ConfidenceOfPredictedLabel` proves that this is 100 times the probability
of the label actually predicted.

The code does no length or order check before `scaler.transform`
(chemo_app.py:60). `Encode` proves that the scaler always gets the
dictionary's own nine keys (chemo_app.py:47-55), in the dictionary's key
order, because re-selecting the columns at line 59 changes nothing.

## Model

| member | source | states |
|---|---|---|
| `Features.EncodeStatus` | chemo_app.py:40-42 | the flag is 0 or 1, and it is 1 exactly when the status is "Positive"; defined for every string |
| `Features.EncodeMenopause` | chemo_app.py:43 | the flag is 0 or 1, and it is 1 exactly when the state is "Post"; defined for every string |
| `Features.StatusOnWidgetValues` | chemo_app.py:33-35 | on the two radio choices, the status flag is 0 exactly for "Negative" |
| `Features.MenopauseOnWidgetValues` | chemo_app.py:37 | on the two radio choices, the menopausal flag is 0 exactly for "Pre" |
| `Features.Names` | chemo_app.py:58 | the key list has one name per column, position by position |
| `Features.Values` | chemo_app.py:57 | the row has one value per column, position by position |
| `Features.Lookup` | chemo_app.py:59 | looking up a column fails exactly when the name is not among the table's columns |
| `Features.LookupFindsFirst` | chemo_app.py:59 | a successful lookup returns the value of the first column with that name |
| `Features.SelectColumns` | chemo_app.py:59 | selection succeeds exactly when every requested name is a column; the result has the requested names, in the requested order, each with that column's value |
| `Features.LookupOwnName` | chemo_app.py:58-59 | in a table with distinct names, each column's own name finds that column's value |
| `Features.SelectOwnOrderFrom` | chemo_app.py:58-59 | with distinct names, re-selecting any suffix of the table's own key list returns that suffix of the table |
| `Features.SelectOwnOrder` | chemo_app.py:57-59 | with distinct names, re-selecting by the table's own key order returns the table unchanged |
| `Features.FeatureNamesDistinct` | chemo_app.py:47-55 | no two of the nine feature names are equal |
| `Features.InputDict` | chemo_app.py:46-56 | the dictionary's keys are the nine feature names, in literal order, with no name twice |
| `Features.InputDictValues` | chemo_app.py:46-56 | the dictionary's values, in key order, are the canonical row: age, size, stage, grade, the three receptor flags, nodes and the menopausal flag |
| `Features.Encode` | chemo_app.py:46-59 | encoding never fails; the table handed to the scaler has exactly the dictionary's nine keys, in key order, and its row is the encoded inputs in canonical order |
| `Features.FeatureRow` | chemo_app.py:40-59 | the row handed on is the canonical row: 9 entries, where age, size, stage, grade and nodes pass through unchanged and entries 4-6 and 8 are the encoded flags |
| `Features.RowOnWidgetRanges` | chemo_app.py:29-36 | on widget-range inputs, each pass-through entry stays within its widget's bounds |
| `Features.FlagsOnWidgetChoices` | chemo_app.py:33-43 | on widget choices, entries 4-6 are 0 exactly for "Negative" and entry 8 is 0 exactly for "Pre" |
| `Features.FlagsAreBits` | chemo_app.py:40-55 | entries 4, 5, 6 and 8 are always 0 or 1 |
| `Features.EntryDependsOnItsInput` | chemo_app.py:40-56 | each entry depends only on the input that feeds it |
| `Features.OnlyItsEntryChanges` | chemo_app.py:40-56 | changing one input leaves the other eight entries unchanged |
| `Features.MenopauseChangesLastEntry` | chemo_app.py:43-55 | changing the menopausal state rewrites entry 8 to the new flag and leaves entries 0-7 unchanged |
| `Dispatch.SelectModel` | chemo_app.py:63-68 | "Chemotherapy" selects exactly the chemo model; "Hormone Therapy" selects exactly the hormone model; every other string selects the radio model |
| `Dispatch.OptionFor` | chemo_app.py:26 | each model's treatment name is one of the selector's options |
| `Dispatch.SelectModelInvertsOptionFor` | chemo_app.py:26-68 | the option naming a treatment selects that treatment's model |
| `Dispatch.OptionsReachDistinctModels` | chemo_app.py:26-68 | the three selector options select three different models |
| `Dispatch.ModelFor` | chemo_app.py:63-68 | the model used is the chemo, hormone or radio model of the registry, chosen as above |
| `Decision.Score` | chemo_app.py:73-74 | scoring succeeds exactly when both calls return and their results can be indexed; it then yields the first label and the first row's positive-class probability |
| `Decision.Predict` | chemo_app.py:71-84 | exactly one outcome: the error message when scoring raises, "recommended" when the label is 1, "not needed" otherwise; the two messages carry the chosen treatment and the confidence rule's figure |
| `Decision.ConfidenceInRange` | chemo_app.py:74-79 | a probability in [0, 1] gives a confidence in [0, 100] on both branches |
| `Decision.ConfidenceOfPredictedLabel` | chemo_app.py:74-79 | the confidence is 100 times the probability of the predicted label: `p*100` for label 1 and `(1-p)*100` for label 0 |
| `Decision.ConfidenceAtLeastHalf` | chemo_app.py:74-79 | when the label agrees with the probability at 0.5, the confidence is between 50 and 100 |
| `Decision.PredictConfidenceInRange` | chemo_app.py:72-79 | a classifier whose probabilities lie in [0, 1] never leads to a confidence outside [0, 100] |
| `Decision.RecommendedExample` | chemo_app.py:76-77 | label 1 with probability 0.82 gives "recommended" at 82 |
| `Decision.NotNeededExample` | chemo_app.py:78-79 | label 0 with probability 0.30 gives "not needed" at 70 |
| `App.Run` | chemo_app.py:57-84 | a failure in the scaler ends the run with no outcome; otherwise the run is idle without a press, and a press shows exactly the outcome of the model selected for the chosen treatment on the scaled row |
| `App.RunConfidenceInRange` | chemo_app.py:60-79 | with classifiers whose probabilities lie in [0, 1], a shown recommendation has a confidence in [0, 100], whatever treatment is chosen |
| `App.SelectedModelInRange` | chemo_app.py:63-68 | if all three loaded models keep their probabilities in [0, 1], so does the selected one |
| `App.PressShowsErrorOnlyWhenScoringRaises` | chemo_app.py:71-84 | once scaling has succeeded, a press always shows an outcome, and that outcome is the error message exactly when scoring with the selected model raised |
| `App.ScalerSeesCanonicalColumns` | chemo_app.py:57-60 | the scaler always receives the dictionary's nine keys in key order, holding the canonical row |
| `App.CanonicalRowExample` | chemo_app.py:40-59 | age 50, size 20, stage 1, grade 1, ER+, PR+, HER2-, no nodes, Pre encodes to [50, 20, 1, 1, 1, 1, 0, 0, 0] |

## Left out

- Features.Lookup: its own contract says only when a lookup fails. The
  value it returns, that of the first column with the name, is stated by
  the lemma `LookupFindsFirst`. Kept out of the contract because every
  proof that mentions the encoded table would otherwise carry it.
- The Streamlit page setup, sidebar, widgets and message rendering
  (chemo_app.py:14-37, 71, 77, 79, 84) are UI. The widget bounds appear
  only as the `WidgetRange` precondition of two lemmas. The Predict button
  is a boolean input to `App.Run`.
- Loading the three models and the scaler with `joblib.load`
  (chemo_app.py:8-11) is file I/O with opaque deserialisation. The loaded
  objects are the parameter `App.Loaded`, and a failed load is not modelled.
- `scaler.transform`, `model.predict` and `model.predict_proba`
  (chemo_app.py:60, 73-74) are foreign library calls. They are opaque
  function parameters whose only modelled behaviour is to return a value
  or raise.
- That the scaler and the classifiers were fitted on these nine columns in
  this order is an assumption about the loaded artifacts (chemo_app.py:8-11),
  which are opaque; the model proves only which columns, in which order,
  the scaler receives.
- pandas table mechanics (chemo_app.py:57-59) are modelled as a one-row
  table: a sequence of named columns, each with a single value. The model
  keeps the column re-selection and its KeyError path, but not dtypes, the
  index, or tables with a repeated column name (where pandas returns every
  column of that name and the model only the first; the dictionary literal
  cannot produce one).
- The two-decimal formatting of the confidence, the emoji and markdown of
  the messages, and the exact text Python gives an exception
  (chemo_app.py:77, 79, 84) are string formatting. An outcome carries the
  treatment, the confidence as a `real`, or the error prefix followed by
  the exception's text.
- Floating-point rounding in `p * 100` and `100 - p * 100` is not
  modelled, because the arithmetic is exact over `real`.
- The label is modelled as an `int` compared with 1. Labels of other
  numeric types are not modelled.
- The matplotlib import and the SHAP mentions are unused by the code
  (chemo_app.py:5, 70, 84).
