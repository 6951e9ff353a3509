# Customer churn pipeline — a Dafny model

This project models the data path of a customer-churn service written in Python with
pandas, scikit-learn and FastAPI:

- **CSV ingestion.** A frame is accepted or rejected by its share of missing cells. A path
  is dispatched to a loader by its `pathlib` suffix.
- **Training preprocessor (`StandardDataPreprocessor`).** A fit-once, transform-many object.
  It drops `customer_id`, imputes with median and mode, label-encodes the categorical
  columns and the target, and standard-scales the numeric columns. Its first call freezes
  everything it learnt.
- **Serving preprocessor.** `PredictionPreprocessor`, plus `create_simple_preprocessor`,
  which presets one with fixed vocabularies, a fixed 13-column feature order and a scaler
  fitted on a fixed sample.
- **Model selection (`ModelTrainer`).** A fixed roster of four classifiers. It keeps the one
  with the strictly highest F1 across calls.
- **Prediction API.** The globals set at start-up. The guard on both predict endpoints. The
  `"Yes"`/`"No"` and High/Medium/Low labelling of a churn probability, for one customer and
  for a batch.

How the model is represented:

- **Frames.** A pandas frame is a row count plus an ordered sequence of named, typed columns
  (`Frames`). Cells are missing, a number or a string.
- **Floats.** Floating-point values are Dafny `real`s.
- **Foreign code.** The scikit-learn estimators are not computed. The scaler's statistics
  (`moments`) are a function parameter. A classifier's test metrics, or its training
  exception (`scores`), are a parameter. `predict_proba` is a parameter.
- **Objects.** Objects whose fields the source updates are Dafny classes.
  - Each method is specified by a function of the old state and its inputs.
  - Every property is proved about those functions.
- **Failures.** A step that can raise returns a `Result` carrying the fixed text of the
  exception's message. The values that scikit-learn and NumPy interpolate into it are dropped
  (see "## Left out").
  A failure halfway through `preprocess` leaves the fields the earlier steps already wrote.
  One case differs from the Python object: an encoder whose first fit fails (see
  "## Left out").

Files:

- **Shared:** `wrappers.dfy` (Option, Result), `text.dfy` (code-point order, sorted
  vocabularies, ASCII lower-casing), `statistics.dfy` (median, mode), `frames.dfy`
  (frames, column selection, dropping, padding and alignment).
- **scikit-learn pieces:** `label_encoding.dfy` (`LabelEncoder`), `scaling.dfy`
  (`StandardScaler`).
- **Core:**
  - `imputation.dfy`: training-time missing values.
  - `training_preprocessor.dfy`: `StandardDataPreprocessor`.
  - `serving_preprocessor.dfy`: `PredictionPreprocessor` and `create_simple_preprocessor`.
  - `model_trainer.dfy`: `ModelTrainer`.
  - `data_ingestion.dfy`: validation, loading and the factory.
  - `api.dfy`: the service.

Where the source behaves unexpectedly, the model follows the code:

- **Target labels.** On later `preprocess` calls, the target column is transformed without
  the unseen-value substitution the feature columns get. A new label therefore raises.
- **Fallback to unscaled output.** The serving preprocessor returns the frame unscaled when
  the scaler refuses it. It does not raise.
- **Retained globals.** `load_model_and_preprocessor` assigns `model` and `preprocessor`
  only when their own step succeeds. A failed reload therefore keeps the previous ones, but
  sets `model_loaded` to false.
- **Empty batch.** A batch with no customers becomes a frame with no rows and no columns.

## Model

| member | source | states |
|---|---|---|
| Text.SortedDistinct | src/features/prediction_preprocessor.py:130-133 | `LabelEncoder.fit` vocabulary: strictly sorted by code point and holding exactly the fitted values |
| Text.SortedUnique | src/features/prediction_preprocessor.py:130-133 | two strictly sorted vocabularies with the same elements are equal, so `classes_` is determined by the set of fitted values |
| Text.Position | src/features/data_preprocessing.py:185 | the code of a known value is the index holding it, and no earlier index holds it |
| Text.PositionUnique | src/features/data_preprocessing.py:185 | in a sorted vocabulary each element's code is its only index |
| Text.Lower | src/data/data_ingestion.py:84 | `str.lower()` maps each ASCII capital to its small letter and keeps every other character, length preserved |
| Statistics.SortReals | src/features/data_preprocessing.py:145 | the values in ascending order, a permutation of the input |
| Statistics.Median | src/features/data_preprocessing.py:145 | the median lies between the smallest and the largest value |
| Statistics.MostFrequentIndex | src/features/data_preprocessing.py:156-158 | the first candidate of highest count: no candidate counts more, earlier ones count strictly less |
| Statistics.Mode | src/features/data_preprocessing.py:156-161 | `mode()[0]`: none exactly for no values; otherwise a value of highest count, the smallest such in code-point order |
| Frames.IndexOf | src/features/data_preprocessing.py:112 | the first column with the name |
| Frames.IndexOfDistinct | src/features/data_preprocessing.py:112 | with distinct names a column's name finds that column |
| Frames.SelectAll | src/features/prediction_preprocessor.py:162 | selecting every column by name in order gives the columns back |
| Frames.Without | src/features/data_preprocessing.py:215 | `drop(columns=[name])`: a column is kept exactly when its name differs; none called `name` remains; never longer (order: the four lemmas below) |
| Frames.WithoutAppend | src/features/data_preprocessing.py:215 | dropping is a filter: it distributes over concatenation, so kept columns stay in order and every other-named column survives, duplicates included |
| Frames.WithoutAbsent | src/features/data_preprocessing.py:215 | dropping a name the frame lacks returns the columns unchanged |
| Frames.WithoutSplice | src/features/data_preprocessing.py:215 | with distinct names, dropping removes exactly the one column of that name and keeps the others in order |
| Frames.DropInOrder | src/features/data_preprocessing.py:215 | both facts above, for any frame |
| Frames.NamesWithoutInOrder | src/features/data_preprocessing.py:77 | the list comprehension `[col for col in df.columns if col != target]`: unchanged when the name is absent; with distinct names exactly that one name removed, the others in order |
| Frames.DropCustomerId | src/features/data_preprocessing.py:43-46 | the row count is kept; the result has exactly the input's columns other than `customer_id` |
| Frames.Aligned | src/features/data_preprocessing.py:114-120 | padding then `df[feature_columns]`: the row count is kept and the column names are exactly the feature order |
| Frames.Select | src/features/data_preprocessing.py:124-126 | `df[names]`: one column per name, in that order, each the frame's column of that name |
| Frames.Assign | src/features/data_preprocessing.py:126 | `df[names] = values`: names and order kept; a column named in the replacement takes the replacement's column of that name; every other column is unchanged |
| Frames.NamesOfKind | src/features/data_preprocessing.py:54-55 | `select_dtypes` minus the target: exactly the names of columns of that kind other than the target |
| Frames.WithoutDistinct | src/features/data_preprocessing.py:44-46 | dropping a column keeps names distinct |
| Frames.KindsDisjoint | src/features/data_preprocessing.py:54-55 | no name is both in the categorical and the numerical partition |
| Frames.Present | src/features/data_preprocessing.py:124 | `[c for c in names if c in df.columns]`: exactly the listed names that are available, never longer, and the whole list when every name is available |
| Frames.PresentAppend | src/features/data_preprocessing.py:124 | the comprehension is a filter: it distributes over concatenation and keeps a single name exactly when it is available, so the result is the list's available names in list order |
| Frames.AlignColumns | src/features/prediction_preprocessor.py:38-45 | the padding loop and reordering compute `Aligned` |
| Frames.AlignedKeepsColumns | src/features/data_preprocessing.py:114-120 | a listed column the frame has keeps its cells after alignment |
| Frames.AlignedPadsWithZero | src/features/data_preprocessing.py:115-117 | a listed column the frame lacks appears as a column of zeros |
| LabelEncoding.StrValues | src/features/data_preprocessing.py:177 | the strings of a column a vocabulary is fitted on: exactly its string cells |
| LabelEncoding.Fit | src/features/prediction_preprocessor.py:131-132 | the vocabulary is strictly sorted and holds exactly the fitted values |
| LabelEncoding.EncodeColumn | src/features/data_preprocessing.py:181-185 | encoding keeps name and length and yields a numeric column |
| LabelEncoding.TransformStrict | src/features/data_preprocessing.py:66-69 | `transform` without substitution succeeds exactly when every cell is a known string, and then equals the substituting encoding |
| LabelEncoding.EncodeColumnFailsOnlyOnEmptyVocabulary | src/features/data_preprocessing.py:181-185 | the substitution raises exactly when the vocabulary is empty and the column is not |
| LabelEncoding.EncodeColumnCodes | src/features/prediction_preprocessor.py:99-106 | a known value gets its index in `classes_`; an unseen one the code of `classes_[0]`; every code lies in the vocabulary |
| LabelEncoding.CodesInjective | src/features/data_preprocessing.py:185 | two known values share a code exactly when they are equal |
| LabelEncoding.FitThenEncode | src/features/data_preprocessing.py:176-177 | `fit_transform` on a column codes every string by its own index |
| LabelEncoding.EncodeNamed | src/features/prediction_preprocessor.py:97-106 | encoding one listed column keeps rows and column names |
| LabelEncoding.EncodeListed | src/features/prediction_preprocessor.py:96-108 | the listed-columns loop keeps rows and column names |
| LabelEncoding.ApplyEncoders | src/features/prediction_preprocessor.py:92-108 | the loop computes `EncodeListed`, including its first error |
| LabelEncoding.EncodeListedFailureIsFinal | src/features/prediction_preprocessor.py:96-106 | a failure on a prefix of the list is the failure of the whole loop |
| LabelEncoding.EncodeListedNeverFails | src/features/prediction_preprocessor.py:96-106 | with non-empty vocabularies the loop never raises |
| LabelEncoding.EncodeListedColumn | src/features/data_preprocessing.py:104-112 | with distinct names each column is encoded by its own encoder if listed and known, and untouched otherwise |
| Scaling.FeatureNames | src/features/prediction_preprocessor.py:164-165 | `feature_names_in_`, one per fitted feature in order |
| Scaling.NumValues | src/features/data_preprocessing.py:199 | the values `fit` uses: exactly the column's numbers |
| Scaling.ScaleColumn | src/features/data_preprocessing.py:202 | a scaled column keeps name and length, is numeric, cell by cell the scaling map |
| Scaling.FitScaler | src/features/data_preprocessing.py:199 | `fit` succeeds exactly on non-empty, string-free input with at least one column, and remembers the column names in order |
| Scaling.TransformColumns | src/features/data_preprocessing.py:202 | `transform` succeeds exactly when fitted, on the fitted names in the fitted order, on string-free, non-empty input; each column is scaled by its own feature's moments; unfitted gives the not-fitted error |
| Scaling.InverseUndoesTransform | src/features/data_preprocessing.py:202 | scaling is invertible: the inverse gives every cell back |
| Scaling.FitThenTransform | src/features/data_preprocessing.py:199 | a successful `fit` is followed by a successful `transform` in `fit_transform` |
| Scaling.ScaleKeepsMissing | src/features/data_preprocessing.py:202 | scaling keeps missing cells missing and brings in none |
| Imputation.Fill | src/features/data_preprocessing.py:148 | `fillna(v)`: missing cells become `v`, the others stay |
| Imputation.NumericFill | src/features/data_preprocessing.py:145-148 | the numeric fill value: the median of the column's numbers, 0.0 when there are none (characterised by `NumericFillIsMedian` and `AllMissingDefaults`) |
| Imputation.CategoricalFill | src/features/data_preprocessing.py:156-162 | the categorical fill value: the first of the sorted modes, `'Unknown'` when the column has no string (characterised by `CategoricalFillIsMode` and `AllMissingDefaults`) |
| Imputation.ImputeColumn | src/features/data_preprocessing.py:139-162 | one column through its rule, untouched when complete (characterised by `ImputeChangesOnlyMissing` and `ImputedNoMissing`) |
| Imputation.Imputed | src/features/data_preprocessing.py:135-164 | each column is imputed by its own rule; rows and column count kept |
| Imputation.ImputedShape | src/features/data_preprocessing.py:135-164 | names, kinds and lengths are kept |
| Imputation.ImputedNoMissing | src/features/data_preprocessing.py:135-164 | no cell is missing afterwards |
| Imputation.ImputedWellFormed | src/features/data_preprocessing.py:135-164 | a frame whose cells agree with their column kinds still does |
| Imputation.ImputeChangesOnlyMissing | src/features/data_preprocessing.py:141-148 | present cells are unchanged, missing ones take the fill value, complete columns are untouched |
| Imputation.ImputeIdempotent | src/features/data_preprocessing.py:135-164 | imputing twice equals imputing once |
| Imputation.AllMissingDefaults | src/features/data_preprocessing.py:146-147 | an all-missing column becomes 0.0 (numeric) or `'Unknown'` (categorical) |
| Imputation.CategoricalFillIsMode | src/features/data_preprocessing.py:156-158 | a missing categorical cell takes the smallest most frequent string of the column |
| Imputation.NumericFillIsMedian | src/features/data_preprocessing.py:145-148 | a missing numeric cell takes the median, which lies between the column's smallest and largest numbers |
| TrainingPreprocessor.Cleaned | src/features/data_preprocessing.py:43-50 | drop and impute keep the rows and leave no `customer_id` |
| TrainingPreprocessor.Replace | src/features/data_preprocessing.py:199-202 | writing the scaled columns back succeeds exactly when scaling did, keeping rows and names |
| TrainingPreprocessor.EncodeCategorical | src/features/data_preprocessing.py:166-187 | one encoding pass never drops or changes an existing encoder, and keeps column names |
| TrainingPreprocessor.EncodeOne | src/features/data_preprocessing.py:172-185 | one column of the pass: existing encoders are kept; a non-categorical or target column is returned as it is; otherwise the column gets an encoder and its codes under that encoder, with name and length kept |
| TrainingPreprocessor.EncodeCategoricalSnoc | src/features/data_preprocessing.py:172-187 | the pass over one more column is the pass over the others followed by that column's step |
| TrainingPreprocessor.EncodeTarget | src/features/data_preprocessing.py:61-69 | the target step keeps existing encoders, rows and column names |
| TrainingPreprocessor.ScaleNumerical | src/features/data_preprocessing.py:189-204 | once fitted the scaler is not refitted; rows and names kept |
| TrainingPreprocessor.PreprocessOutcome | src/features/data_preprocessing.py:37-85 | `preprocess`: new state and result, failures keeping earlier writes (characterised by `PreprocessShape`, `FirstFit`, `PreprocessFrozenAfterFit`, `PreprocessKeepsEncoders` and `PreprocessKeepsCoherent`) |
| TrainingPreprocessor.Partitioned | src/features/data_preprocessing.py:53-55 | the partition taken from the cleaned frame before the first fit and kept afterwards (characterised by `FirstFit`, `PreprocessFrozenAfterFit` and `KindsDisjoint`) |
| TrainingPreprocessor.EncodeStage | src/features/data_preprocessing.py:57-59 | the categorical pass, whose encoders are stored even when it raises (characterised by `EncodeCategoricalColumns`, `EncodeCategoricalFailureIsFinal` and `PreprocessKeepsEncoders`) |
| TrainingPreprocessor.TargetStage | src/features/data_preprocessing.py:61-69 | the target step, whose encoders are stored even when it raises (characterised by `EncodeTargetShape` and `PreprocessKeepsEncoders`) |
| TrainingPreprocessor.ScaleStage | src/features/data_preprocessing.py:71-78 | scaling, then on the first fit the feature order and `fitted` (characterised by `ScaleStageKeepsCoherent`, `FirstScaleCoversFeatures` and `FirstFitScalesEveryFeature`) |
| TrainingPreprocessor.TransformResult | src/features/data_preprocessing.py:87-133 | the corrected `transform` (see "## Findings"; characterised by `TransformBeforeFit`, `TransformColumnOrder`, `TransformPadsWithZero` and `TransformFailsOnlyOnData`) |
| TrainingPreprocessor.TransformAsWritten | src/features/data_preprocessing.py:87-133 | `transform` as the source writes it (see "## Findings"; characterised by `TransformAsWrittenFails` and `FirstFitBreaksTransformAsWritten`) |
| TrainingPreprocessor.Prepared | src/features/data_preprocessing.py:87-120 | `transform` before scaling: the frozen feature order, the input's rows |
| TrainingPreprocessor.ScaleSelected | src/features/data_preprocessing.py:122-126 | scaling the selected columns keeps rows and names |
| TrainingPreprocessor.SplitFeaturesTarget | src/features/data_preprocessing.py:206-219 | raises exactly when the target is absent, with the source's message; otherwise X keeps the rows and exactly the non-target columns, y is `data[target]`; on a well-formed frame y has one value per row of X and X is the frame's columns with the target's removed, the rest in order |
| TrainingPreprocessor.StandardDataPreprocessor.constructor | src/features/data_preprocessing.py:27-35 | the initial fields: unfitted scaler, no encoders, not fitted, no feature order, empty partition |
| TrainingPreprocessor.StandardDataPreprocessor.HandleMissingValues | src/features/data_preprocessing.py:135-164 | the two loops compute `Imputed` |
| TrainingPreprocessor.StandardDataPreprocessor.EncodeCategoricalVariables | src/features/data_preprocessing.py:166-187 | the loop leaves the encoders and returns the frame `EncodeCategorical` specifies, including partial encoders on failure |
| TrainingPreprocessor.StandardDataPreprocessor.EncodeColumnStep | src/features/data_preprocessing.py:172-185 | the loop body leaves the encoders and the coded column that `EncodeOne` specifies |
| TrainingPreprocessor.StandardDataPreprocessor.ScaleNumericalVariables | src/features/data_preprocessing.py:189-204 | the new scaler and the result are those of `ScaleNumerical` |
| TrainingPreprocessor.StandardDataPreprocessor.ScaleAndFreeze | src/features/data_preprocessing.py:71-78 | the new state and result are those of `ScaleStage`: scaling, then on the first fit the frozen feature order and `fitted` |
| TrainingPreprocessor.StandardDataPreprocessor.EncodeTargetColumn | src/features/data_preprocessing.py:61-69 | the new encoders and the result are those of `EncodeTarget` |
| TrainingPreprocessor.StandardDataPreprocessor.Preprocess | src/features/data_preprocessing.py:37-85 | the new state and result are those of `PreprocessOutcome`; the state invariant is kept |
| TrainingPreprocessor.StandardDataPreprocessor.Transform | src/features/data_preprocessing.py:87-133 | the corrected `transform`: result equals `TransformResult` of the state |
| TrainingPreprocessor.EncodeCategoricalFailureIsFinal | src/features/data_preprocessing.py:172-185 | the first encoding failure is the pass's failure |
| TrainingPreprocessor.PreprocessKeepsCoherent | src/features/data_preprocessing.py:37-85 | every `preprocess`, failing or not, keeps the invariant: not fitted means an unfitted scaler; fitted means a feature order covering the scaler's features |
| TrainingPreprocessor.ScaleStageKeepsCoherent | src/features/data_preprocessing.py:71-78 | the scaling stage keeps the invariant |
| TrainingPreprocessor.EncodeCategoricalColumns | src/features/data_preprocessing.py:170-185 | every non-target categorical column is encoded by the encoder left for it; the other columns are untouched; earlier encoders survive |
| TrainingPreprocessor.EncodeCategoricalShape | src/features/data_preprocessing.py:170-185 | after encoding only the target may be non-numeric, lengths are kept and complete columns stay complete |
| TrainingPreprocessor.EncodeTargetShape | src/features/data_preprocessing.py:61-69 | the target step keeps columns complete and makes the target numeric |
| TrainingPreprocessor.ScaleNumericalComplete | src/features/data_preprocessing.py:189-204 | scaling keeps the columns complete |
| TrainingPreprocessor.PreprocessShape | src/features/data_preprocessing.py:37-81 | `preprocess` keeps the row count, never returns `customer_id`, keeps the cleaned column order and leaves no cell missing |
| TrainingPreprocessor.PreprocessFrozenAfterFit | src/features/data_preprocessing.py:53-55 | once fitted, partition, feature order, flag and scaler never change |
| TrainingPreprocessor.PreprocessKeepsEncoders | src/features/data_preprocessing.py:64-66 | an encoder, once created, is never refitted |
| TrainingPreprocessor.FirstFit | src/features/data_preprocessing.py:53-78 | the first successful call fixes the partition of the cleaned input and the feature order (returned columns minus target), and sets `fitted` |
| TrainingPreprocessor.TransformBeforeFit | src/features/data_preprocessing.py:89-90 | `transform` before fitting raises the not-fitted `ValueError` |
| TrainingPreprocessor.TransformColumnOrder | src/features/data_preprocessing.py:114-120 | `transform` returns exactly the feature columns in order with the input's rows |
| TrainingPreprocessor.TransformPadsWithZero | src/features/data_preprocessing.py:115-117 | an absent feature column is added as zeros and stays zeros unless scaled |
| TrainingPreprocessor.NumericNamesAreAll | src/features/data_preprocessing.py:193 | when only the target can be non-numeric, the numeric selection is every non-target column |
| TrainingPreprocessor.CleanedDistinct | src/features/data_preprocessing.py:43-50 | cleaning keeps distinct names |
| TrainingPreprocessor.FirstFitScalesEveryFeature | src/features/data_preprocessing.py:71-78 | after the first fit the scaler covers exactly the feature order, encoded categorical columns included |
| TrainingPreprocessor.FirstScaleCoversFeatures | src/features/data_preprocessing.py:71-78 | a first scaling of a frame whose non-target columns are all numeric fits the scaler on exactly the feature order it freezes |
| TrainingPreprocessor.TransformAsWrittenFails | src/features/data_preprocessing.py:122-126 | the source's `transform` fails on every input once the scaler covers more than the numerical columns |
| TrainingPreprocessor.FirstFitBreaksTransformAsWritten | src/features/data_preprocessing.py:122-126 | after a first fit on data with both a categorical and a numeric feature, the source's `transform` fails on every input |
| TrainingPreprocessor.TransformFailsOnlyOnData | src/features/data_preprocessing.py:122-126 | the corrected `transform` offers the scaler only columns it was fitted on and fails only on a string cell or no rows |
| TrainingPreprocessor.ExampleCleaned | src/features/data_preprocessing.py:43-50 | a complete frame without `customer_id` is left unchanged by cleaning |
| TrainingPreprocessor.ExampleEncoded | src/features/data_preprocessing.py:174-177 | the first pass fits an encoder on `contract_type` and codes it |
| TrainingPreprocessor.ExampleScaled | src/features/data_preprocessing.py:195-199 | the encoded example is fitted and scaled |
| TrainingPreprocessor.ExampleScaleStage | src/features/data_preprocessing.py:71-78 | the scaling stage leaves the expected state |
| TrainingPreprocessor.ExamplePreprocessed | src/features/data_preprocessing.py:37-81 | the first `preprocess` of the example succeeds with the stated partition, encoders and feature order |
| TrainingPreprocessor.ExampleShowsTransformMismatch | src/features/data_preprocessing.py:122-126 | on that state the source's `transform` fails for any frame |
| TrainingPreprocessor.ExampleTransformed | src/features/data_preprocessing.py:87-129 | the corrected `transform` accepts the training example |
| TrainingPreprocessor.TransformOfFittedFrame | src/features/data_preprocessing.py:87-129 | the corrected `transform` succeeds whenever it prepares exactly the frame the scaler was fitted on |
| ServingPreprocessor.ServingFill | src/features/prediction_preprocessor.py:74-88 | the serving fill value of a column (characterised by `ServingFillValues`) |
| ServingPreprocessor.ServingPrepared | src/features/prediction_preprocessor.py:24-45 | drop, fill, encode and align, before scaling (characterised by `ServingShape` and `ServingPadsWithZero`) |
| ServingPreprocessor.ScaledOrUnscaled | src/features/prediction_preprocessor.py:47-60 | the scaling step with its unscaled fallback (characterised by `ServingScaling`) |
| ServingPreprocessor.ServingPreprocess | src/features/prediction_preprocessor.py:19-68 | `preprocess`, equally `transform` (characterised by `ServingShape`, `ServingScaling`, `ServingFailsOnlyInEncoding`, `ServingIgnoresCustomerId` and `SimpleNeverFails`) |
| ServingPreprocessor.ServingImputed | src/features/prediction_preprocessor.py:70-90 | each column is imputed by the serving rule; rows and column count kept |
| ServingPreprocessor.PredictionPreprocessor.constructor | src/features/prediction_preprocessor.py:11-17 | the initial fields |
| ServingPreprocessor.PredictionPreprocessor.HandleMissingValues | src/features/prediction_preprocessor.py:70-90 | the two loops compute `ServingImputed` |
| ServingPreprocessor.PredictionPreprocessor.TransformCategoricalVariables | src/features/prediction_preprocessor.py:92-108 | the loop computes `EncodeListed` over the listed columns |
| ServingPreprocessor.PredictionPreprocessor.Preprocess | src/features/prediction_preprocessor.py:19-64 | `preprocess` returns `ServingPreprocess` of the fields and writes no field |
| ServingPreprocessor.PredictionPreprocessor.Transform | src/features/prediction_preprocessor.py:66-68 | `transform` is `preprocess` |
| ServingPreprocessor.MappingNames | src/features/prediction_preprocessor.py:135 | `list(categorical_mappings.keys())` in dictionary order |
| ServingPreprocessor.EncodersOf | src/features/prediction_preprocessor.py:130-133 | an encoder exactly for each mapping key |
| ServingPreprocessor.EncodersOfBinding | src/features/prediction_preprocessor.py:130-133 | with distinct keys each key's encoder is fitted on that key's values |
| ServingPreprocessor.SampleColumn | src/features/prediction_preprocessor.py:145-159 | a sample column holds the listed integers as numbers |
| ServingPreprocessor.CreateSimplePreprocessor | src/features/prediction_preprocessor.py:111-168 | a fresh preprocessor whose fields are `SimpleState` |
| ServingPreprocessor.FitVocabularies | src/features/prediction_preprocessor.py:130-133 | the mapping loop leaves one encoder per mapping name, fitted on that mapping's values, and changes no other field |
| ServingPreprocessor.SampleSelected | src/features/prediction_preprocessor.py:145-165 | `sample_df[feature_columns]` is the sample frame itself, and fitting on it gives the preset scaler |
| ServingPreprocessor.SampleFits | src/features/prediction_preprocessor.py:145-165 | the sample has the feature order as its columns, only numbers, so the scaler's fit succeeds and covers exactly the feature order |
| ServingPreprocessor.SimpleFeaturesDistinct | src/features/prediction_preprocessor.py:139-142 | the 13 feature names are distinct |
| ServingPreprocessor.EncodersOfNonEmpty | src/features/prediction_preprocessor.py:130-133 | encoders fitted on non-empty lists have non-empty sorted vocabularies |
| ServingPreprocessor.MappingsDistinct | src/features/prediction_preprocessor.py:116-127 | the mapping keys are distinct |
| ServingPreprocessor.SimpleShape | src/features/prediction_preprocessor.py:113-167 | the preset state is the preset fields around the scaler fitted on the sample, and that scaler covers exactly the feature order |
| ServingPreprocessor.PresetShape | src/features/prediction_preprocessor.py:113-142 | around any scaler, the preset fields are: fitted, the stated partition and feature order, an encoder for exactly the categorical columns, each with a non-empty sorted vocabulary |
| ServingPreprocessor.SimpleEncoder | src/features/prediction_preprocessor.py:130-133 | each mapping key's encoder is fitted on its values |
| ServingPreprocessor.FitSorted | src/features/prediction_preprocessor.py:131-132 | `LabelEncoder.fit` on values with the same elements as a strictly sorted sequence gives exactly that sequence as vocabulary |
| ServingPreprocessor.SimplePaperlessBilling | src/features/prediction_preprocessor.py:119 | `paperless_billing` codes No as 0 and Yes as 1 |
| ServingPreprocessor.SimplePaymentMethod | src/features/prediction_preprocessor.py:118 | `payment_method` is coded alphabetically, so "Electronic check" is 2, not 0 |
| ServingPreprocessor.SimpleContractType | src/features/prediction_preprocessor.py:117 | `contract_type` vocabulary and codes |
| ServingPreprocessor.ServingFillValues | src/features/prediction_preprocessor.py:74-88 | numbers fill with 0; strings with the encoder's first class, or `'Unknown'`; present cells stay |
| ServingPreprocessor.ServingImputedNoMissing | src/features/prediction_preprocessor.py:70-90 | after serving imputation no cell is missing |
| ServingPreprocessor.ServingImputedNames | src/features/prediction_preprocessor.py:70-90 | serving imputation keeps names |
| ServingPreprocessor.ServingShape | src/features/prediction_preprocessor.py:19-60 | rows kept; with a feature order exactly those columns, else the input's columns minus `customer_id` |
| ServingPreprocessor.ServingPadsWithZero | src/features/prediction_preprocessor.py:40-42 | absent features are added as zeros |
| ServingPreprocessor.ServingScaling | src/features/prediction_preprocessor.py:47-60 | every column is scaled exactly when the scaler accepts the frame; otherwise the unscaled frame is returned |
| ServingPreprocessor.ServingFailsOnlyInEncoding | src/features/prediction_preprocessor.py:24-64 | `preprocess` raises exactly when encoding raises, never with non-empty vocabularies |
| ServingPreprocessor.ServingIgnoresCustomerId | src/features/prediction_preprocessor.py:27-29 | `customer_id` never influences the result |
| ServingPreprocessor.SimpleNeverFails | src/features/prediction_preprocessor.py:19-64 | around any scaler, the preset preprocessor never raises, keeps the rows and returns the 13 features in order, without `customer_id` |
| ServingPreprocessor.FixedOrderNeverFails | src/features/prediction_preprocessor.py:19-64 | with a feature order that leaves out `customer_id` and only non-empty vocabularies, preprocessing never raises, keeps the rows and returns exactly the feature columns in order |
| ModelSelection.Beats | src/models/model_trainer.py:111 | `metrics['f1'] > self.best_score`, which every F1 satisfies against `-inf` (characterised by `ReplacedOnlyWhenBeaten`) |
| ModelSelection.SelectBest | src/models/model_trainer.py:110-114 | the running best over the evaluated entries in roster order (characterised by `SelectBestKeepsValid`, `SelectBestDominates`, `SelectBestUnchanged`, `SelectBestWitness` and `SecondCallMustBeatFirst`) |
| ModelSelection.Evaluated | src/models/model_trainer.py:95-101 | the roster models' metrics in order up to the first model whose training or evaluation raises: every entry is that model's metrics, there is no error exactly when all were evaluated, and an error is the exception of the model right after the entries |
| ModelSelection.OkPrefix | src/models/model_trainer.py:95-101 | the number of roster models that train and evaluate before the first exception: every model before it evaluates, and the model at it, if any, raises |
| ModelSelection.OkPrefixAt | src/models/model_trainer.py:95-101 | that number is determined by its two ends: any position before which every model evaluates and at which the model raises, or the roster ends, is that number |
| ModelSelection.ModelTrainer.constructor | src/models/model_trainer.py:72-82 | no best model and best score `-inf` |
| ModelSelection.ModelTrainer.TrainAndEvaluate | src/models/model_trainer.py:84-115 | a raising `train_test_split` fails the call and leaves the best alone; otherwise the results in roster order, or the first model's exception; either way the best is the selection rule over the models evaluated before it, applied from the old best; the invariant is kept |
| ModelSelection.ModelTrainer.SaveBestModel | src/models/model_trainer.py:117-126 | raises "No model has been trained yet" exactly when there is no best model; otherwise the best model is what is written |
| ModelSelection.ModelTrainer.LoadModel | src/models/model_trainer.py:128-130 | the best model becomes the loaded one; the best score is untouched |
| ModelSelection.SelectBestKeepsValid | src/models/model_trainer.py:110-114 | the selection keeps the invariant that model and score go together |
| ModelSelection.SelectBestDominates | src/models/model_trainer.py:110-114 | the best score never decreases and is at least every F1 seen |
| ModelSelection.SelectBestUnchanged | src/models/model_trainer.py:111 | when no F1 beats the best, model and score stay |
| ModelSelection.SelectBestWitness | src/models/model_trainer.py:110-114 | a changed best is the first entry of highest F1, which beats the old score; ties keep the earlier model |
| ModelSelection.ReplacedOnlyWhenBeaten | src/models/model_trainer.py:111 | a replacement needs an F1 strictly above the old best |
| ModelSelection.SecondCallMustBeatFirst | src/models/model_trainer.py:110-114 | across two calls, the second replaces the best only with an F1 strictly above every F1 of the first |
| ModelSelection.FailedCallKeepsEarlierBest | src/models/model_trainer.py:98-113 | a first call that raises after some model was evaluated still leaves a roster model with a finite score as best, which a later `save_best_model` writes |
| ModelSelection.BestBeforeLoad | src/models/model_trainer.py:80-81 | before `load_model`, a model exists exactly when the score is above `-inf`, and it is a roster model |
| DataIngestion.ValidateData | src/data/data_ingestion.py:49-65 | `validate_data`: refuses an empty frame and more than 50 % missing cells (characterised by `ValidateDataIff` and `PercentRule`) |
| DataIngestion.ValidateDataIff | src/data/data_ingestion.py:53-65 | accepted exactly when non-empty and 2 × missing ≤ rows × columns; exactly half missing passes |
| DataIngestion.PercentRule | src/data/data_ingestion.py:58-60 | "more than 50 percent" is "more than half" |
| DataIngestion.MissingAtMostCells | src/data/data_ingestion.py:57-58 | at most every cell is missing |
| DataIngestion.LoadData | src/data/data_ingestion.py:32-47 | accepted exactly when reading succeeded and validation passes, returning the frame read; every failure carries the `Error loading data: ` prefix, validation failure its own message |
| DataIngestion.Segments | src/data/data_ingestion.py:84 | the `/`-separated segments, none holding `/` |
| DataIngestion.JoinSegments | src/data/data_ingestion.py:84 | joining the segments gives the path back |
| DataIngestion.Parts | src/data/data_ingestion.py:84 | `pathlib` keeps exactly the segments that are neither empty nor `.` |
| DataIngestion.Name | src/data/data_ingestion.py:84 | the name holds no `/` |
| DataIngestion.RFind | src/data/data_ingestion.py:84 | the last index of the character, or -1 |
| DataIngestion.Suffix | src/data/data_ingestion.py:84 | a suffix is empty or a dot followed by at least one non-dot character |
| DataIngestion.CreateDataIngestion | src/data/data_ingestion.py:70-92 | a CSV ingestion for the path, or the unsupported-extension error naming the lower-cased suffix |
| DataIngestion.CsvSuffixIff | src/data/data_ingestion.py:84-86 | the suffix lower-cases to `.csv` exactly when the name has a character before its last four, which read `.csv` ignoring case |
| DataIngestion.FactoryAcceptsCsv | src/data/data_ingestion.py:84-92 | the factory accepts exactly names ending in `.csv`, any case, after at least one character |
| DataIngestion.SegmentsPlain | src/data/data_ingestion.py:84 | a path without `/` is one segment |
| DataIngestion.SegmentsThenSlash | src/data/data_ingestion.py:84 | appending `/` and a segment appends that segment |
| DataIngestion.PartsSnoc | src/data/data_ingestion.py:84 | `Parts` of one more segment |
| DataIngestion.NameOfComponent | src/data/data_ingestion.py:84 | a path of one plain component is its own name |
| DataIngestion.NameBelow | src/data/data_ingestion.py:84 | the name of `dir/b` is `b`, whatever the directory |
| DataIngestion.NameBelowWithSlash | src/data/data_ingestion.py:84 | a trailing `/` after the last component does not change the name |
| DataIngestion.RFindAt | src/data/data_ingestion.py:84 | the last dot is found after a stem |
| DataIngestion.SuffixOf | src/data/data_ingestion.py:84 | `stem.ext` has suffix `.ext` |
| DataIngestion.FactoryOnName | src/data/data_ingestion.py:84-92 | for any path whose name is `stem.ext` (non-empty stem, no dot in `ext`), the factory accepts exactly when `.ext` lower-cased is `.csv`, and otherwise refuses with that lower-cased suffix: only the last suffix counts, in any letter case |
| DataIngestion.RefusesNoSuffix | src/data/data_ingestion.py:84-92 | `data` is refused with an empty extension |
| DataIngestion.RefusesHiddenName | src/data/data_ingestion.py:84-92 | `.csv` is refused with an empty extension |
| DataIngestion.TrailingSlashIgnored | src/data/data_ingestion.py:84-92 | a trailing `/` changes neither the name nor the factory's verdict, error message included |
| DataIngestion.NoDotRefused | src/data/data_ingestion.py:84-92 | a path whose name has no dot is refused with an empty extension |
| Api.ChurnPrediction | app.py:160 | the `"Yes"`/`"No"` rule (characterised by `PredictionThreshold` and `LabelsSymmetric`) |
| Api.ConfidenceOf | app.py:162-167 | the confidence rule with the source's thresholds in order (characterised by `ConfidenceBands` and `LabelsSymmetric`) |
| Api.Labelled | app.py:160-173 | the response carrying the probability and both labels (characterised by `PredictionWithConfidence`) |
| Api.SingleReply | app.py:140-177 | `/predict` past the guard: the response, or 500 with the exception's message (characterised by `OneRowAgrees` and `BatchOfOneMatchesSingle`) |
| Api.BatchReply | app.py:188-221 | `/predict_batch` past the guard: the entries, or 500 with the exception's message (characterised by `BatchReplyEntries` and `SimpleBatchReply`) |
| Api.SmokePasses | app.py:84-97 | the start-up smoke test's verdict (characterised by `SmokeTest` and `SmokeFailsOnlyInModel`) |
| Api.ChurnProbability | app.py:153-154 | `proba[1]` exists exactly when the row has two entries, and is that entry |
| Api.PredictionThreshold | app.py:160 | "Yes" exactly above 0.5, so 0.5 gives "No"; monotone in the probability |
| Api.Margin | app.py:162-167 | the distance from one half |
| Api.ConfidenceBands | app.py:162-167 | High iff the margin exceeds 0.2, Medium iff it is in (0.1, 0.2], Low iff at most 0.1, that is 0.4 ≤ p ≤ 0.6 |
| Api.LabelsSymmetric | app.py:160-167 | `p` and `1 - p` share a confidence and, away from 0.5, get opposite predictions |
| Api.PredictionWithConfidence | app.py:160-167 | the labels in band form; a Low "Yes" is exactly 0.5 < p ≤ 0.6, a Low "No" 0.4 ≤ p ≤ 0.5 |
| Api.NumberColumn | app.py:142 | a numeric request column, one cell per customer |
| Api.TextColumn | app.py:142 | a string request column, one cell per customer |
| Api.CustomerFrame | app.py:190 | one row per customer with the schema's columns in order; no customers give an empty frame |
| Api.BatchLabels | app.py:198-215 | succeeds exactly when every row has a churn probability, with one entry per row, entry `k` indexed `k` and labelled by the single-endpoint rules |
| Api.ChurnService.constructor | app.py:27-29 | no model, no preprocessor, not loaded, so not ready |
| Api.ChurnService.LoadModelAndPreprocessor | app.py:53-101 | `model_loaded` iff file present, load and creation succeed and the smoke test passes; ready iff loaded; a global changes only when its step succeeds |
| Api.SmokeTest | app.py:84-97 | the smoke test succeeds exactly when preprocessing the test frame with the preprocessor's state succeeds and the model gives a first row holding a churn probability |
| Api.ChurnService.PredictChurn | app.py:131-177 | 503 unless ready; otherwise the single outcome |
| Api.ChurnService.PredictBatch | app.py:179-221 | 503 unless ready; otherwise the batch outcome |
| Api.LabelBatch | app.py:198-215 | the loop computes `BatchLabels` |
| Api.BatchLabelsFailureIsFinal | app.py:199-200 | a short row aborts the whole batch with its error |
| Api.SmokeFailsOnlyInModel | app.py:84-97 | with the preset preprocessor the smoke test passes exactly when the model gives a first row holding a churn probability |
| Api.BatchReplyEntries | app.py:196-217 | past preprocessing a batch succeeds exactly when every returned row has a churn probability; entries are the labelled rows; failures are 500 |
| Api.SimpleBatchReply | app.py:188-221 | with the preset preprocessor a batch fails only in the model and keeps one row per input row |
| Api.OneRowAgrees | app.py:140-217 | with one model row, the single and batch replies agree and carry the same labels |
| Api.BatchOfOneMatchesSingle | app.py:140-217 | a batch of one customer agrees with `/predict` on that customer |

## Left out

- Logging, MLflow tracking, FastAPI routing, the pydantic schema checks and CORS. The
  `/`, `/health`, `/model_info` and `/reload_model` endpoints and the start-up hook only
  report or re-run `load_model_and_preprocessor`.
- Concurrent requests sharing the service's globals.
- File I/O:
  - `pd.read_csv` is the `read` parameter of `LoadData`.
  - `os.path.exists` is the `fileExists` parameter.
  - `joblib.load` is the `load` parameter.
  - `joblib.dump` is left out; `SaveBestModel` returns the model that would be written.
- The classifiers: training, `train_test_split`, `predict`, `predict_proba` and the metric
  formulas. Each model's metrics, or the exception its `train` or `evaluate` raises, are the
  `scores` parameter. The exception `train_test_split` (or an import) raises is the `split`
  parameter. `predict_proba` is `predictProba`.
- The abstract base classes and the `SklearnModel` wrapper. They only delegate.
- `StandardScaler` arithmetic. The per-feature mean and non-zero scale are the `moments`
  parameter; the map (x - mean) / scale and its inverse are modelled.
- Floating point: values are exact reals; NaN arithmetic and rounding are not modelled.
  This includes pandas' float median, which is exact here.
- ModelSelection.ModelTrainer.TrainAndEvaluate: a NaN F1, which never compares greater in Python, is not
  modelled.
- ModelSelection.ModelTrainer.LoadModel: a failing `joblib.load` is not modelled.
- ModelSelection.ModelTrainer.TrainAndEvaluate: `best_model` is the roster object itself. A later
  `train_and_evaluate` retrains it in place, so the reference can point at a model retrained
  on other data. The model identifies it by roster name only.
- pandas dtype inference. Each column carries its kind (numeric or object), fixed by its
  producer. pandas also builds object columns that mix strings and numbers
  (`pd.DataFrame({'c': ['a', 1]})`). `Frame` can hold them, but `WellFormed` excludes them, so
  the lemmas that assume `WellFormed` say nothing about them.
- TrainingPreprocessor.EncodeOne and TrainingPreprocessor.EncodeTarget: on an object column
  mixing strings and numbers, the source first stores an unfitted `LabelEncoder()`
  (data_preprocessing.py lines 176 and 65). Its `fit_transform` then raises a TypeError
  while sorting the values, so a later `preprocess` raises an AttributeError on `classes_`.
  The model instead stores the encoder fitted on the column's strings. The call fails with
  the transform's message rather than the TypeError, and later calls substitute or
  transform with that encoder and can succeed.
- Scaling.FitScaler: refuses every string cell. NumPy's float conversion (behind `dtype=FLOAT_DTYPES`)
  also turns a numeric string such as "12", " 3.5" or "1e3" into its number and fits on it.
  Only text that does not parse raises. The model does not parse strings as numbers.
- Scaling.TransformColumns: the same: a numeric string is treated as unconvertible and raises
  "could not convert string to float", where the source scales its number.
- ServingPreprocessor.ServingScaling: its clause "no string cell, so the scaler accepts" holds
  only in the model. Given a numeric string, the source scales it, while the model returns the
  frame unscaled through the exception branch. The preset API path never sends a string to
  the scaler, so `SimpleNeverFails` is unaffected.
- TrainingPreprocessor.TransformFailsOnlyOnData: "fails only on a string cell" also counts a
  numeric string as a failure; the source scales it.
- Exception messages keep their fixed text only; the values the libraries interpolate are dropped:
  - Scaling.NoSamples and Scaling.NoFeatures omit " (shape=(0, n))";
  - Scaling.NotNumeric omits ": '<value>'";
  - Scaling.NamesDiffer omits the lists of unseen and missing feature names that follow it;
  - LabelEncoding.TransformStrict's "y contains previously unseen labels" omits ": [...]".
  These texts reach the callers of the training `preprocess` and `transform`, which re-raise them.
- Text.Lower: lower-cases ASCII only, not the full Unicode case mapping of `str.lower`.
- DataIngestion.Suffix:
  - handles POSIX paths only;
  - uses the rule of CPython 3.12 and 3.13, where a name that ends in a dot has no suffix;
  - does not model Windows drives or backslashes.
- DataIngestion.LoadData: the message of a `read_csv` failure is whatever the `read`
  parameter carries.
- `create_simple_preprocessor` can fail only in foreign code (its imports). `createError`
  stands for that failure; the model's own creation never fails.
- Api.BatchOfOneMatchesSingle: relates the two endpoints only for a batch of one customer.
  Relating larger batches would need `predict_proba` to act row by row, which is foreign.
- Api.ChurnProbability: numpy's message gives the row's size for rows of size 0 and 1, the
  only short rows.

## Findings

| source | as written | input that shows it | evidently intended | confidence | as-written member | corrected member |
|---|---|---|---|---|---|---|
| src/features/data_preprocessing.py:122-126 | `transform` scales only `numerical_columns`, but the first `preprocess` fitted the scaler on all non-target columns: by then the categorical columns are already numeric codes. The scaler refuses a different feature set, so every `transform` raises. | Train on one numeric column `tenure` (12) and one categorical column `contract_type` ("One year"), then call `transform` on any frame. | Scale exactly the columns the scaler was fitted on, which after the first fit are all feature columns. | not executed | TrainingPreprocessor.TransformAsWritten, TrainingPreprocessor.FirstFitBreaksTransformAsWritten, TrainingPreprocessor.ExampleShowsTransformMismatch | TrainingPreprocessor.TransformResult, TrainingPreprocessor.StandardDataPreprocessor.Transform, TrainingPreprocessor.TransformFailsOnlyOnData, TrainingPreprocessor.ExampleTransformed |
