# Ludwig dataset splitting, modelled in Dafny

This project models the dataset-splitting core of Ludwig (`ludwig/data/split.py`).
Before training, Ludwig divides a data frame into three folds: train, validation and test.
The splitter named in the `split` section of the preprocessing parameters decides how:

- **random** shuffles the rows and cuts them at `int(p0 * n)` and `int(p0 * n) + int(p1 * n)`;
- **fixed** reads an existing column of 0/1/2 labels;
- **stratify** draws a fold for every row, one value of a column at a time, from a categorical distribution;
- **datetime** sorts the rows by a date column and cuts them like random, without shuffling.

`get_splitter` builds the splitter from the registry.
`split_dataset` builds it, warns when the frame has a `split` column but no split section was given, and runs it.
`_split_on_series` writes fold labels into the scratch column `__SPLIT__` and filters the frame by label.

The model is organised like this:

- Values, rows, immutable frames and the three-fold result are datatypes (`Frames`).
- The caller's frame, which the source changes in place with `df[TMP_SPLIT_COL] = ...`, is the class `Frames.DataFrame`.
- Splitter configurations are a datatype, because they are never reassigned after construction (`Splitters`).
- Each split operation is a function for its outcome and a function for the caller's frame afterwards.
  Where the source mutates the frame, a method with `modifies df` is proved equal to those two functions.
- The stratify labelling loop is a method over an `array<int>`, proved equal to a recursive specification `Stratify`.

Randomness and engine calls are parameters:

- The shuffle `df.sample(frac=1, random_state=seed)` is a permutation of row positions.
- The stratify choices are a function `draw(j, k)`: the fold drawn for the k-th row holding the j-th distinct value.
- `to_datetime` is a function from a value to an optional integer timestamp.
  None stands for a value the parser rejects.
- The partitioned engine's own `random_split` and `split` are returned as a `Delegated` call carrying their arguments.

The error paths are modelled as outcomes `Raised(error)`:

- KeyError for a missing column;
- ValueError for stratify on a partitioned engine, for an unknown type, and for a rejected validation;
- TypeError for a constructor without its required `column`;
- AttributeError where the code as written fails (see Findings).

The model follows three behaviours of the code as written:

- `__SPLIT__` stays on the caller's frame after a fixed, stratify or datetime split, because `df[...] = ...` mutates the argument.
  The returned folds never carry it (`SeriesSplit.LabelledFoldsMeaning`).
- `has_split(2)` can be false while the test fold still receives rows.
  The test fold takes the rounding remainder (`RandomSplit.TestFoldTakesRemainder`).
- `datetime_format` and `fill_value` are stored by the constructor but never used by `split`.

## Model

| member | source | states |
|---|---|---|
| Frames.Column | ludwig/data/split.py:87 | `df[c]`: the column's cells, one per row, in row order (also at lines 109 and 164) |
| Frames.IntCells | ludwig/data/split.py:168 | a sequence of integers as a column of `Int` cells, in order: the int64 timestamps of line 168, and the stratify labels of lines 108-117, whose float64 values 0.0, 1.0 and 2.0 are modelled as `Int` |
| Frames.WithColumn | ludwig/data/split.py:220 | `df[col] = series` adds or replaces one column and keeps every row's keys equal to the frame's columns |
| Frames.WithColumnTwice | ludwig/data/split.py:164-168 | assigning the scratch column twice leaves only the second assignment |
| Frames.StripWithColumn | ludwig/data/split.py:171 | dropping a column just added gives back the rows as they were without it |
| Frames.StripRows | ludwig/data/split.py:222 | the rows of `df.drop(columns=c)`: each row with c removed, in order |
| Frames.Drop | ludwig/data/split.py:222 | `df.drop(columns=c)`: the columns without c and every row without c, keeping a well-formed frame well formed (also at line 171) |
| Frames.RowsWhere | ludwig/data/split.py:221 | the rows of a fold selected by label are never more than the input rows |
| Frames.RowsWhereMembers | ludwig/data/split.py:221 | a row is in the fold for label v exactly when it is an input row whose label column holds v |
| Frames.LabelFold | ludwig/data/split.py:221 | fold k of `split_dataset_ttv`: the rows whose label column holds k, in order, or None when there are none |
| Frames.SplitDatasetTtv | ludwig/data/split.py:221 | `split_dataset_ttv(df, c)`: folds 0, 1 and 2 are the rows whose column c holds 0, 1 and 2, in frame order, and a fold with no such row is None (its meaning is proved in SeriesSplit.SelectMembers and SeriesSplit.MergeSelect) |
| Frames.Gather | ludwig/data/split.py:73 | the rows taken at a list of positions, in that order, one per position: the reordering of `df.sample` and, at line 171, of `sort_values` |
| Frames.PermutedMultiset | ludwig/data/split.py:73 | reordering rows by a permutation keeps the same multiset of rows |
| Frames.StripGather | ludwig/data/split.py:171 | sorting and then dropping a column equals dropping and then sorting |
| Frames.InsertByKey | ludwig/data/split.py:171 | one insertion step of `sort_values`: position x goes after every listed position whose key is not larger; the result holds the listed positions plus x |
| Frames.SortPrefix | ludwig/data/split.py:171 | `sort_values` on the first m positions, inserted by key one at a time; every listed position is in bounds |
| Frames.InsertSorted | ludwig/data/split.py:171 | inserting a row position by its key into an order sorted by key keeps it sorted |
| Frames.InsertMembers | ludwig/data/split.py:171 | inserting a position adds nothing but that position |
| Frames.SortPrefixSorted | ludwig/data/split.py:171 | sorting the first m positions by insertion yields an order ascending by key |
| Frames.SortPrefixPermutes | ludwig/data/split.py:171 | sorting the first m positions by insertion yields each of them exactly once |
| Frames.SortValues | ludwig/data/split.py:171 | `sort_values` yields a permutation of the row positions, ascending by key |
| Frames.SortedGather | ludwig/data/split.py:171 | the i-th row of the sorted frame is the input row at the i-th sorted position |
| Frames.DataFrame.SetColumn | ludwig/data/split.py:164 | the caller's frame afterwards is the old frame with that column set; the class invariant is kept |
| Splitters.TmpSplitCol | ludwig/data/split.py:34 | `TMP_SPLIT_COL`: the scratch column `__SPLIT__` |
| Splitters.SplitCol | ludwig/data/split.py:81 | `SPLIT`: the column "split", the fixed splitter's default column and the column `split_dataset` warns about (line 210) |
| Splitters.DefaultProbabilities | ludwig/data/split.py:35 | `DEFAULT_PROBABILITIES`: the proportions 0.7, 0.1 and 0.2 |
| Splitters.Binary | ludwig/data/split.py:128 | `BINARY`: the feature type "binary" |
| Splitters.Category | ludwig/data/split.py:128 | `CATEGORY`: the feature type "category" |
| Splitters.Date | ludwig/data/split.py:186 | `DATE`: the feature type "date" |
| Splitters.AllFeatures | ludwig/data/split.py:121 | `config["input_features"] + config["output_features"]`: the input features followed by the output features |
| Splitters.FeatureNames | ludwig/data/split.py:122 | `{f[COLUMN] for f in features}`: the set of columns the features are declared on |
| Splitters.FeaturesOn | ludwig/data/split.py:128 | the features declared on a column are exactly those input and output features whose column matches |
| Splitters.FirstOn | ludwig/data/split.py:128 | feature i is declared on column c and no earlier feature is |
| Splitters.FirstOnIsHead | ludwig/data/split.py:128 | `[f for f in features if f[COLUMN] == c][0]` is the first feature declared on c |
| Splitters.Probs.At | ludwig/data/split.py:76 | `probabilities[i]`: the train, validation or test proportion for i = 0, 1, 2 |
| Splitters.Splitter.HasSplit | ludwig/data/split.py:48-76 | `has_split(i)`: always true for the fixed splitter, which keeps the base class's answer (lines 48-49); true for random, stratify and datetime exactly when proportion i is positive (lines 75-76, 131-132, 189-190) |
| Splitters.Splitter.RequiredColumns | ludwig/data/split.py:51-53 | `required_columns`: empty for random, which keeps the base class's answer; the one configured column for fixed, stratify and datetime (lines 89-91, 134-136, 192-194) |
| Splitters.Splitter.AllowedTypes | ludwig/data/split.py:128 | the feature types `validate` accepts: binary and category for stratify, date for datetime (line 186) |
| Splitters.Splitter.TypeMismatchMessage | ludwig/data/split.py:129 | the ValueError message of `validate`, naming the column, for stratify and for datetime (line 187) |
| Splitters.Splitter.Validate | ludwig/data/split.py:120-129 | `validate`: random and fixed accept everything (lines 45-46); stratify and datetime return the logging flag when no feature uses the column, and the ValueError when the first feature on the column has a type other than binary or category (stratify) or date (datetime, lines 178-187); its meaning is proved in Splitters.ValidateMeaning |
| Splitters.ValidateMeaning | ludwig/data/split.py:120-129 | stratify and datetime `validate` only logs exactly when no feature uses the column, and raises ValueError with the source's message exactly when the first feature on the column has a disallowed type; random and fixed accept everything |
| Splitters.MissingColumnMessage | ludwig/data/split.py:96 | Python's TypeError message for a stratify or datetime constructor called without `column` (also line 141) |
| Splitters.Registry | ludwig/data/split.py:30-201 | `split_registry`: None and "random" give the random splitter (registered as the default at line 56); "fixed", "stratify" and "datetime" give their classes (lines 79, 94, 139); any other key is not registered |
| Splitters.EmptySplitParams | ludwig/data/split.py:215 | the `{}` default of `params.get("split", {})`: a split section with no keys |
| Splitters.Construct | ludwig/data/split.py:56-152 | a constructor builds the splitter of the requested kind, with `column` defaulting to "split" for fixed and proportions defaulting to (0.7, 0.1, 0.2); stratify and datetime raise TypeError exactly when `column` is missing |
| Splitters.InvalidTypeMessage | ludwig/data/split.py:200 | the message "Invalid split type: " followed by the type |
| Splitters.GetSplitterAsWritten | ludwig/data/split.py:197-201 | as written, an unknown type hands back the ValueError object, and nothing else does; anything built is of the registered kind |
| Splitters.GetSplitter | ludwig/data/split.py:197-201 | an unknown type raises ValueError "Invalid split type: ..."; no type gives the default random splitter; a registered type gives its constructor's result |
| Splitters.Portion | ludwig/data/split.py:71 | `int(p * n)` is the largest count not above p * n |
| Splitters.CutPoints | ludwig/data/split.py:71-72 | the second cut point never precedes the first |
| Splitters.Min | ludwig/data/split.py:73 | the smaller of two counts: the clamping of a slice end to the frame's length |
| Splitters.CutRows | ludwig/data/split.py:73 | the three slices, laid end to end, are exactly the input rows |
| Splitters.CutFolds | ludwig/data/split.py:73 | the three slices of `np.split` as present frames with the input's columns |
| Splitters.CutFoldsAll | ludwig/data/split.py:73 | the three folds cut from a frame, laid end to end, are exactly its rows |
| Splitters.CutSizes | ludwig/data/split.py:70-73 | when p0 + p1 <= 1, train holds int(p0 * n) rows, validation int(p1 * n), test the remainder, and the sizes sum to n |
| SeriesSplit.FoldOf | ludwig/data/split.py:219-222 | fold k of `_split_on_series`: the rows labelled k, without the scratch column and with it removed from the columns, or None when no row is labelled k |
| SeriesSplit.LabelledFolds | ludwig/data/split.py:219-222 | what `_split_on_series(df, labels)` returns: the folds for labels 0, 1 and 2 (SeriesSplit.SplitOnSeries is proved equal to it, and SeriesSplit.LabelledFoldsMeaning and SeriesSplit.LabelledFoldsMerge state what it holds) |
| SeriesSplit.DropScratch | ludwig/data/split.py:222 | `df.drop(columns=TMP_SPLIT_COL) if df is not None else None` on one fold |
| SeriesSplit.Select | ludwig/data/split.py:221 | a selected fold is no longer than the frame and none of its rows carries the scratch column |
| SeriesSplit.FilterThenStrip | ludwig/data/split.py:219-222 | filtering the labelled frame by label k and dropping the scratch column equals selecting the unlabelled rows whose label is k |
| SeriesSplit.TtvThenDrop | ludwig/data/split.py:219-222 | `split_dataset_ttv` followed by the drop gives, fold by fold, the selection by label, with None for an empty fold |
| SeriesSplit.SplitOnSeries | ludwig/data/split.py:219-222 | the caller's frame keeps the scratch column holding the series, and the folds are those selected by the series |
| SeriesSplit.MergeSelect | ludwig/data/split.py:221 | interleaving the three folds back by label restores every row labelled 0, 1 or 2, in its original order |
| SeriesSplit.LabelledAll | ludwig/data/split.py:221 | when every label is 0, 1 or 2, the labelled rows are all the rows |
| SeriesSplit.SelectSizes | ludwig/data/split.py:221 | the three fold sizes add up to the number of rows labelled 0, 1 or 2 |
| SeriesSplit.SelectMembers | ludwig/data/split.py:221 | a row is in fold k exactly when some input row with label k, stripped of the scratch column, equals it |
| SeriesSplit.FoldOfNone | ludwig/data/split.py:222 | a fold is None exactly when no row carries its label |
| SeriesSplit.LabelledFoldsMeaning | ludwig/data/split.py:219-222 | fold k is None exactly when no row is labelled k, and no fold carries the scratch column in its columns or rows |
| SeriesSplit.LabelledFoldsMerge | ludwig/data/split.py:219-222 | the folds interleave back by label into the rows labelled 0, 1 or 2, and their sizes add up to that number |
| SeriesSplit.FixedOutcome | ludwig/data/split.py:84-87 | the fixed split raises exactly when the column is missing, and then KeyError naming it; it is never delegated; otherwise its folds are those of `_split_on_series` over the column's values |
| SeriesSplit.FixedState | ludwig/data/split.py:84-87 | the caller's frame after a fixed split: unchanged when the column is missing, otherwise with `__SPLIT__` holding the column's values (line 220) |
| SeriesSplit.FixedSplit | ludwig/data/split.py:84-87 | a missing column raises KeyError and leaves the frame alone; otherwise the method equals `_split_on_series` over the column |
| SeriesSplit.SelectByColumn | ludwig/data/split.py:87 | selecting by the column's own values equals filtering the rows whose column is k |
| SeriesSplit.FixedFoldsMeaning | ludwig/data/split.py:84-87 | fold k holds exactly the input rows whose column equals k, in order and without the scratch column; when every value is 0, 1 or 2, the folds interleave back into the whole frame |
| SeriesSplit.ThresholdFold | tests/ludwig/data/test_split.py:65-70 | the fold is 0 exactly below 60, and 1 exactly from 60 up to 80 |
| SeriesSplit.KeptRowsThreshold | tests/ludwig/data/test_split.py:58-96 | when every row's split column holds the threshold fold of its "C" value, every row kept for fold k has C in fold k |
| SeriesSplit.FixedSplitThresholds | tests/ludwig/data/test_split.py:58-96 | with the split column derived from "C" by the thresholds 60/80/100, every train row has C < 60, every validation row 60 <= C < 80 and every test row C >= 80 |
| RandomSplit.Shuffled | ludwig/data/split.py:73 | the shuffled frame has the same columns and the same number of rows |
| RandomSplit.RandomSplitOutcome | ludwig/data/split.py:61-73 | the random split never raises, and is handed to the engine's `random_split` exactly when the engine is partitioned; otherwise it cuts the shuffled frame at int(p0 * n) and int(p0 * n) + int(p1 * n) |
| RandomSplit.RandomSplitMeaning | ludwig/data/split.py:61-73 | a partitioned engine receives the frame, proportions and seed unchanged; otherwise the three folds are present, have the input's columns, are the shuffled frame laid end to end (so they hold every input row exactly once), and have sizes int(p0 * n), int(p1 * n) and the rest when p0 + p1 <= 1 |
| RandomSplit.DefaultProportionsOnHundredRows | tests/ludwig/data/test_split.py:23-48 | with (0.7, 0.1, 0.2) and 100 rows the folds hold 70, 10 and 20 rows |
| RandomSplit.NoSplitMeansEmptyFold | ludwig/data/split.py:75-76 | when `has_split` is false for train or validation, that fold is empty |
| RandomSplit.TestFoldTakesRemainder | ludwig/data/split.py:72-76 | with (0.5, 0.5, 0.0) and 3 rows, `has_split(2)` is false yet the test fold holds one row |
| StratifySplit.UniqueUpTo | ludwig/data/split.py:109 | the distinct values among the first n cells, in order of first appearance |
| StratifySplit.Unique | ludwig/data/split.py:109 | `Series.unique()`: the distinct values of the column in order of first appearance (StratifySplit.UniqueCovers and StratifySplit.UniqueDistinct state what it holds) |
| StratifySplit.UniqueCovers | ludwig/data/split.py:109 | every value of the column is among `unique()` |
| StratifySplit.UniqueDistinct | ludwig/data/split.py:109 | `unique()` lists no value twice |
| StratifySplit.PositionsUpTo | ludwig/data/split.py:110 | the positions among the first n that hold the value, increasing, each below n |
| StratifySplit.Positions | ludwig/data/split.py:110 | the index list of a value is within the frame |
| StratifySplit.PositionsHold | ludwig/data/split.py:110 | every listed index holds the value |
| StratifySplit.PositionsIncrease | ludwig/data/split.py:110 | the index list is strictly increasing |
| StratifySplit.PositionsCover | ludwig/data/split.py:110 | every index holding the value is listed |
| StratifySplit.PositionsApart | ludwig/data/split.py:110 | the index lists of two different values share no index |
| StratifySplit.Scatter | ludwig/data/split.py:117 | `split[idx_list] = val_list`: the listed positions set to the drawn folds one after another, with the same length as before (StratifySplit.ScatterAt and StratifySplit.ScatterElsewhere state its effect) |
| StratifySplit.Block | ludwig/data/split.py:112-116 | `random.choice(3, len(idx_list))` for the j-th distinct value: one fold per row holding it, the k-th being draw(j, k) |
| StratifySplit.ScatterAt | ludwig/data/split.py:117 | `split[idx_list] = val_list` with an increasing index list sets each listed index to its drawn fold |
| StratifySplit.ScatterElsewhere | ludwig/data/split.py:117 | `split[idx_list] = val_list` leaves every index outside the list unchanged |
| StratifySplit.ScatterFolds | ludwig/data/split.py:117 | scattering folds 0, 1 or 2 into labels 0, 1 or 2 keeps every label 0, 1 or 2 |
| StratifySplit.StratifyUpTo | ludwig/data/split.py:108-117 | the label array from the zeros of line 108 after the loop has handled the first j distinct values, as long as the column |
| StratifySplit.StratifyUpToFolds | ludwig/data/split.py:107-117 | after any number of iterations every label is 0, 1 or 2 |
| StratifySplit.StratifyUpToMeaning | ludwig/data/split.py:107-117 | after j iterations, the k-th row of the i-th value (i < j) holds the k-th fold drawn for that value |
| StratifySplit.Stratify | ludwig/data/split.py:107-117 | the labels after the loop has visited every distinct value; the array loop StratifySplit.StratifyLabels is proved equal to it, and StratifySplit.StratifyMeaning states what it assigns |
| StratifySplit.ScatterInto | ludwig/data/split.py:117 | the array afterwards is the scatter of its old contents |
| StratifySplit.StratifyLabels | ludwig/data/split.py:107-117 | the label array the loop builds equals the specification `Stratify` |
| StratifySplit.StratifyMeaning | ludwig/data/split.py:107-117 | the k-th row holding the j-th distinct value gets the k-th fold drawn for that value; every row belongs to exactly such a slot; every label is 0, 1 or 2 |
| StratifySplit.StratifyPartitionedMessage | ludwig/data/split.py:105 | the ValueError message for stratify on a partitioned engine, character for character |
| StratifySplit.StratifyOutcome | ludwig/data/split.py:100-118 | the stratify split raises exactly when the engine is partitioned or the column is missing; it is never delegated; otherwise its folds are those of `_split_on_series` over the drawn labels |
| StratifySplit.StratifyState | ludwig/data/split.py:100-118 | the caller's frame after a stratify split: unchanged when it raises, otherwise with `__SPLIT__` holding the drawn labels (line 220) |
| StratifySplit.StratifySplit | ludwig/data/split.py:100-118 | a partitioned engine raises ValueError with the source's message; a missing column raises KeyError; otherwise the method equals `_split_on_series` over the drawn labels |
| StratifySplit.StratifyFoldsMeaning | ludwig/data/split.py:100-118 | the folds interleave back into every input row without the scratch column, and their sizes add up to n |
| StratifySplit.StratifyAvoids | ludwig/data/split.py:112-117 | a fold the choices never yield is no row's label |
| StratifySplit.StratifyNoSplitMeansNone | ludwig/data/split.py:112-132 | when the choices only yield folds of positive probability and `has_split(i)` is false, fold i is None |
| DatetimeSplit.Digits | ludwig/data/split.py:162 | the decimal digits of a natural number, as Python's `str` writes them |
| DatetimeSplit.IntToString | ludwig/data/split.py:162 | Python's `str` of an integer, with a leading minus for a negative one |
| DatetimeSplit.DateString | ludwig/data/split.py:162 | the f-string `"{x[0]}-{x[1]}-{x[2]} {x[5]}:{x[6]}:{x[7]}"` over the texts of the elements |
| DatetimeSplit.Chars | ludwig/data/split.py:162 | each character of a string as its own text, which is what indexing a string yields |
| DatetimeSplit.FormatList | ludwig/data/split.py:162 | the f-string over a list of integers, each written by `str` |
| DatetimeSplit.ListToDateStrAsWritten | ludwig/data/split.py:159-162 | `list_to_date_str` with its `and` guard: an integer raises TypeError, a string is returned unless its length is 9 and then formatted character by character, and every list is formatted from elements 0, 1, 2, 5, 6 and 7, raising IndexError when shorter than 8 |
| DatetimeSplit.ListToDateStr | ludwig/data/split.py:159-162 | `list_to_date_str` with the `or` guard: a 9-element list becomes "y-m-d H:M:S" from elements 0, 1, 2, 5, 6 and 7, and every other value is returned unchanged |
| DatetimeSplit.ListToDateStrMeaning | ludwig/data/split.py:159-162 | the intended conversion changes a value exactly when it is a 9-element list; it yields a string or the value unchanged; it is idempotent; it agrees with the code as written on 9-element lists and on strings whose length is not 9 |
| DatetimeSplit.ListToDateStrAsWrittenDiffers | ludwig/data/split.py:160 | as written, an integer raises TypeError, "2021-1-01" is scrambled into "2-0-2 1:-:0", and [1, 2, 3] raises IndexError; the intended conversion returns each unchanged |
| DatetimeSplit.Normalized | ludwig/data/split.py:164 | `map_objects(column, list_to_date_str)`: the corrected conversion applied to each cell, in order |
| DatetimeSplit.ParseAll | ludwig/data/split.py:168 | `to_datetime` succeeds exactly when every value parses, fails with a parse error otherwise, and keeps each timestamp in place |
| DatetimeSplit.SortedFrame | ludwig/data/split.py:171 | the sorted frame has the input's columns except the scratch column, and the same number of rows |
| DatetimeSplit.SortThenDrop | ludwig/data/split.py:171 | sorting the marked frame by the scratch column and dropping it gives the sorted frame |
| DatetimeSplit.DatetimeOutcome | ludwig/data/split.py:154-176 | the corrected datetime split raises exactly when the column is missing or some normalised value does not parse; it is delegated only on a partitioned engine, which receives the sorted frame; otherwise it cuts the sorted frame like the random split |
| DatetimeSplit.DatetimeState | ludwig/data/split.py:164-168 | the caller's frame after a datetime split: unchanged when the column is missing, otherwise with `__SPLIT__` holding the normalised values, or the timestamps once every value parses |
| DatetimeSplit.DatetimeSplit | ludwig/data/split.py:154-176 | corrected to read `self.column` and to use the `or` guard of line 160 (DatetimeSplit.ListToDateStr): a missing column raises KeyError, a rejected value raises the parse error, a partitioned engine receives the sorted frame and proportions; the caller's frame keeps the scratch column |
| DatetimeSplit.DatetimeAsWrittenOutcome | ludwig/data/split.py:149-164 | what the datetime split as written ends in: AttributeError on `col`, which the constructor never sets |
| DatetimeSplit.DatetimeSplitAsWritten | ludwig/data/split.py:164 | as written the split ends in DatetimeSplit.DatetimeAsWrittenOutcome for every frame, and, having no `modifies` clause, leaves the frame untouched |
| DatetimeSplit.ColumnParses | ludwig/data/split.py:164-168 | when every converted value parses, the whole column parses |
| DatetimeSplit.DatetimeCutsSorted | ludwig/data/split.py:164-176 | when the column is present and every date parses, the corrected split on a local engine cuts the frame sorted by timestamp, without the scratch column |
| DatetimeSplit.DatetimeFoldsMeaning | ludwig/data/split.py:154-176 | the corrected split succeeds, and its folds laid end to end are the rows, without the scratch column, taken in the order `sort_values` gives the timestamps |
| DatetimeSplit.DatetimeFoldsPermute | ludwig/data/split.py:154-176 | the folds hold every input row, without the scratch column, exactly as often as the frame does |
| DatetimeSplit.DatetimeFoldsChronological | ludwig/data/split.py:168-176 | the i-th row of the folds laid end to end is the input row at the i-th position of an order ascending by timestamp |
| DatetimeSplit.DatetimeFoldSizes | ludwig/data/split.py:171-176 | when p0 + p1 <= 1 train holds the int(p0 * n) earliest rows, validation the next int(p1 * n), test the rest |
| SplitDataset.SplitOutcome | ludwig/data/split.py:216 | `splitter.split(df, backend, random_seed)`: the outcome of the built splitter's own split |
| SplitDataset.SplitState | ludwig/data/split.py:216 | the caller's frame after the built splitter's own split |
| SplitDataset.SplitWith | ludwig/data/split.py:216 | `splitter.split` dispatches to the splitter's own split, both for the outcome and for the caller's frame |
| SplitDataset.Warns | ludwig/data/split.py:210 | the warning condition: the parameters have no split section and the frame has a "split" column |
| SplitDataset.SplitDatasetOutcome | ludwig/data/split.py:204-216 | the corrected `split_dataset`: an unknown type raises ValueError naming it, a constructor's TypeError is raised, and otherwise the outcome is the built splitter's split |
| SplitDataset.SplitDatasetState | ludwig/data/split.py:204-216 | the caller's frame after the corrected `split_dataset`: unchanged when `get_splitter` raises, otherwise as the built splitter leaves it |
| SplitDataset.SplitDatasetAsWritten | ludwig/data/split.py:204-216 | `split_dataset` as written: an unknown type ends in AttributeError on `split`, a constructor's TypeError is raised, a datetime splitter raises AttributeError on `col`, and every other splitter runs its split |
| SplitDataset.SplitDataset | ludwig/data/split.py:204-216 | the corrected `split_dataset`, whose `get_splitter` raises and whose datetime split reads `self.column` with the `or` guard: warns exactly when there is no split section and the frame has a "split" column; the outcome and the caller's frame are those of the splitter `get_splitter` builds, and an unknown type raises |
| SplitDataset.UnknownTypeFinding | ludwig/data/split.py:197-216 | for an unknown type, the code as written ends in AttributeError on `split`; the corrected one raises ValueError naming the type and leaves the frame alone |
| SplitDataset.DatetimeBuilds | ludwig/data/split.py:139-152 | a `datetime` section with a column builds the datetime splitter with its defaults, in both versions of `get_splitter` |
| SplitDataset.DatetimeFinding | ludwig/data/split.py:164-216 | for a datetime section whose column is present and parses, the code as written ends in AttributeError on `col`, while the corrected one returns folds |
| SplitDataset.AsWrittenAgrees | ludwig/data/split.py:197-216 | for every registered type but datetime, the code as written and the corrected one end alike |
| SplitDataset.WarningMeansDefaultRandom | ludwig/data/split.py:210-216 | when the warning fires, the default random split with (0.7, 0.1, 0.2) runs and the frame is unchanged |
| SplitDataset.RequiredColumnsMeaning | ludwig/data/split.py:50-53 | only random requires no column; a required column that is missing raises KeyError naming it and leaves the frame alone, except for stratify on a partitioned engine, which raises its ValueError first; random never raises |

## Left out

- `set_random_seed` and the random generators are left out. The shuffle permutation and the stratify draws are parameters, so the model covers every seed.
- The stratify draws are indexed by (distinct value, row) rather than taken from one stream. Any stream can be written as such a function, but the model does not say which draws come from which seed.
- The partitioned engine's `random_split` and `split` are returned as delegated calls, because their source is not part of this model.
- The pandas engine's `split` is modelled as the same floor cut as the random splitter, without a shuffle. Its source is not part of this model.
- `split_dataset_ttv` is modelled as filtering rows by label 0, 1 and 2 in order, with None for an empty fold. Its source is not part of this model.
- `sort_values` is a stable sort of row positions by timestamp. pandas' default sort is not stable, so the order of rows with equal timestamps may differ.
- The frame's index is assumed to be the default range index. `df.index[...]` in the stratify loop then equals row positions.
- NaN values and their comparison rules are not modelled.
- `to_datetime` is modelled value by value. pandas parses the whole column at once and infers one format for it, so a column can fail even when each value parses on its own.
- Cells hold integers, strings or integer lists only. Float and bool cells are not modelled, so pandas' `0.0 == 0` and `True == 1`, which let `split_dataset_ttv` select such rows, are not covered.
- A list value in a stratify column is not modelled. `unique()` raises TypeError on unhashable values.
- Floating point is modelled by real numbers. `int(p * n)` is the floor of the exact product, so IEEE rounding is not modelled.
- numpy's check that the probabilities sum to 1 is not modelled. The draws are given as parameters.
- Registry aliases and registry internals are left out. The registry is the map from None and the four names to the splitter kinds.
- `logging.info` in `validate` becomes a returned flag, and `warnings.warn` in `split_dataset` becomes a returned flag.
- Extra keyword arguments, which every constructor accepts and ignores, are not modelled.
- `datetime_format` and `fill_value` are stored but unused by the split, so nothing is proved about them.
- Splitters.CutSizes: the exact sizes are proved only when p0 + p1 <= 1. Otherwise Python's slice clamping applies, which CutRows models, but no size lemma covers it.

## Findings

| source | as written | input that shows it | evidently intended | confidence | as-written member | corrected member |
|---|---|---|---|---|---|---|
| ludwig/data/split.py:197-201 | `get_splitter` returns a ValueError object for an unknown type, so `split_dataset` then fails on `.split` with AttributeError | `{"type": "bogus"}` as the split section (SplitDataset.UnknownTypeFinding) | raise ValueError("Invalid split type: bogus") | high, not executed | Splitters.GetSplitterAsWritten | Splitters.GetSplitter |
| ludwig/data/split.py:164 | `DatetimeSplitter.split` reads `self.col`, which the constructor never sets, so every datetime split raises AttributeError | any frame with the datetime column, e.g. one row with a parseable date (SplitDataset.DatetimeFinding) | read `self.column`; the corrected split also uses the `or` guard of the line-160 row | high, not executed | DatetimeSplit.DatetimeSplitAsWritten | DatetimeSplit.DatetimeSplit |
| ludwig/data/split.py:160 | `not isinstance(x, list) and len(x) != 9` passes strings of length 9 and short lists to the formatter, and calls `len` on integers | Int(5), Str("2021-1-01"), IntList([1, 2, 3]) | `not isinstance(x, list) or len(x) != 9` | high, not executed | DatetimeSplit.ListToDateStrAsWrittenDiffers | DatetimeSplit.ListToDateStrMeaning |
