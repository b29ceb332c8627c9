# Forest-fire area prediction: the inference-time feature pipeline

A Dafny model of the part of the Streamlit forest-fire app that turns a
form submission into a burned-area prediction (`app.py`). The pipeline has
four steps:

1. **Category encoding.** Two fixed tables, `month_map` and `day_map`, turn
   three-letter month and day labels into integer codes. A dict subscript
   on an unknown label raises `KeyError`.
2. **Record assembly** (`get_user_input`). One twelve-column row is built
   in the training column order `X, Y, month, day, FFMC, DMC, DC, ISI,
   temp, RH, wind, rain`. `month` and `day` hold their codes. Every other
   value is copied through unchanged.
3. **Numeric splice.** The ten `numerical_cols` are read in their fixed
   order and go through the fitted scaler. The scaler's output is written
   back under the same columns, on a copy of the record.
4. **Prediction.** The whole twelve-column row goes to the fitted
   regressor, and its log-scale output goes through `expm1`.

The scaler, the regressor and `expm1` are opaque here. They are parameters
of the pipeline (`Scaler`, `Model`, `real -> real`). The model pins down
exactly what goes into them and where their results go.

Modules:

- `Results`: the failures (`UnknownCategory` for the `KeyError`, and
  `ShapeMismatch` for the `ValueError` pandas raises when a block of the
  wrong width is assigned). It also defines the result type.
- `Sequences`: generic lemmas about distinctness, positions, and order
  being kept when a slice is cut out of a sequence.
- `Columns`: the twelve-column schema and `numerical_cols`.
- `Categories`: the two tables, the lookup, and their properties.
- `Features`: the raw input, cells and the feature record, and `BuildRecord`.
- `Pipeline`: column selection, the splice on a copy, and the end-to-end
  `Predict`.

Three points where the code is easy to misread; the model follows the code:

- The comment at `app.py:27` says the tables match a `LabelEncoder`, which
  numbers labels alphabetically. The tables are actually in calendar order:
  jan→0 … dec→11 and mon→0 … sun→6. The model uses the tables as written.
  `MonthMapIsNotAlphabetical` and `DayMapIsNotAlphabetical` show that the
  tables disagree with an alphabetical numbering. The training script is
  not part of this model, so which order the fitted model expects cannot
  be decided here.
- The only shape check in app.py's own code is the pandas width check when
  the scaler's output is assigned back (app.py:89). The fitted scaler and
  regressor check the column count (and, in recent scikit-learn, the
  column names) of what they are given. Those checks belong to the
  artifacts, so they are left out (see "## Left out").
- An unknown category is the `KeyError` of the dict subscript. The month
  is looked up first, so when both labels are unknown, the month label is
  the one reported.

Records are immutable values. The splice therefore builds a new record,
and the encoded record it starts from is unchanged by construction, as the
copy at `app.py:88` intends.

## Model

| member | source | states |
|---|---|---|
| Categories.MonthMapIsCalendarOrder | app.py:28-31 | month_map has exactly the twelve labels jan..dec as keys, and it codes each label by its calendar position (jan→0 … dec→11) |
| Categories.DayMapIsWeekOrder | app.py:32-34 | day_map has exactly the seven labels mon..sun as keys, and it codes each label by its weekday position (mon→0 … sun→6) |
| Categories.PositionalTable | app.py:28-34 | a table that codes labels by position is injective and has no repeated labels; its codes are exactly 0..n-1, and each code leads back to its label |
| Categories.LookupPositional | app.py:60-61 | `Lookup`, the dict subscript: a lookup in such a table succeeds exactly on the listed labels, giving position i if and only if the label is the i-th; any other label fails with that label as the missing key |
| Categories.EncodeMonth | app.py:60 | `month_map[month]` succeeds if and only if the month is one of the twelve labels; the code is in 0..11 and names that label; otherwise it fails with UnknownCategory(month) |
| Categories.EncodeDay | app.py:61 | `day_map[day]` succeeds if and only if the day is one of the seven labels; the code is in 0..6 and names that label; otherwise it fails with UnknownCategory(day) |
| Categories.SampleCodes | app.py:28-34 | jan→0, mar→2, dec→11; mon→0, fri→4, sun→6 |
| Categories.UnknownLabelsFail | app.py:60-61 | labels are matched exactly: "Jan", "january" and "" are rejected with themselves as the missing key |
| Categories.DropdownLabelsEncode | app.py:48-49 | every label the dropdowns offer (the tables' own keys, in insertion order) encodes successfully, and the i-th offered label gets code i |
| Categories.MonthMapIsNotAlphabetical | app.py:27-31 | contrary to the comment, month_map is not the alphabetical LabelEncoder numbering: jan gets 0 in the table but would get 4 alphabetically |
| Categories.DayMapIsNotAlphabetical | app.py:27-34 | day_map is not the alphabetical numbering either: mon gets 0 but would get 1 alphabetically |
| Columns.SchemaNames | app.py:64-68 | the schema's column names are the dict keys X, Y, month, day, FFMC, DMC, DC, ISI, temp, RH, wind, rain in that order, with no name twice; the scaled columns' names are the list X, Y, FFMC, DMC, DC, ISI, temp, RH, wind, rain at app.py:85 |
| Columns.NameInjective | app.py:64-68 | distinct columns have distinct names, so addressing a column by its name is unambiguous |
| Columns.SchemaShape | app.py:63-68 | the record has twelve columns, each exactly once, with month and day in third and fourth place, and each column at its fixed position |
| Columns.NumericalColsOrder | app.py:85 | numerical_cols is the schema with the month, day slice cut out: ten distinct columns, in the same relative order as in the schema |
| Columns.NumericalColsMembers | app.py:85 | a column is in numerical_cols exactly when it is neither month nor day |
| Features.BuildRecord | app.py:59-69 | the build, which lays the `data` dict out with `Layout` (its cells read by column via `LayoutCells`), succeeds if and only if both labels are in the tables; an unknown month (checked first) or an unknown day fails with that label; on success, month and day hold codes naming the input labels, and the other ten columns hold the raw values unchanged |
| Pipeline.Select | app.py:89 | `scaled_input_df[numerical_cols]` read as floats: one value per requested column, the j-th being the value under the j-th column |
| Pipeline.AssignColumns | app.py:88-89 | the splice on a copy: a block whose width is not the number of target columns fails; otherwise each target column takes the value at its index in the block, and every other column is unchanged |
| Pipeline.ScaleRecord | app.py:85-89 | the ten numerical columns go through the scaler in order, and each takes the scaler output at its index; month and day keep their codes; the width is still twelve; a scaler output whose width is not ten is rejected |
| Pipeline.SelectRawColumns | app.py:85-89 | from a record holding the raw values under its non-code columns (as every built record does), the scaler reads exactly the ten raw numeric inputs X, Y, FFMC, DMC, DC, ISI, temp, RH, wind, rain, in that order |
| Pipeline.RowOfScaledRecord | app.py:89-91 | the row given to the model (`Record.Row`, the float vector `model.predict` reads) is the scaler's ten outputs in schema order, with the month and day codes in third and fourth place |
| Pipeline.Predict | app.py:85-94 | end to end: an unknown month, then an unknown day, then a wrong-width scaler output each fail with the matching error; otherwise the result is expm1(model(row)), where the row holds the scaler's outputs on the raw numeric inputs and the two table codes in schema order |
| Pipeline.PredictTwice | app.py:85-94 | with fixed artifacts, two predictions from the same input give the same result |
| Pipeline.MarchFridayRecord | app.py:45-69 | for the form defaults with mar and fri, the record carries codes 2 and 4, and the scaler is given 5, 5, 90, 100, 500, 10, 20, 50, 4, 0 in that order |
| Pipeline.MarchFridayPrediction | app.py:85-94 | for that input, with any scaler that returns ten values, the prediction succeeds; the model sees the scaled values with 2 and 4 in third and fourth place |

## Left out

- Streamlit widgets, page chrome, and the display of the input and of the result, including the two-decimal "ha" formatting (app.py:12-14, 37-57, 76-77, 96-98). These are UI. The slider ranges are widget hints, not checks. The model's raw input therefore takes any integers for X and Y and any reals for the weather readings.
- Loading the scaler and the model from disk, the missing-file message and the halt (app.py:18-24), and the warnings filter (app.py:9). These are I/O and deserialisation. A failed load stops the script before any prediction, so the model starts from loaded artifacts.
- The internals of the fitted scaler and regressor (app.py:89, 91). These are foreign library objects, so they are opaque function parameters. Their own input validation is not modelled: the ValueError scikit-learn raises when the number of columns (or, in recent versions, their names) differs from fit time.
- `np.expm1` (app.py:94). This is floating-point numerics, so it is an opaque function applied last. The log1p round trip and expm1(0) = 0 are therefore not stated.
- The one-element array returned by `model.predict` and the `[0]` that reads it are modelled as a single value.
- Floating point. The weather readings are IEEE doubles in the program and exact `real`s here; X and Y are unbounded integers, and converting an integer cell to a float is exact, where numpy's int64-to-float64 conversion rounds above 2^53. This does not affect what is stated: the pipeline only copies values and moves them between positions, and all arithmetic happens inside the opaque scaler, model and expm1.
- pandas DataFrame mechanics. The record is a twelve-cell sequence in schema order. Integer columns stay integer cells until they are scaled.
- Pipeline.Predict: does not state that the predicted area is non-negative. That depends on the opaque regressor and on expm1, and nothing in the code enforces it.
