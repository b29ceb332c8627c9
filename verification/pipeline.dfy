/**
 The prediction step: scale the ten numerical columns of the feature record
 on a copy, hand the whole twelve-column row to the model, and undo the
 log transform of the target. The fitted scaler, the fitted model and
 expm1 are parameters: the pipeline fixes only what goes into them and
 where their results go.
 */
module Pipeline {
  import opened Results
  import opened Sequences
  import opened Columns
  import opened Categories
  import opened Features

  /** The fitted scaler's transform, on one row of the numerical columns. */
  type Scaler = seq<real> -> seq<real>

  /** The fitted regressor's prediction for one row, on the log1p scale. */
  type Model = seq<real> -> real

  /** `record[names]` read as floats: the values under the given columns, in that order. */
  function Select(rec: Record, names: seq<Column>): (v: seq<real>)
    requires rec.Valid()
    ensures |v| == |names|
    ensures forall j :: 0 <= j < |names| ==> v[j] == rec.Get(names[j]).AsReal()
  {
    if names == [] then [] else [rec.Get(names[0]).AsReal()] + Select(rec, names[1..])
  }

  /** `out = rec.copy(); out[names] = values`: a copy of the record whose cells
      under `names` hold `values` in order, all other cells unchanged. A block
      whose width is not the number of target columns is rejected. */
  method AssignColumns(rec: Record, names: seq<Column>, values: seq<real>) returns (out: Result<Record>)
    requires rec.Valid() && Distinct(names)
    ensures out.Ok? <==> |values| == |names|
    ensures out.Err? ==> out.error == ShapeMismatch(|names|, |values|)
    ensures out.Ok? ==> out.value.Valid()
    ensures out.Ok? ==> forall j :: 0 <= j < |names| ==> out.value.Get(names[j]) == RealCell(values[j])
    ensures out.Ok? ==> forall c :: c !in names ==> out.value.Get(c) == rec.Get(c)
  {
    if |values| != |names| {
      return Err(ShapeMismatch(|names|, |values|));
    }
    SchemaShape();
    var cells := rec.cells;
    for j := 0 to |names|
      invariant |cells| == |rec.cells|
      invariant forall k :: 0 <= k < j ==> cells[Position(names[k])] == RealCell(values[k])
      invariant forall c :: c !in names[..j] ==> cells[Position(c)] == rec.cells[Position(c)]
    {
      forall k | 0 <= k < j ensures Position(names[k]) != Position(names[j]) {
        assert names[k] != names[j];
      }
      assert names[..j + 1] == names[..j] + [names[j]];
      cells := cells[Position(names[j]) := RealCell(values[j])];
    }
    assert names[..|names|] == names;
    return Ok(Record(cells));
  }

  /** The scaling step on a copy of the encoded record: the ten numerical
      columns, read in their fixed order, go through the scaler and its output
      is written back under the same columns; `month` and `day` keep their
      codes. */
  method ScaleRecord(encoded: Record, scale: Scaler) returns (r: Result<Record>)
    requires encoded.Valid()
    ensures r.Ok? <==> |scale(Select(encoded, NumericalCols))| == 10
    ensures r.Err? ==> r.error == ShapeMismatch(10, |scale(Select(encoded, NumericalCols))|)
    ensures r.Ok? ==> r.value.Valid()
    ensures r.Ok? ==> r.value.Get(Month) == encoded.Get(Month) && r.value.Get(Day) == encoded.Get(Day)
    ensures r.Ok? ==> forall j :: 0 <= j < 10 ==>
              r.value.Get(NumericalCols[j]) == RealCell(scale(Select(encoded, NumericalCols))[j])
  {
    var block := Select(encoded, NumericalCols);
    assert Distinct(NumericalCols) by {
      NumericalColsOrder();
    }
    assert Month !in NumericalCols && Day !in NumericalCols;
    r := AssignColumns(encoded, NumericalCols, scale(block));
  }

  /** The ten values the scaler is given for a raw input, in numerical-column order. */
  function ScalerInput(raw: RawInput): seq<real> {
    [raw.x as real, raw.y as real, raw.ffmc, raw.dmc, raw.dc, raw.isi,
     raw.temp, raw.rh, raw.wind, raw.rain]
  }

  /** The twelve values the model is given, in schema order: the scaler's ten
      outputs with the month and day codes in third and fourth place. */
  function ModelInput(month: int, day: int, scaled: seq<real>): seq<real>
    requires |scaled| == 10
  {
    [scaled[0], scaled[1], month as real, day as real,
     scaled[2], scaled[3], scaled[4], scaled[5], scaled[6], scaled[7], scaled[8], scaled[9]]
  }

  /** From a record holding the raw values under the non-code columns (as a
      built record does), the scaler reads exactly the raw numeric inputs in order. */
  lemma SelectRawColumns(raw: RawInput, rec: Record)
    requires rec.Valid()
    requires forall c :: c !in CodeCols ==> rec.Get(c) == RawCell(raw, c)
    ensures Select(rec, NumericalCols) == ScalerInput(raw)
  {
  }

  /** The row of a scaled record is the model input built from its codes and
      the scaler output. */
  lemma RowOfScaledRecord(scaled: Record, month: int, day: int, out: seq<real>)
    requires scaled.Valid() && |out| == 10
    requires scaled.Get(Month) == IntCell(month) && scaled.Get(Day) == IntCell(day)
    requires forall j :: 0 <= j < 10 ==> scaled.Get(NumericalCols[j]) == RealCell(out[j])
    ensures scaled.Row() == ModelInput(month, day, out)
  {
  }

  /** The button handler: build the record, scale the numerical columns on a
      copy, predict from the full twelve-column row, and map the log-scale
      prediction back with `expm1`. The result depends only on the raw input
      and the three fixed functions. */
  method Predict(raw: RawInput, scale: Scaler, model: Model, expm1: real -> real) returns (r: Result<real>)
    ensures raw.month !in MonthLabels ==> r == Err(UnknownCategory(raw.month))
    ensures raw.month in MonthLabels && raw.day !in DayLabels ==> r == Err(UnknownCategory(raw.day))
    ensures raw.month in MonthLabels && raw.day in DayLabels && |scale(ScalerInput(raw))| != 10 ==>
              r == Err(ShapeMismatch(10, |scale(ScalerInput(raw))|))
    ensures r.Ok? <==> raw.month in MonthLabels && raw.day in DayLabels && |scale(ScalerInput(raw))| == 10
    ensures r.Ok? ==>
              r.value == expm1(model(ModelInput(MonthMap[raw.month], DayMap[raw.day], scale(ScalerInput(raw)))))
  {
    var encoded :- BuildRecord(raw);
    SelectRawColumns(raw, encoded);
    var scaled :- ScaleRecord(encoded, scale);
    RowOfScaledRecord(scaled, MonthMap[raw.month], DayMap[raw.day], scale(ScalerInput(raw)));
    var logArea := model(scaled.Row());
    return Ok(expm1(logArea));
  }

  /** Two predictions from the same input with the same fitted artifacts agree. */
  method PredictTwice(raw: RawInput, scale: Scaler, model: Model, expm1: real -> real)
    returns (first: Result<real>, second: Result<real>)
    ensures first == second
  {
    first := Predict(raw, scale, model, expm1);
    second := Predict(raw, scale, model, expm1);
  }

  /** The form's default values with month `mar` and day `fri`. */
  const MarchFriday := RawInput(5, 5, "mar", "fri", 90.0, 100.0, 500.0, 10.0, 20.0, 50.0, 4.0, 0.0)

  /** For that input the record carries the codes 2 and 4 and the scaler is
      given the ten numeric values in numerical-column order. */
  lemma MarchFridayRecord()
    ensures BuildRecord(MarchFriday).Ok?
    ensures BuildRecord(MarchFriday).value.Get(Month) == IntCell(2)
    ensures BuildRecord(MarchFriday).value.Get(Day) == IntCell(4)
    ensures Select(BuildRecord(MarchFriday).value, NumericalCols) ==
              [5.0, 5.0, 90.0, 100.0, 500.0, 10.0, 20.0, 50.0, 4.0, 0.0]
  {
    assert EncodeMonth("mar") == Ok(2) && EncodeDay("fri") == Ok(4);
    var rec := BuildRecord(MarchFriday).value;
    SelectRawColumns(MarchFriday, rec);
  }

  /** End to end on that input: the model sees the scaled values with the codes
      2 and 4 in third and fourth place. */
  method MarchFridayPrediction(scale: Scaler, model: Model, expm1: real -> real) returns (r: Result<real>)
    requires |scale([5.0, 5.0, 90.0, 100.0, 500.0, 10.0, 20.0, 50.0, 4.0, 0.0])| == 10
    ensures r.Ok?
    ensures r.value == expm1(model(ModelInput(2, 4, scale([5.0, 5.0, 90.0, 100.0, 500.0, 10.0, 20.0, 50.0, 4.0, 0.0]))))
  {
    assert ScalerInput(MarchFriday) == [5.0, 5.0, 90.0, 100.0, 500.0, 10.0, 20.0, 50.0, 4.0, 0.0];
    r := Predict(MarchFriday, scale, model, expm1);
  }
}
