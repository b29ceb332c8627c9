/**
 The raw form values and the one-row feature record built from them:
 twelve columns in schema order, `month` and `day` replaced by their codes,
 every other value copied through.
 */
module Features {
  import opened Results
  import opened Columns
  import opened Categories

  /** One submission of the form. X and Y are integers, month and day are
      labels, the eight weather readings are reals. */
  datatype RawInput = RawInput(
    x: int, y: int, month: string, day: string,
    ffmc: real, dmc: real, dc: real, isi: real,
    temp: real, rh: real, wind: real, rain: real)

  /** One cell of the record: integer columns stay integers until they are scaled. */
  datatype Cell = IntCell(n: int) | RealCell(v: real) {
    /** The cell as the float the scaler and the model read. */
    function AsReal(): real {
      match this
      case IntCell(n) => n as real
      case RealCell(v) => v
    }
  }

  /** The one-row feature table: one cell per schema column, in schema order,
      so the cell under column `c` sits at `Position(c)`. */
  datatype Record = Record(cells: seq<Cell>) {

    /** One cell for each of the twelve schema columns. */
    predicate Valid() {
      |cells| == |Schema|
    }

    /** `record[c]`: the cell under column `c`. */
    function Get(c: Column): Cell
      requires Valid()
    {
      cells[Position(c)]
    }

    /** The row as the float vector a scikit-learn estimator reads, in column order. */
    function Row(): (v: seq<real>)
      ensures |v| == |cells|
    {
      seq(|cells|, i requires 0 <= i < |cells| => cells[i].AsReal())
    }
  }

  /** The raw value behind a numeric column, as a cell. */
  function RawCell(raw: RawInput, c: Column): Cell
    requires c !in CodeCols
  {
    match c
    case X => IntCell(raw.x)
    case Y => IntCell(raw.y)
    case FFMC => RealCell(raw.ffmc)
    case DMC => RealCell(raw.dmc)
    case DC => RealCell(raw.dc)
    case ISI => RealCell(raw.isi)
    case Temp => RealCell(raw.temp)
    case RH => RealCell(raw.rh)
    case Wind => RealCell(raw.wind)
    case Rain => RealCell(raw.rain)
    case Month | Day => assert false; IntCell(0)
  }

  /** get_user_input after the widgets: encode month, then day, then lay the
      twelve values out in schema order. An unknown month or day label fails
      with that label as the missing key, the month being looked up first. */
  function BuildRecord(raw: RawInput): (r: Result<Record>)
    ensures r.Ok? <==> raw.month in MonthLabels && raw.day in DayLabels
    ensures raw.month !in MonthLabels ==> r == Err(UnknownCategory(raw.month))
    ensures raw.month in MonthLabels && raw.day !in DayLabels ==> r == Err(UnknownCategory(raw.day))
    ensures r.Ok? ==> r.value.Valid()
    ensures r.Ok? ==> && r.value.Get(Month).IntCell? && 0 <= r.value.Get(Month).n < 12
                      && MonthLabels[r.value.Get(Month).n] == raw.month
    ensures r.Ok? ==> && r.value.Get(Day).IntCell? && 0 <= r.value.Get(Day).n < 7
                      && DayLabels[r.value.Get(Day).n] == raw.day
    ensures r.Ok? ==> r.value.Get(Month) == IntCell(MonthMap[raw.month])
    ensures r.Ok? ==> r.value.Get(Day) == IntCell(DayMap[raw.day])
    ensures r.Ok? ==> forall c :: c !in CodeCols ==> r.value.Get(c) == RawCell(raw, c)
  {
    var month :- EncodeMonth(raw.month);
    var day :- EncodeDay(raw.day);
    MonthMapIsCalendarOrder();
    DayMapIsWeekOrder();
    LayoutCells(raw, month, day);
    Ok(Layout(raw, month, day))
  }

  /** The `data` dict of get_user_input, laid out in schema order. */
  function Layout(raw: RawInput, month: int, day: int): Record {
    Record([
      IntCell(raw.x), IntCell(raw.y), IntCell(month), IntCell(day),
      RealCell(raw.ffmc), RealCell(raw.dmc), RealCell(raw.dc), RealCell(raw.isi),
      RealCell(raw.temp), RealCell(raw.rh), RealCell(raw.wind), RealCell(raw.rain)])
  }

  /** Read by column, the laid-out record holds the codes under `month` and
      `day` and the raw value under every other column. */
  lemma LayoutCells(raw: RawInput, month: int, day: int)
    ensures Layout(raw, month, day).Valid()
    ensures Layout(raw, month, day).Get(Month) == IntCell(month)
    ensures Layout(raw, month, day).Get(Day) == IntCell(day)
    ensures forall c :: c !in CodeCols ==> Layout(raw, month, day).Get(c) == RawCell(raw, c)
  {
  }
}
