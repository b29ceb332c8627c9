/**
 The two fixed category tables that turn month and day labels into the
 integer codes the model was trained on, and the dict-subscript lookup
 that applies them.
 */
module Categories {
  import opened Results
  import opened Sequences

  /** month_map. */
  const MonthMap: map<string, int> := map[
    "jan" := 0, "feb" := 1, "mar" := 2, "apr" := 3, "may" := 4, "jun" := 5,
    "jul" := 6, "aug" := 7, "sep" := 8, "oct" := 9, "nov" := 10, "dec" := 11]

  /** day_map. */
  const DayMap: map<string, int> := map[
    "mon" := 0, "tue" := 1, "wed" := 2, "thu" := 3, "fri" := 4, "sat" := 5, "sun" := 6]

  /** The keys of month_map in insertion order: the choices the month dropdown offers. */
  const MonthLabels: seq<string> :=
    ["jan", "feb", "mar", "apr", "may", "jun", "jul", "aug", "sep", "oct", "nov", "dec"]

  /** The keys of day_map in insertion order: the choices the day dropdown offers. */
  const DayLabels: seq<string> := ["mon", "tue", "wed", "thu", "fri", "sat", "sun"]

  /** `table` has exactly the labels of `labels` as keys and codes each key by
      its position in `labels`. */
  ghost predicate CodesArePositions(table: map<string, int>, labels: seq<string>) {
    && (forall l :: l in table ==> l in labels)
    && (forall i :: 0 <= i < |labels| ==> labels[i] in table && table[labels[i]] == i)
  }

  /** The month table codes the months in calendar order, jan first. */
  lemma MonthMapIsCalendarOrder()
    ensures |MonthLabels| == 12
    ensures CodesArePositions(MonthMap, MonthLabels)
  {
  }

  /** The day table codes the days in week order starting on Monday. */
  lemma DayMapIsWeekOrder()
    ensures |DayLabels| == 7
    ensures CodesArePositions(DayMap, DayLabels)
  {
  }

  /** A positional table is injective, has no repeated labels, and its codes
      are exactly `0 .. |labels| - 1`. */
  lemma PositionalTable(table: map<string, int>, labels: seq<string>)
    requires CodesArePositions(table, labels)
    ensures Distinct(labels)
    ensures forall a, b :: a in table && b in table && table[a] == table[b] ==> a == b
    ensures forall l :: l in table ==> 0 <= table[l] < |labels| && labels[table[l]] == l
    ensures forall v :: v in table.Values <==> 0 <= v < |labels|
  {
    forall l | l in table ensures 0 <= table[l] < |labels| && labels[table[l]] == l {
      var i := IndexOf(labels, l);
      assert table[labels[i]] == i;
    }
    forall i | 0 <= i < |labels| ensures i in table.Values {
      assert table[labels[i]] == i;
    }
  }

  /** A dict subscript: the code of `key`, or the KeyError the subscript raises. */
  function Lookup(table: map<string, int>, key: string): Result<int> {
    if key in table then Ok(table[key]) else Err(UnknownCategory(key))
  }

  /** Encoding through a positional table succeeds exactly on the labels of the
      list and then yields the key's position; anything else is rejected
      with the key itself as the missing key. */
  lemma LookupPositional(table: map<string, int>, labels: seq<string>, key: string)
    requires CodesArePositions(table, labels)
    ensures Lookup(table, key).Ok? <==> key in labels
    ensures Lookup(table, key).Err? ==> Lookup(table, key).error == UnknownCategory(key)
    ensures forall i :: 0 <= i < |labels| ==> (Lookup(table, key) == Ok(i) <==> labels[i] == key)
  {
    PositionalTable(table, labels);
    if key in labels {
      assert labels[IndexOf(labels, key)] == key;
    }
  }

  /** `month_map[month]`. */
  function EncodeMonth(month: string): (r: Result<int>)
    ensures r.Ok? <==> month in MonthLabels
    ensures r.Ok? ==> 0 <= r.value < 12 && MonthLabels[r.value] == month
    ensures r.Err? ==> r.error == UnknownCategory(month)
  {
    MonthMapIsCalendarOrder();
    LookupPositional(MonthMap, MonthLabels, month);
    PositionalTable(MonthMap, MonthLabels);
    Lookup(MonthMap, month)
  }

  /** `day_map[day]`. */
  function EncodeDay(day: string): (r: Result<int>)
    ensures r.Ok? <==> day in DayLabels
    ensures r.Ok? ==> 0 <= r.value < 7 && DayLabels[r.value] == day
    ensures r.Err? ==> r.error == UnknownCategory(day)
  {
    DayMapIsWeekOrder();
    LookupPositional(DayMap, DayLabels, day);
    PositionalTable(DayMap, DayLabels);
    Lookup(DayMap, day)
  }

  /** Sample codes: jan, mar and dec; mon, fri and sun. */
  lemma SampleCodes()
    ensures EncodeMonth("jan") == Ok(0) && EncodeMonth("mar") == Ok(2) && EncodeMonth("dec") == Ok(11)
    ensures EncodeDay("mon") == Ok(0) && EncodeDay("fri") == Ok(4) && EncodeDay("sun") == Ok(6)
  {
  }

  /** Labels are matched exactly: a capitalised or full month name is not a key. */
  lemma UnknownLabelsFail()
    ensures EncodeMonth("Jan") == Err(UnknownCategory("Jan"))
    ensures EncodeMonth("january") == Err(UnknownCategory("january"))
    ensures EncodeDay("") == Err(UnknownCategory(""))
  {
  }

  /** Every key a dropdown can offer (the table's own keys) encodes, and every
      code has exactly one such key. */
  lemma DropdownLabelsEncode()
    ensures forall m :: m in MonthLabels ==> EncodeMonth(m).Ok?
    ensures forall d :: d in DayLabels ==> EncodeDay(d).Ok?
    ensures forall i :: 0 <= i < 12 ==> EncodeMonth(MonthLabels[i]) == Ok(i)
    ensures forall i :: 0 <= i < 7 ==> EncodeDay(DayLabels[i]) == Ok(i)
  {
    MonthMapIsCalendarOrder();
    DayMapIsWeekOrder();
    PositionalTable(MonthMap, MonthLabels);
    PositionalTable(DayMap, DayLabels);
  }

  /** Python's string order: lexicographic by character. */
  predicate LexLess(a: string, b: string) {
    if a == [] then b != []
    else if b == [] then false
    else if a[0] != b[0] then a[0] < b[0]
    else LexLess(a[1..], b[1..])
  }

  /** The code an alphabetical label encoder assigns: how many of the (distinct)
      labels sort before `key`. */
  function AlphabeticalCode(labels: seq<string>, key: string): (n: nat)
    ensures n <= |labels|
  {
    if labels == [] then 0
    else (if LexLess(labels[0], key) then 1 else 0) + AlphabeticalCode(labels[1..], key)
  }

  /** The month table is not in alphabetical order: an alphabetical encoder
      would give jan the code 4 (after apr, aug, dec and feb), the table gives 0. */
  lemma MonthMapIsNotAlphabetical()
    ensures MonthMap["jan"] == 0 && AlphabeticalCode(MonthLabels, "jan") == 4
  {
    MonthsFromMayBeforeJan();
    assert AlphabeticalCode(MonthLabels[3..], "jan") == 3;
    assert AlphabeticalCode(MonthLabels[2..], "jan") == 3;
    assert AlphabeticalCode(MonthLabels[1..], "jan") == 4;
  }

  /** Of may..dec, only aug and dec sort before jan. */
  lemma MonthsFromMayBeforeJan()
    ensures AlphabeticalCode(MonthLabels[4..], "jan") == 2
  {
    assert AlphabeticalCode(MonthLabels[11..], "jan") == 1;
    assert AlphabeticalCode(MonthLabels[10..], "jan") == 1;
    assert AlphabeticalCode(MonthLabels[9..], "jan") == 1;
    assert AlphabeticalCode(MonthLabels[8..], "jan") == 1;
    assert AlphabeticalCode(MonthLabels[7..], "jan") == 2;
    assert AlphabeticalCode(MonthLabels[6..], "jan") == 2;
    assert AlphabeticalCode(MonthLabels[5..], "jan") == 2;
  }

  /** The day table is not in alphabetical order: an alphabetical encoder would
      give mon the code 1 (after fri), the table gives 0. */
  lemma DayMapIsNotAlphabetical()
    ensures DayMap["mon"] == 0 && AlphabeticalCode(DayLabels, "mon") == 1
  {
    assert AlphabeticalCode(DayLabels[6..], "mon") == 0;
    assert AlphabeticalCode(DayLabels[5..], "mon") == 0;
    assert AlphabeticalCode(DayLabels[4..], "mon") == 1;
    assert AlphabeticalCode(DayLabels[3..], "mon") == 1;
    assert AlphabeticalCode(DayLabels[2..], "mon") == 1;
    assert AlphabeticalCode(DayLabels[1..], "mon") == 1;
  }
}
