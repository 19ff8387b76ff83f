/** The text report writer `SaveToCsv`: the rows of the semicolon-separated
    table, one per area, date and enabled figure.  Text rendering is left to
    the output library; what is modelled is which values are written, and in
    which order. */
module Report {
  import opened OrderedMaps
  import opened Sorting
  import opened Speed
  import opened Calendar
  import opened Dataset
  import opened Rollups
  import opened Selections

  // ---------------------------------------------------------------------------
  // SaveToCsv
  // ---------------------------------------------------------------------------

  const CsvHeading := "Участок;Дата;Тип параметра;Значение"

  /** One line `area;date;metric;value` after the heading. */
  datatype CsvRow = CsvRow(area: string, date: DateKey, metric: Metric, value: real)

  function RowOf(area: string, date: DateKey, rec: Speeds, m: Metric): CsvRow {
    CsvRow(area, date, m, Round1(Field(rec, m)))
  }

  /** The lines written for one record for the listed metrics: the enabled
      ones, in list order. */
  function MetricRows(area: string, date: DateKey, rec: Speeds, sel: Selection, ms: seq<Metric>): seq<CsvRow> {
    if ms == [] then []
    else
      var m := ms[|ms| - 1];
      MetricRows(area, date, rec, sel, ms[..|ms| - 1]) + LineIf(Enabled(sel, m), RowOf(area, date, rec, m))
  }

  /** The lines written for one record, in the fixed metric order. */
  function RecordRows(area: string, date: DateKey, rec: Speeds, sel: Selection): seq<CsvRow> {
    MetricRows(area, date, rec, sel, MetricOrder)
  }

  /** The lines for the listed areas of one date. */
  function DayRows(date: DateKey, day: Day, names: seq<string>, sel: Selection): seq<CsvRow>
    requires forall n :: n in names ==> n in day.vals
  {
    if names == [] then []
    else
      var n := names[|names| - 1];
      DayRows(date, day, names[..|names| - 1], sel) + RecordRows(n, date, day.vals[n], sel)
  }

  /** The lines for the listed dates, each date's areas in insertion order. */
  function CsvRows(data: Data, ks: seq<DateKey>, sel: Selection): seq<CsvRow>
    requires Nested(data) && forall k :: k in ks ==> k in data.vals
  {
    if ks == [] then []
    else
      var k := ks[|ks| - 1];
      CsvRows(data, ks[..|ks| - 1], sel) + DayRows(k, data.vals[k], data.vals[k].keys, sel)
  }

  /** One guarded `writer.WriteLine`. */
  method WriteLineIf(rows: seq<CsvRow>, guard: bool, row: CsvRow) returns (rows': seq<CsvRow>)
    ensures rows' == rows + LineIf(guard, row)
  {
    rows' := rows;
    if guard {
      rows' := rows' + [row];
    }
  }

  /** The six guarded `WriteLine` calls for one record. */
  method WriteRecord(rows: seq<CsvRow>, area: string, date: DateKey, values: Speeds, sel: Selection)
    returns (rows': seq<CsvRow>)
    ensures rows' == rows + RecordRows(area, date, values, sel)
  {
    rows' := WriteLineIf(rows, Enabled(sel, OddSource), RowOf(area, date, values, OddSource));
    ghost var r1 := rows';
    rows' := WriteLineIf(rows', Enabled(sel, EvenSource), RowOf(area, date, values, EvenSource));
    ghost var r2 := rows';
    rows' := WriteLineIf(rows', Enabled(sel, CombinedSource), RowOf(area, date, values, CombinedSource));
    ghost var r3 := rows';
    ThreeLines(rows, r1, r2, r3, area, date, values, sel, SourceMetrics);
    rows' := WriteLineIf(rows', Enabled(sel, OddVariant), RowOf(area, date, values, OddVariant));
    ghost var r4 := rows';
    rows' := WriteLineIf(rows', Enabled(sel, EvenVariant), RowOf(area, date, values, EvenVariant));
    ghost var r5 := rows';
    rows' := WriteLineIf(rows', Enabled(sel, CombinedVariant), RowOf(area, date, values, CombinedVariant));
    ThreeLines(r3, r4, r5, rows', area, date, values, sel, VariantMetrics);
    MetricRowsAppend(area, date, values, sel, SourceMetrics, VariantMetrics);
    SeqAppendAssoc(rows, MetricRows(area, date, values, sel, SourceMetrics), MetricRows(area, date, values, sel, VariantMetrics));
  }

  function LineIf(guard: bool, row: CsvRow): seq<CsvRow> {
    if guard then [row] else []
  }

  lemma ThreeLines(rows: seq<CsvRow>, r1: seq<CsvRow>, r2: seq<CsvRow>, r3: seq<CsvRow>,
                   area: string, date: DateKey, rec: Speeds, sel: Selection, ms: seq<Metric>)
    requires |ms| == 3
    requires r1 == rows + LineIf(Enabled(sel, ms[0]), RowOf(area, date, rec, ms[0]))
    requires r2 == r1 + LineIf(Enabled(sel, ms[1]), RowOf(area, date, rec, ms[1]))
    requires r3 == r2 + LineIf(Enabled(sel, ms[2]), RowOf(area, date, rec, ms[2]))
    ensures r3 == rows + MetricRows(area, date, rec, sel, ms)
  {
    var l0 := LineIf(Enabled(sel, ms[0]), RowOf(area, date, rec, ms[0]));
    var l1 := LineIf(Enabled(sel, ms[1]), RowOf(area, date, rec, ms[1]));
    var l2 := LineIf(Enabled(sel, ms[2]), RowOf(area, date, rec, ms[2]));
    assert ms[..2][..1] == ms[..1] && ms[..1][..0] == [] && ms[..2] == ms[..|ms| - 1];
    assert MetricRows(area, date, rec, sel, ms[..1]) == [] + l0;
    assert MetricRows(area, date, rec, sel, ms) == ([] + l0 + l1) + l2;
    calc {
      r3;
      ((rows + l0) + l1) + l2;
      { SeqAppendAssoc(rows, l0, l1); }
      (rows + (l0 + l1)) + l2;
      { SeqAppendAssoc(rows, l0 + l1, l2); }
      rows + ((l0 + l1) + l2);
      { assert [] + l0 == l0; }
      rows + (([] + l0 + l1) + l2);
    }
  }

  lemma {:induction false} MetricRowsAppend(area: string, date: DateKey, rec: Speeds, sel: Selection, xs: seq<Metric>, ys: seq<Metric>)
    ensures MetricRows(area, date, rec, sel, xs + ys) == MetricRows(area, date, rec, sel, xs) + MetricRows(area, date, rec, sel, ys)
  {
    if ys == [] {
      assert xs + ys == xs;
    } else {
      var init, m := ys[..|ys| - 1], ys[|ys| - 1];
      var line := LineIf(Enabled(sel, m), RowOf(area, date, rec, m));
      assert (xs + ys)[..|xs + ys| - 1] == xs + init;
      calc {
        MetricRows(area, date, rec, sel, xs + ys);
        MetricRows(area, date, rec, sel, xs + init) + line;
        { MetricRowsAppend(area, date, rec, sel, xs, init); }
        (MetricRows(area, date, rec, sel, xs) + MetricRows(area, date, rec, sel, init)) + line;
        { SeqAppendAssoc(MetricRows(area, date, rec, sel, xs), MetricRows(area, date, rec, sel, init), line); }
        MetricRows(area, date, rec, sel, xs) + (MetricRows(area, date, rec, sel, init) + line);
      }
    }
  }

  /** The inner loop of `SaveToCsv`: one date's areas in insertion order. */
  method WriteDay(rows: seq<CsvRow>, date: DateKey, day: Day, sel: Selection) returns (rows': seq<CsvRow>)
    requires day.Valid()
    ensures rows' == rows + DayRows(date, day, day.keys, sel)
  {
    rows' := rows;
    for j := 0 to |day.keys|
      invariant rows' == rows + DayRows(date, day, day.keys[..j], sel)
    {
      var area := day.keys[j];
      ghost var prefix := DayRows(date, day, day.keys[..j], sel);
      rows' := WriteRecord(rows', area, date, day.vals[area], sel);
      assert day.keys[..j + 1][..j] == day.keys[..j];
      assert DayRows(date, day, day.keys[..j + 1], sel) == prefix + RecordRows(area, date, day.vals[area], sel);
      SeqAppendAssoc(rows, prefix, RecordRows(area, date, day.vals[area], sel));
    }
    assert day.keys[..|day.keys|] == day.keys;
  }

  /** `SaveToCsv`: the heading, then for every date and every area of that
      date the lines of its enabled metrics. */
  method SaveToCsv(data: Data, sel: Selection) returns (heading: string, rows: seq<CsvRow>)
    requires Nested(data)
    ensures heading == CsvHeading
    ensures rows == CsvRows(data, data.keys, sel)
  {
    heading := CsvHeading;
    rows := [];
    for i := 0 to |data.keys|
      invariant rows == CsvRows(data, data.keys[..i], sel)
    {
      var date := data.keys[i];
      rows := WriteDay(rows, date, data.vals[date], sel);
      assert data.keys[..i + 1][..i] == data.keys[..i];
    }
    assert data.keys[..|data.keys|] == data.keys;
  }

  // ---------------------------------------------------------------------------
  // Properties of the text table
  // ---------------------------------------------------------------------------

  /** Every line names a present (date, area) pair and an enabled metric, and
      carries that metric of the stored record rounded to one decimal. */
  lemma {:induction false} CsvRowsSound(data: Data, ks: seq<DateKey>, sel: Selection)
    requires Nested(data) && forall k :: k in ks ==> k in data.vals
    ensures forall r :: r in CsvRows(data, ks, sel) ==>
              && r.date in ks && r.area in data.vals[r.date].vals && Enabled(sel, r.metric)
              && r == RowOf(r.area, r.date, data.vals[r.date].vals[r.area], r.metric)
  {
    if ks != [] {
      var k := ks[|ks| - 1];
      CsvRowsSound(data, ks[..|ks| - 1], sel);
      DayRowsSound(k, data.vals[k], data.vals[k].keys, sel);
    }
  }

  lemma {:induction false} DayRowsSound(date: DateKey, day: Day, names: seq<string>, sel: Selection)
    requires forall n :: n in names ==> n in day.vals
    ensures forall r :: r in DayRows(date, day, names, sel) ==>
              && r.date == date && r.area in names && Enabled(sel, r.metric)
              && r == RowOf(r.area, date, day.vals[r.area], r.metric)
  {
    if names != [] {
      var n := names[|names| - 1];
      DayRowsSound(date, day, names[..|names| - 1], sel);
      RecordRowsSound(n, date, day.vals[n], sel, MetricOrder);
    }
  }

  lemma {:induction false} RecordRowsSound(area: string, date: DateKey, rec: Speeds, sel: Selection, ms: seq<Metric>)
    ensures forall r :: r in MetricRows(area, date, rec, sel, ms) ==>
              && r.date == date && r.area == area && Enabled(sel, r.metric)
              && r == RowOf(area, date, rec, r.metric)
  {
    if ms != [] {
      RecordRowsSound(area, date, rec, sel, ms[..|ms| - 1]);
    }
  }

  /** Every enabled metric of every record present on a listed date has its line. */
  lemma {:induction false} CsvRowsComplete(data: Data, ks: seq<DateKey>, sel: Selection, k: DateKey, a: string, m: Metric)
    requires Nested(data) && forall x :: x in ks ==> x in data.vals
    requires k in ks && a in data.vals[k].vals && Enabled(sel, m)
    ensures RowOf(a, k, data.vals[k].vals[a], m) in CsvRows(data, ks, sel)
  {
    var last := ks[|ks| - 1];
    if k == last {
      DayRowsComplete(k, data.vals[k], data.vals[k].keys, sel, a, m);
    } else {
      assert k in ks[..|ks| - 1];
      CsvRowsComplete(data, ks[..|ks| - 1], sel, k, a, m);
    }
  }

  lemma {:induction false} DayRowsComplete(date: DateKey, day: Day, names: seq<string>, sel: Selection, a: string, m: Metric)
    requires forall n :: n in names ==> n in day.vals
    requires a in names && Enabled(sel, m)
    ensures RowOf(a, date, day.vals[a], m) in DayRows(date, day, names, sel)
  {
    var last := names[|names| - 1];
    if a != last {
      assert a in names[..|names| - 1];
      DayRowsComplete(date, day, names[..|names| - 1], sel, a, m);
    } else {
      assert m in MetricOrder by { match m { case _ => } }
      RecordRowsComplete(a, date, day.vals[a], sel, MetricOrder, m);
    }
  }

  lemma {:induction false} RecordRowsComplete(area: string, date: DateKey, rec: Speeds, sel: Selection, ms: seq<Metric>, m: Metric)
    requires m in ms && Enabled(sel, m)
    ensures RowOf(area, date, rec, m) in MetricRows(area, date, rec, sel, ms)
  {
    if ms[|ms| - 1] != m {
      assert m in ms[..|ms| - 1];
      RecordRowsComplete(area, date, rec, sel, ms[..|ms| - 1], m);
    }
  }

  /** Writing the text table after `FillData` with the same flags gives the
      same lines: every figure `FillData` zeroes is one the table omits. */
  lemma {:induction false} CsvIgnoresMasking(data: Data, ks: seq<DateKey>, sel: Selection)
    requires Nested(data) && forall k :: k in ks ==> k in data.vals
    ensures Nested(MaskData(data, sel))
    ensures CsvRows(MaskData(data, sel), ks, sel) == CsvRows(data, ks, sel)
  {
    MaskDataNested(data, sel);
    if ks != [] {
      var k := ks[|ks| - 1];
      CsvIgnoresMasking(data, ks[..|ks| - 1], sel);
      DayRowsIgnoreMasking(k, data.vals[k], data.vals[k].keys, sel);
    }
  }

  lemma {:induction false} DayRowsIgnoreMasking(date: DateKey, day: Day, names: seq<string>, sel: Selection)
    requires forall n :: n in names ==> n in day.vals
    ensures DayRows(date, MaskDay(day, sel), names, sel) == DayRows(date, day, names, sel)
  {
    if names != [] {
      var n := names[|names| - 1];
      DayRowsIgnoreMasking(date, day, names[..|names| - 1], sel);
      RecordRowsIgnoreMasking(n, date, day.vals[n], sel, MetricOrder);
    }
  }

  lemma {:induction false} RecordRowsIgnoreMasking(area: string, date: DateKey, rec: Speeds, sel: Selection, ms: seq<Metric>)
    ensures MetricRows(area, date, Masked(rec, sel), sel, ms) == MetricRows(area, date, rec, sel, ms)
  {
    if ms != [] {
      RecordRowsIgnoreMasking(area, date, rec, sel, ms[..|ms| - 1]);
      MaskedFields(rec, sel);
    }
  }
}
