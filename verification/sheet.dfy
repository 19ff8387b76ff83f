/** One spreadsheet sheet (`FillSheet`): the two-row header written by
    `CreateHeader` and the area rows written by `FillDataRows`.  Styling,
    merging and column widths belong to the spreadsheet library; what is
    modelled is which text or value goes into which cell. */
module Sheets {
  import opened OrderedMaps
  import opened Sorting
  import opened Speed
  import opened Calendar
  import opened Dataset
  import opened Rollups
  import opened Selections

  // ---------------------------------------------------------------------------
  // Columns of a sheet
  // ---------------------------------------------------------------------------

  function Opt(guard: bool, m: Metric): seq<Metric> {
    if guard then [m] else []
  }

  function Pick(isSource: bool, source: Metric, variant: Metric): Metric {
    if isSource then source else variant
  }

  /** The figures one date occupies on a sheet, left to right: combined, odd,
      even, each when its direction flag is on; the source figures on the
      source sheet and the variant figures on the variant sheet. */
  function SheetMetrics(sel: Selection, isSource: bool): seq<Metric> {
    Opt(sel.combined, Pick(isSource, CombinedSource, CombinedVariant))
    + Opt(sel.odd, Pick(isSource, OddSource, OddVariant))
    + Opt(sel.even, Pick(isSource, EvenSource, EvenVariant))
  }

  /** Left-to-right position of a direction within a date block. */
  function Rank(m: Metric): nat {
    match m
    case CombinedSource | CombinedVariant => 0
    case OddSource | OddVariant => 1
    case EvenSource | EvenVariant => 2
  }

  /** A sheet shows a figure exactly when its direction flag is on and it is
      of the sheet's kind; the figures run combined, odd, even; the block
      width is the number of direction flags that are on. */
  lemma SheetMetricsMeaning(sel: Selection, isSource: bool)
    ensures forall m :: m in SheetMetrics(sel, isSource) <==> Direction(sel, m) && IsVariant(m) != isSource
    ensures forall i, j :: 0 <= i < j < |SheetMetrics(sel, isSource)| ==>
              Rank(SheetMetrics(sel, isSource)[i]) < Rank(SheetMetrics(sel, isSource)[j])
    ensures |SheetMetrics(sel, isSource)| ==
              (if sel.combined then 1 else 0) + (if sel.odd then 1 else 0) + (if sel.even then 1 else 0)
  {
  }

  // ---------------------------------------------------------------------------
  // CreateHeader
  // ---------------------------------------------------------------------------

  const AreaHeading := "Участок"

  /** The second-row caption of a figure column. */
  function SubLabel(m: Metric): string {
    match m
    case CombinedSource => "Комбинир."
    case OddSource => "Нечетный"
    case EvenSource => "Четный"
    case CombinedVariant => "Вариант комб."
    case OddVariant => "Вариант неч."
    case EvenVariant => "Вариант чет."
  }

  /** A header cell: a caption, or a date merged over row 1 from `first` to
      `last`. */
  datatype HeaderCell = Label(row: int, col: int, text: string) | DateSpan(first: int, last: int, date: DateKey)

  /** `head`, then the row-2 captions of consecutive columns from `start`,
      one per figure. */
  function Captions(head: seq<HeaderCell>, start: int, ms: seq<Metric>): seq<HeaderCell> {
    if ms == [] then head
    else Captions(head, start, ms[..|ms| - 1]) + [Label(2, start + |ms| - 1, SubLabel(ms[|ms| - 1]))]
  }

  /** One date whose figures start at column `first`: the date merged over
      as many columns as there are figures, and their captions below it. */
  function DateBlock(first: int, date: DateKey, ms: seq<Metric>): seq<HeaderCell> {
    Captions([DateSpan(first, first + |ms| - 1, date)], first, ms)
  }

  /** n·k, counted the way the columns are: n blocks of k. */
  function Width(n: nat, k: nat): nat {
    if n == 0 then 0 else Width(n - 1, k) + k
  }

  /** `head`, then the blocks of the first `n` dates of `ds`: the i-th
      starts at column 2 + i·k, right after the previous one. */
  function DateBlocks(head: seq<HeaderCell>, ds: seq<DateKey>, n: nat, ms: seq<Metric>): seq<HeaderCell>
    requires n <= |ds|
  {
    if n == 0 then head
    else DateBlocks(head, ds, n - 1, ms) + DateBlock(2 + Width(n - 1, |ms|), ds[n - 1], ms)
  }

  /** The whole header: the area caption, then every date in ascending
      order; no date at all when no figure is shown. */
  function HeaderCells(dates: seq<DateKey>, sel: Selection, isSource: bool): seq<HeaderCell> {
    Header(Sort(dates, Before), SheetMetrics(sel, isSource))
  }

  /** The header over dates `ds`, taken in the given order, each showing
      figures `ms`. */
  function Header(ds: seq<DateKey>, ms: seq<Metric>): seq<HeaderCell> {
    if ms == [] then [Label(1, 1, AreaHeading)] else DateBlocks([Label(1, 1, AreaHeading)], ds, |ds|, ms)
  }

  lemma DateBlocksStep(head: seq<HeaderCell>, ds: seq<DateKey>, i: nat, ms: seq<Metric>)
    requires i < |ds|
    ensures DateBlocks(head, ds, i + 1, ms) == DateBlocks(head, ds, i, ms) + DateBlock(2 + Width(i, |ms|), ds[i], ms)
  {
    var n := i + 1;
    assert DateBlocks(head, ds, n, ms) == DateBlocks(head, ds, n - 1, ms) + DateBlock(2 + Width(n - 1, |ms|), ds[n - 1], ms);
  }

  lemma WidthStep(i: nat, k: nat)
    ensures Width(i + 1, k) == Width(i, k) + k
  {
    var n := i + 1;
    assert Width(n, k) == Width(n - 1, k) + k;
  }

  lemma {:induction false} WidthIsProduct(n: nat, k: nat)
    ensures Width(n, k) == n * k
  {
    if n > 0 {
      WidthIsProduct(n - 1, k);
      MulSucc(n - 1, k);
    }
  }

  lemma MulSucc(i: int, k: int)
    ensures (i + 1) * k == i * k + k
  {
  }

  /** One guarded caption: written at `subCol`, which then moves right. */
  method WriteLabelIf(cells: seq<HeaderCell>, guard: bool, subCol: int, m: Metric)
    returns (cells': seq<HeaderCell>, subCol': int)
    ensures cells' == cells + (if guard then [Label(2, subCol, SubLabel(m))] else [])
    ensures subCol' == subCol + |Opt(guard, m)|
  {
    cells', subCol' := cells, subCol;
    if guard {
      cells' := cells' + [Label(2, subCol', SubLabel(m))];
      subCol' := subCol' + 1;
    }
  }

  /** One caption step within a date block, in terms of the shown figures. */
  lemma LabelStep(cells: seq<HeaderCell>, base: seq<HeaderCell>, start: int, ms: seq<Metric>,
                  guard: bool, m: Metric, cells': seq<HeaderCell>)
    requires cells == Captions(base, start, ms)
    requires cells' == cells + (if guard then [Label(2, start + |ms|, SubLabel(m))] else [])
    ensures cells' == Captions(base, start, ms + Opt(guard, m))
  {
    var ms' := ms + Opt(guard, m);
    if guard {
      assert ms'[..|ms'| - 1] == ms;
    } else {
      assert ms' == ms;
    }
  }

  /** The three guarded captions of a date block, from column `subCol`. */
  method WriteSubLabels(cells: seq<HeaderCell>, subCol: int, sel: Selection, isSource: bool)
    returns (cells': seq<HeaderCell>)
    ensures cells' == Captions(cells, subCol, SheetMetrics(sel, isSource))
  {
    ghost var c := Opt(sel.combined, Pick(isSource, CombinedSource, CombinedVariant));
    ghost var o := Opt(sel.odd, Pick(isSource, OddSource, OddVariant));
    var col := subCol;
    assert cells == Captions(cells, subCol, []);
    cells', col := WriteLabelIf(cells, sel.combined, col, Pick(isSource, CombinedSource, CombinedVariant));
    LabelStep(cells, cells, subCol, [], sel.combined, Pick(isSource, CombinedSource, CombinedVariant), cells');
    assert [] + c == c;
    ghost var afterC := cells';
    cells', col := WriteLabelIf(cells', sel.odd, col, Pick(isSource, OddSource, OddVariant));
    LabelStep(afterC, cells, subCol, c, sel.odd, Pick(isSource, OddSource, OddVariant), cells');
    ghost var afterO := cells';
    cells', col := WriteLabelIf(cells', sel.even, col, Pick(isSource, EvenSource, EvenVariant));
    LabelStep(afterO, cells, subCol, c + o, sel.even, Pick(isSource, EvenSource, EvenVariant), cells');
  }

  /** The width of a date block: one column per direction flag that is on. */
  method ColumnsCount(sel: Selection, isSource: bool) returns (columnsCount: int)
    ensures columnsCount == |SheetMetrics(sel, isSource)|
  {
    columnsCount := 0;
    if sel.combined { columnsCount := columnsCount + 1; }
    if sel.odd { columnsCount := columnsCount + 1; }
    if sel.even { columnsCount := columnsCount + 1; }
    SheetMetricsMeaning(sel, isSource);
  }

  /** Captions appended after a prefix leave the prefix in front. */
  lemma {:induction false} CaptionsAfter(a: seq<HeaderCell>, b: seq<HeaderCell>, start: int, ms: seq<Metric>)
    ensures Captions(a + b, start, ms) == a + Captions(b, start, ms)
  {
    if ms != [] {
      var init := ms[..|ms| - 1];
      CaptionsAfter(a, b, start, init);
      SeqAppendAssoc(a, Captions(b, start, init), [Label(2, start + |ms| - 1, SubLabel(ms[|ms| - 1]))]);
    }
  }

  /** The body of `CreateHeader`'s loop: a date with no figure is skipped;
      otherwise its block is written from the column after `column`, which
      moves to the end of the block. */
  method WriteDate(cells: seq<HeaderCell>, column: int, date: DateKey, sel: Selection, isSource: bool)
    returns (cells': seq<HeaderCell>, column': int)
    ensures SheetMetrics(sel, isSource) == [] ==> cells' == cells
    ensures SheetMetrics(sel, isSource) != [] ==> cells' == cells + DateBlock(column + 1, date, SheetMetrics(sel, isSource))
    ensures column' == column + |SheetMetrics(sel, isSource)|
  {
    var columnsCount := ColumnsCount(sel, isSource);
    if columnsCount == 0 {
      return cells, column;
    }
    var span := [DateSpan(column + 1, column + columnsCount, date)];
    cells' := WriteSubLabels(cells + span, column + 1, sel, isSource);
    assert span == [DateSpan(column + 1, column + 1 + columnsCount - 1, date)];
    CaptionsAfter(cells, span, column + 1, SheetMetrics(sel, isSource));
    column' := column + columnsCount;
  }

  /** `CreateHeader`: the area caption in cell (1, 1), then for each date in
      ascending order a block as wide as the number of direction flags that
      are on.  Returns the last column used. */
  method CreateHeader(dates: seq<DateKey>, sel: Selection, isSource: bool) returns (cells: seq<HeaderCell>, column: int)
    ensures cells == HeaderCells(dates, sel, isSource)
    ensures column == 1 + |dates| * |SheetMetrics(sel, isSource)|
  {
    ghost var ms := SheetMetrics(sel, isSource);
    column := 1;
    cells := [Label(1, column, AreaHeading)];
    var sorted := Sort(dates, Before);
    SortKeeps(dates, Before);
    for i := 0 to |sorted|
      invariant cells == if ms == [] then [Label(1, 1, AreaHeading)] else DateBlocks([Label(1, 1, AreaHeading)], sorted, i, ms)
      invariant column == 1 + Width(i, |ms|)
    {
      ghost var before := column;
      cells, column := WriteDate(cells, column, sorted[i], sel, isSource);
      WidthStep(i, |ms|);
      if ms != [] {
        assert before + 1 == 2 + Width(i, |ms|);
        DateBlocksStep([Label(1, 1, AreaHeading)], sorted, i, ms);
      }
    }
    WidthIsProduct(|dates|, |ms|);
  }

  // ---------------------------------------------------------------------------
  // Properties of the header
  // ---------------------------------------------------------------------------

  lemma {:induction false} CaptionsLength(head: seq<HeaderCell>, start: int, ms: seq<Metric>)
    ensures |Captions(head, start, ms)| == |head| + |ms|
  {
    if ms != [] {
      CaptionsLength(head, start, ms[..|ms| - 1]);
    }
  }

  /** Caption j names figure j and sits in column start + j. */
  lemma {:induction false} CaptionsAt(head: seq<HeaderCell>, start: int, ms: seq<Metric>, j: nat)
    requires j < |ms|
    ensures |Captions(head, start, ms)| == |head| + |ms|
    ensures Captions(head, start, ms)[|head| + j] == Label(2, start + j, SubLabel(ms[j]))
  {
    var init := ms[..|ms| - 1];
    CaptionsLength(head, start, init);
    if j < |init| {
      CaptionsAt(head, start, init, j);
    }
  }

  /** Appending captions leaves what came before in place. */
  lemma {:induction false} CaptionsKeepHead(head: seq<HeaderCell>, start: int, ms: seq<Metric>, p: nat)
    requires p < |head|
    ensures |Captions(head, start, ms)| == |head| + |ms|
    ensures Captions(head, start, ms)[p] == head[p]
  {
    CaptionsLength(head, start, ms);
    if ms != [] {
      CaptionsKeepHead(head, start, ms[..|ms| - 1], p);
    }
  }

  lemma DateBlockLength(first: int, date: DateKey, ms: seq<Metric>)
    ensures |DateBlock(first, date, ms)| == |ms| + 1
  {
    CaptionsLength([DateSpan(first, first + |ms| - 1, date)], first, ms);
  }

  /** Each date adds k + 1 cells: its span and its k captions. */
  lemma {:induction false} DateBlocksLength(head: seq<HeaderCell>, ds: seq<DateKey>, n: nat, ms: seq<Metric>)
    requires n <= |ds|
    ensures |DateBlocks(head, ds, n, ms)| == |head| + Width(n, |ms| + 1)
  {
    if n > 0 {
      DateBlocksLength(head, ds, n - 1, ms);
      DateBlockLength(2 + Width(n - 1, |ms|), ds[n - 1], ms);
    }
  }

  /** Adding dates leaves what came before in place. */
  lemma {:induction false} DateBlocksKeepHead(head: seq<HeaderCell>, ds: seq<DateKey>, n: nat, ms: seq<Metric>, p: nat)
    requires n <= |ds| && p < |head|
    ensures p < |DateBlocks(head, ds, n, ms)|
    ensures DateBlocks(head, ds, n, ms)[p] == head[p]
  {
    if n > 0 {
      DateBlocksKeepHead(head, ds, n - 1, ms, p);
      EarlierBlockAt(head, ds, n, ms, p);
    }
  }

  lemma AppendAt<T>(whole: seq<T>, prev: seq<T>, last: seq<T>, t: nat)
    requires whole == prev + last && t < |last|
    ensures |prev| + t < |whole| && whole[|prev| + t] == last[t]
  {
  }

  /** Adding a date leaves the cells of the earlier dates in place. */
  lemma EarlierBlockAt(head: seq<HeaderCell>, ds: seq<DateKey>, n: nat, ms: seq<Metric>, p: nat)
    requires 0 < n <= |ds| && p < |DateBlocks(head, ds, n - 1, ms)|
    ensures p < |DateBlocks(head, ds, n, ms)|
    ensures DateBlocks(head, ds, n, ms)[p] == DateBlocks(head, ds, n - 1, ms)[p]
  {
  }

  /** The last date's block ends the sequence. */
  lemma LastBlockAt(head: seq<HeaderCell>, ds: seq<DateKey>, n: nat, ms: seq<Metric>, t: nat)
    requires 0 < n <= |ds| && t <= |ms|
    ensures |DateBlock(2 + Width(n - 1, |ms|), ds[n - 1], ms)| == |ms| + 1
    ensures |head| + Width(n - 1, |ms| + 1) + t < |DateBlocks(head, ds, n, ms)|
    ensures DateBlocks(head, ds, n, ms)[|head| + Width(n - 1, |ms| + 1) + t] ==
              DateBlock(2 + Width(n - 1, |ms|), ds[n - 1], ms)[t]
  {
    DateBlocksLength(head, ds, n - 1, ms);
    DateBlockLength(2 + Width(n - 1, |ms|), ds[n - 1], ms);
    AppendAt(DateBlocks(head, ds, n, ms), DateBlocks(head, ds, n - 1, ms),
             DateBlock(2 + Width(n - 1, |ms|), ds[n - 1], ms), t);
  }

  lemma LastSpan(head: seq<HeaderCell>, ds: seq<DateKey>, n: nat, ms: seq<Metric>)
    requires 0 < n <= |ds|
    ensures |head| + Width(n - 1, |ms| + 1) < |DateBlocks(head, ds, n, ms)|
    ensures DateBlocks(head, ds, n, ms)[|head| + Width(n - 1, |ms| + 1)] ==
              DateSpan(2 + Width(n - 1, |ms|), 2 + Width(n - 1, |ms|) + |ms| - 1, ds[n - 1])
  {
    LastBlockAt(head, ds, n, ms, 0);
    CaptionsKeepHead([DateSpan(2 + Width(n - 1, |ms|), 2 + Width(n - 1, |ms|) + |ms| - 1, ds[n - 1])],
                     2 + Width(n - 1, |ms|), ms, 0);
  }

  lemma LastCaption(head: seq<HeaderCell>, ds: seq<DateKey>, n: nat, ms: seq<Metric>, j: nat)
    requires 0 < n <= |ds| && j < |ms|
    ensures |head| + Width(n - 1, |ms| + 1) + 1 + j < |DateBlocks(head, ds, n, ms)|
    ensures DateBlocks(head, ds, n, ms)[|head| + Width(n - 1, |ms| + 1) + 1 + j] ==
              Label(2, 2 + Width(n - 1, |ms|) + j, SubLabel(ms[j]))
  {
    LastBlockAt(head, ds, n, ms, 1 + j);
    CaptionsAt([DateSpan(2 + Width(n - 1, |ms|), 2 + Width(n - 1, |ms|) + |ms| - 1, ds[n - 1])],
               2 + Width(n - 1, |ms|), ms, j);
  }

  /** Date i heads columns 2 + i·k to 1 + (i+1)·k, counted with Width. */
  lemma {:induction false} SpanAt(head: seq<HeaderCell>, ds: seq<DateKey>, n: nat, ms: seq<Metric>, i: nat)
    requires i < n <= |ds|
    ensures |head| + Width(i, |ms| + 1) < |DateBlocks(head, ds, n, ms)|
    ensures DateBlocks(head, ds, n, ms)[|head| + Width(i, |ms| + 1)] ==
              DateSpan(2 + Width(i, |ms|), 2 + Width(i, |ms|) + |ms| - 1, ds[i])
  {
    if i == n - 1 {
      LastSpan(head, ds, n, ms);
    } else {
      SpanAt(head, ds, n - 1, ms, i);
      EarlierBlockAt(head, ds, n, ms, |head| + Width(i, |ms| + 1));
    }
  }

  /** The j-th caption under date i names figure j, in column 2 + i·k + j. */
  lemma {:induction false} CaptionAt(head: seq<HeaderCell>, ds: seq<DateKey>, n: nat, ms: seq<Metric>, i: nat, j: nat)
    requires i < n <= |ds| && j < |ms|
    ensures |head| + Width(i, |ms| + 1) + 1 + j < |DateBlocks(head, ds, n, ms)|
    ensures DateBlocks(head, ds, n, ms)[|head| + Width(i, |ms| + 1) + 1 + j] ==
              Label(2, 2 + Width(i, |ms|) + j, SubLabel(ms[j]))
  {
    if i == n - 1 {
      LastCaption(head, ds, n, ms, j);
    } else {
      CaptionAt(head, ds, n - 1, ms, i, j);
      EarlierBlockAt(head, ds, n, ms, |head| + Width(i, |ms| + 1) + 1 + j);
    }
  }

  /** The dates of a header, for distinct dates: strictly ascending, each
      exactly once.  The header has the area caption in cell (1, 1) and,
      with k figures per date, k + 1 cells per date; with k = 0 it has no
      date at all. */
  lemma HeaderDates(dates: seq<DateKey>, sel: Selection, isSource: bool)
    requires Distinct(dates)
    ensures var sorted, k := Sort(dates, Before), |SheetMetrics(sel, isSource)|;
            && HeaderCells(dates, sel, isSource) == Header(sorted, SheetMetrics(sel, isSource))
            && StrictlySorted(sorted, Before)
            && |sorted| == |dates|
            && (forall d :: d in sorted <==> d in dates)
            && HeaderCells(dates, sel, isSource)[0] == Label(1, 1, AreaHeading)
            && (k == 0 ==> HeaderCells(dates, sel, isSource) == [Label(1, 1, AreaHeading)])
            && (k > 0 ==> |HeaderCells(dates, sel, isSource)| == 1 + |dates| * (k + 1))
  {
    var sorted, ms := Sort(dates, Before), SheetMetrics(sel, isSource);
    BeforeIsStrictTotalOrder();
    SortCorrect(dates, Before);
    if ms != [] {
      DateBlocksLength([Label(1, 1, AreaHeading)], sorted, |sorted|, ms);
      DateBlocksKeepHead([Label(1, 1, AreaHeading)], sorted, |sorted|, ms, 0);
      WidthIsProduct(|sorted|, |ms| + 1);
    }
  }

  /** HeaderLayout with the columns counted by Width. */
  lemma HeaderBlockAt(ds: seq<DateKey>, ms: seq<Metric>, i: nat)
    requires ms != [] && i < |ds|
    ensures var h, p, first := Header(ds, ms), 1 + Width(i, |ms| + 1), 2 + Width(i, |ms|);
            && p + |ms| < |h|
            && h[p] == DateSpan(first, first + |ms| - 1, ds[i])
            && forall j :: 0 <= j < |ms| ==> h[p + 1 + j] == Label(2, first + j, SubLabel(ms[j]))
  {
    var head := [Label(1, 1, AreaHeading)];
    SpanAt(head, ds, |ds|, ms, i);
    CaptionAt(head, ds, |ds|, ms, i, |ms| - 1);
    forall j | 0 <= j < |ms|
      ensures Header(ds, ms)[1 + Width(i, |ms| + 1) + 1 + j] == Label(2, 2 + Width(i, |ms|) + j, SubLabel(ms[j]))
    {
      CaptionAt(head, ds, |ds|, ms, i, j);
    }
  }

  /** With k > 0 figures per date, the i-th date is merged over columns
      2 + i·k to 1 + (i+1)·k of row 1, right after the previous date's last
      column; column 2 + i·k + j of row 2 below it carries the caption of
      the j-th shown figure. */
  lemma HeaderLayout(ds: seq<DateKey>, ms: seq<Metric>, i: nat)
    requires ms != [] && i < |ds|
    ensures var h, k := Header(ds, ms), |ms|;
            && 1 + i * (k + 1) + k < |h|
            && h[1 + i * (k + 1)] == DateSpan(2 + i * k, 1 + (i + 1) * k, ds[i])
            && forall j :: 0 <= j < k ==> h[2 + i * (k + 1) + j] == Label(2, 2 + i * k + j, SubLabel(ms[j]))
  {
    var k := |ms|;
    HeaderBlockAt(ds, ms, i);
    WidthIsProduct(i, k + 1);
    WidthIsProduct(i, k);
    MulSucc(i, k);
  }

  // ---------------------------------------------------------------------------
  // FillDataRows
  // ---------------------------------------------------------------------------

  /** A cell below the header: an area name in column 1, a rounded figure,
      or the merge of columns `first` to `last` of a row. */
  datatype DataCell = Name(row: int, col: int, text: string) | Figure(row: int, col: int, value: real)
                    | Merge(row: int, first: int, last: int)

  /** `head`, then the rounded figures `ms` of `rec` in consecutive columns
      from `start`. */
  function Figures(head: seq<DataCell>, row: int, start: int, rec: Speeds, ms: seq<Metric>): seq<DataCell> {
    if ms == [] then head
    else Figures(head, row, start, rec, ms[..|ms| - 1]) + [Figure(row, start + |ms| - 1, Round1(Field(rec, ms[|ms| - 1])))]
  }

  /** One record written from column `start`: its figures, merged when there
      are at least two. */
  function RecordCells(head: seq<DataCell>, row: int, start: int, rec: Speeds, ms: seq<Metric>): seq<DataCell> {
    Figures(head, row, start, rec, ms) + if |ms| > 1 then [Merge(row, start, start + |ms| - 1)] else []
  }

  /** Whether the dataset has a record for `area` on `date`. */
  predicate Has(data: Data, date: DateKey, area: string) {
    date in data.vals && area in data.vals[date].vals
  }

  /** How many of the first `n` dates of `ds` have a record for `area`. */
  function Present(data: Data, ds: seq<DateKey>, n: nat, area: string): nat
    requires n <= |ds|
  {
    if n == 0 then 0 else Present(data, ds, n - 1, area) + if Has(data, ds[n - 1], area) then 1 else 0
  }

  /** `head`, then the row of `area` over the first `n` dates of `ds`: a
      date without a record for the area is skipped and the next record
      starts where the previous one ended, at 2 + Present·k. */
  function AreaCells(head: seq<DataCell>, row: int, area: string, data: Data, ds: seq<DateKey>, n: nat,
                     ms: seq<Metric>): seq<DataCell>
    requires n <= |ds|
  {
    if n == 0 then head
    else if Has(data, ds[n - 1], area) then
      RecordCells(AreaCells(head, row, area, data, ds, n - 1, ms), row, 2 + Width(Present(data, ds, n - 1, area), |ms|),
                  data.vals[ds[n - 1]].vals[area], ms)
    else AreaCells(head, row, area, data, ds, n - 1, ms)
  }

  /** `head`, then the rows of the first `m` areas, the a-th in row 3 + a,
      each starting with the area's name in column 1. */
  function RowCells(head: seq<DataCell>, data: Data, areas: seq<string>, ds: seq<DateKey>, m: nat,
                    ms: seq<Metric>): seq<DataCell>
    requires m <= |areas|
  {
    if m == 0 then head
    else AreaCells(RowCells(head, data, areas, ds, m - 1, ms) + [Name(3 + (m - 1), 1, areas[m - 1])],
                   3 + (m - 1), areas[m - 1], data, ds, |ds|, ms)
  }

  /** The areas of a sheet: those of the first date, in ascending order. */
  function SheetAreas(data: Data): seq<string>
    requires data.Valid() && data.keys != []
  {
    Sort(FirstDay(data).keys, StrLess)
  }

  /** Everything `FillDataRows` writes: every area of the first date, one
      row each, over every date in ascending order. */
  function DataRows(data: Data, sel: Selection, isSource: bool): seq<DataCell>
    requires data.Valid() && data.keys != []
  {
    RowCells([], data, SheetAreas(data), Sort(data.keys, Before), |SheetAreas(data)|, SheetMetrics(sel, isSource))
  }

  lemma PresentStep(data: Data, ds: seq<DateKey>, i: nat, area: string)
    requires i < |ds|
    ensures Present(data, ds, i + 1, area) == Present(data, ds, i, area) + if Has(data, ds[i], area) then 1 else 0
  {
    var n := i + 1;
    assert Present(data, ds, n, area) == Present(data, ds, n - 1, area) + if Has(data, ds[n - 1], area) then 1 else 0;
  }

  lemma AreaCellsStep(head: seq<DataCell>, row: int, area: string, data: Data, ds: seq<DateKey>, i: nat, ms: seq<Metric>)
    requires i < |ds|
    ensures AreaCells(head, row, area, data, ds, i + 1, ms) ==
              if Has(data, ds[i], area) then
                RecordCells(AreaCells(head, row, area, data, ds, i, ms), row, 2 + Width(Present(data, ds, i, area), |ms|),
                            data.vals[ds[i]].vals[area], ms)
              else AreaCells(head, row, area, data, ds, i, ms)
  {
    var n := i + 1;
    assert AreaCells(head, row, area, data, ds, n, ms) ==
             if Has(data, ds[n - 1], area) then
               RecordCells(AreaCells(head, row, area, data, ds, n - 1, ms), row, 2 + Width(Present(data, ds, n - 1, area), |ms|),
                           data.vals[ds[n - 1]].vals[area], ms)
             else AreaCells(head, row, area, data, ds, n - 1, ms);
  }

  lemma RowCellsStep(head: seq<DataCell>, data: Data, areas: seq<string>, ds: seq<DateKey>, m: nat, ms: seq<Metric>)
    requires m < |areas|
    ensures RowCells(head, data, areas, ds, m + 1, ms) ==
              AreaCells(RowCells(head, data, areas, ds, m, ms) + [Name(3 + m, 1, areas[m])], 3 + m, areas[m], data, ds, |ds|, ms)
  {
    var n := m + 1;
    assert RowCells(head, data, areas, ds, n, ms) ==
             AreaCells(RowCells(head, data, areas, ds, n - 1, ms) + [Name(3 + (n - 1), 1, areas[n - 1])],
                       3 + (n - 1), areas[n - 1], data, ds, |ds|, ms);
  }

  /** One figure step within a record, in terms of the shown figures. */
  lemma FigureStep(cells: seq<DataCell>, base: seq<DataCell>, row: int, start: int, rec: Speeds, ms: seq<Metric>,
                   guard: bool, m: Metric, cells': seq<DataCell>)
    requires cells == Figures(base, row, start, rec, ms)
    requires cells' == cells + (if guard then [Figure(row, start + |ms|, Round1(Field(rec, m)))] else [])
    ensures cells' == Figures(base, row, start, rec, ms + Opt(guard, m))
  {
    var ms' := ms + Opt(guard, m);
    if guard {
      assert ms'[..|ms'| - 1] == ms;
    } else {
      assert ms' == ms;
    }
  }

  /** One guarded figure, rounded to one decimal: written at `column`, which
      then moves right.  `base`, `start` and `ms` say which figures of the
      record are already written. */
  method WriteFigureIf(cells: seq<DataCell>, guard: bool, row: int, column: int, rec: Speeds, m: Metric,
                       ghost base: seq<DataCell>, ghost start: int, ghost ms: seq<Metric>)
    returns (cells': seq<DataCell>, column': int)
    requires cells == Figures(base, row, start, rec, ms) && column == start + |ms|
    ensures cells' == Figures(base, row, start, rec, ms + Opt(guard, m))
    ensures column' == start + |ms + Opt(guard, m)|
  {
    cells', column' := cells, column;
    if guard {
      cells' := cells' + [Figure(row, column', Round1(Field(rec, m)))];
      column' := column' + 1;
    }
    FigureStep(cells, base, row, start, rec, ms, guard, m, cells');
  }

  /** The three guarded figures of one record from `column`, which moves
      past them. */
  method WriteFigures(cells: seq<DataCell>, row: int, column: int, rec: Speeds, sel: Selection, isSource: bool)
    returns (cells': seq<DataCell>, column': int)
    ensures cells' == Figures(cells, row, column, rec, SheetMetrics(sel, isSource))
    ensures column' == column + |SheetMetrics(sel, isSource)|
  {
    ghost var c := Opt(sel.combined, Pick(isSource, CombinedSource, CombinedVariant));
    ghost var o := Opt(sel.odd, Pick(isSource, OddSource, OddVariant));
    assert cells == Figures(cells, row, column, rec, []);
    cells', column' := WriteFigureIf(cells, sel.combined, row, column, rec, Pick(isSource, CombinedSource, CombinedVariant),
                                     cells, column, []);
    assert [] + c == c;
    cells', column' := WriteFigureIf(cells', sel.odd, row, column', rec, Pick(isSource, OddSource, OddVariant),
                                     cells, column, c);
    cells', column' := WriteFigureIf(cells', sel.even, row, column', rec, Pick(isSource, EvenSource, EvenVariant),
                                     cells, column, c + o);
  }

  /** One record from `column`: its figures, then the merge of their columns
      when more than one was written; `column` moves past them. */
  method WriteRecordCells(cells: seq<DataCell>, row: int, column: int, rec: Speeds, sel: Selection, isSource: bool)
    returns (cells': seq<DataCell>, column': int)
    ensures cells' == RecordCells(cells, row, column, rec, SheetMetrics(sel, isSource))
    ensures column' == column + |SheetMetrics(sel, isSource)|
  {
    var startCol := column;
    cells', column' := WriteFigures(cells, row, column, rec, sel, isSource);
    if column' - startCol > 1 {
      cells' := cells' + [Merge(row, startCol, column' - 1)];
    }
  }

  /** The inner loop of `FillDataRows` for one area: dates in ascending
      order, a date without a record for the area skipped without moving
      `column`. */
  method WriteAreaRow(cells: seq<DataCell>, row: int, area: string, data: Data, dates: seq<DateKey>,
                      sel: Selection, isSource: bool)
    returns (cells': seq<DataCell>)
    requires forall d :: d in dates ==> d in data.vals
    ensures cells' == AreaCells(cells, row, area, data, dates, |dates|, SheetMetrics(sel, isSource))
  {
    ghost var ms := SheetMetrics(sel, isSource);
    var column := 2;
    cells' := cells;
    for i := 0 to |dates|
      invariant cells' == AreaCells(cells, row, area, data, dates, i, ms)
      invariant column == 2 + Width(Present(data, dates, i, area), |ms|)
    {
      AreaCellsStep(cells, row, area, data, dates, i, ms);
      PresentStep(data, dates, i, area);
      var date := dates[i];
      if area !in data.vals[date].vals {
        continue;
      }
      var values := data.vals[date].vals[area];
      cells', column := WriteRecordCells(cells', row, column, values, sel, isSource);
      WidthStep(Present(data, dates, i, area), |ms|);
    }
  }

  /** `FillDataRows`: from row 3, one row per area of the first date in
      ascending order, each with the area's name in column 1 and its records
      from column 2.  Returns the row after the last one written. */
  method FillDataRows(data: Data, sel: Selection, isSource: bool) returns (cells: seq<DataCell>, row: int)
    requires data.Valid() && data.keys != []
    ensures cells == DataRows(data, sel, isSource)
    ensures row == 3 + |FirstDay(data).keys|
  {
    var areas := Sort(data.vals[data.keys[0]].keys, StrLess);
    var dates := Sort(data.keys, Before);
    SortKeeps(data.vals[data.keys[0]].keys, StrLess);
    SortKeeps(data.keys, Before);
    cells, row := WriteRows(data, areas, dates, sel, isSource);
  }

  /** The outer loop of `FillDataRows`: one row per area, from row 3. */
  method WriteRows(data: Data, areas: seq<string>, dates: seq<DateKey>, sel: Selection, isSource: bool)
    returns (cells: seq<DataCell>, row: int)
    requires forall d :: d in dates ==> d in data.vals
    ensures cells == RowCells([], data, areas, dates, |areas|, SheetMetrics(sel, isSource))
    ensures row == 3 + |areas|
  {
    ghost var ms := SheetMetrics(sel, isSource);
    row := 3;
    cells := [];
    for m := 0 to |areas|
      invariant cells == RowCells([], data, areas, dates, m, ms)
      invariant row == 3 + m
    {
      RowCellsStep([], data, areas, dates, m, ms);
      cells := cells + [Name(row, 1, areas[m])];
      cells := WriteAreaRow(cells, row, areas[m], data, dates, sel, isSource);
      row := row + 1;
    }
  }

  // ---------------------------------------------------------------------------
  // Properties of the data rows
  // ---------------------------------------------------------------------------

  /** Present counts dates: never more than were looked at, and all of them
      exactly when every one of them has a record for the area. */
  lemma {:induction false} PresentBounds(data: Data, ds: seq<DateKey>, n: nat, area: string)
    requires n <= |ds|
    ensures Present(data, ds, n, area) <= n
    ensures Present(data, ds, n, area) == n <==> forall l :: 0 <= l < n ==> Has(data, ds[l], area)
  {
    if n > 0 {
      PresentBounds(data, ds, n - 1, area);
    }
  }

  lemma {:induction false} FiguresKeep(head: seq<DataCell>, row: int, start: int, rec: Speeds, ms: seq<Metric>, x: DataCell)
    requires x in head
    ensures x in Figures(head, row, start, rec, ms)
  {
    if ms != [] {
      FiguresKeep(head, row, start, rec, ms[..|ms| - 1], x);
    }
  }

  /** Figure j of a record is written in column start + j. */
  lemma {:induction false} FiguresHave(head: seq<DataCell>, row: int, start: int, rec: Speeds, ms: seq<Metric>, j: nat)
    requires j < |ms|
    ensures Figure(row, start + j, Round1(Field(rec, ms[j]))) in Figures(head, row, start, rec, ms)
  {
    var init := ms[..|ms| - 1];
    if j < |init| {
      FiguresHave(head, row, start, rec, init, j);
    }
  }

  /** Adding a date to a row leaves what was written before. */
  lemma AreaCellsGrow(head: seq<DataCell>, row: int, area: string, data: Data, ds: seq<DateKey>, n: nat,
                      ms: seq<Metric>, x: DataCell)
    requires 0 < n <= |ds| && x in AreaCells(head, row, area, data, ds, n - 1, ms)
    ensures x in AreaCells(head, row, area, data, ds, n, ms)
  {
    if Has(data, ds[n - 1], area) {
      FiguresKeep(AreaCells(head, row, area, data, ds, n - 1, ms), row, 2 + Width(Present(data, ds, n - 1, area), |ms|),
                  data.vals[ds[n - 1]].vals[area], ms, x);
    }
  }

  lemma LastRecordInRow(head: seq<DataCell>, row: int, area: string, data: Data, ds: seq<DateKey>, n: nat,
                        ms: seq<Metric>, j: nat)
    requires 0 < n <= |ds| && Has(data, ds[n - 1], area) && j < |ms|
    ensures Figure(row, 2 + Width(Present(data, ds, n - 1, area), |ms|) + j,
                   Round1(Field(data.vals[ds[n - 1]].vals[area], ms[j]))) in AreaCells(head, row, area, data, ds, n, ms)
  {
    FiguresHave(AreaCells(head, row, area, data, ds, n - 1, ms), row, 2 + Width(Present(data, ds, n - 1, area), |ms|),
                data.vals[ds[n - 1]].vals[area], ms, j);
  }

  /** In an area's row, figure j of the record of date i is written in
      column 2 + p·k + j, where p counts the earlier dates that have a
      record for the area. */
  lemma {:induction false} RecordInRow(head: seq<DataCell>, row: int, area: string, data: Data, ds: seq<DateKey>, n: nat,
                                       ms: seq<Metric>, i: nat, j: nat)
    requires i < n <= |ds| && Has(data, ds[i], area) && j < |ms|
    ensures Figure(row, 2 + Width(Present(data, ds, i, area), |ms|) + j,
                   Round1(Field(data.vals[ds[i]].vals[area], ms[j]))) in AreaCells(head, row, area, data, ds, n, ms)
  {
    if i == n - 1 {
      LastRecordInRow(head, row, area, data, ds, n, ms, j);
    } else {
      RecordInRow(head, row, area, data, ds, n - 1, ms, i, j);
      AreaCellsGrow(head, row, area, data, ds, n, ms,
                    Figure(row, 2 + Width(Present(data, ds, i, area), |ms|) + j, Round1(Field(data.vals[ds[i]].vals[area], ms[j]))));
    }
  }

  /** Cells per record: its figures, and a merge when there are at least two. */
  function RecordWidth(k: nat): nat {
    if k > 1 then k + 1 else k
  }

  lemma {:induction false} FiguresLength(head: seq<DataCell>, row: int, start: int, rec: Speeds, ms: seq<Metric>)
    ensures |Figures(head, row, start, rec, ms)| == |head| + |ms|
  {
    if ms != [] {
      FiguresLength(head, row, start, rec, ms[..|ms| - 1]);
    }
  }

  /** A row holds one record per date that has one, and nothing for the
      dates that do not. */
  lemma {:induction false} AreaCellsLength(head: seq<DataCell>, row: int, area: string, data: Data, ds: seq<DateKey>, n: nat,
                                           ms: seq<Metric>)
    requires n <= |ds|
    ensures |AreaCells(head, row, area, data, ds, n, ms)| == |head| + Width(Present(data, ds, n, area), RecordWidth(|ms|))
  {
    if n > 0 {
      AreaCellsLength(head, row, area, data, ds, n - 1, ms);
      if Has(data, ds[n - 1], area) {
        FiguresLength(AreaCells(head, row, area, data, ds, n - 1, ms), row, 2 + Width(Present(data, ds, n - 1, area), |ms|),
                      data.vals[ds[n - 1]].vals[area], ms);
        WidthStep(Present(data, ds, n - 1, area), RecordWidth(|ms|));
      }
    }
  }

  /** When the area has a record on every date up to and including date i,
      figure j of date i lands in column 2 + i·k + j, the very column whose
      row-2 caption in the header names figure j under date i. */
  lemma RecordUnderItsCaption(head: seq<DataCell>, row: int, area: string, data: Data, ds: seq<DateKey>, ms: seq<Metric>,
                              i: nat, j: nat)
    requires i < |ds| && j < |ms| && Has(data, ds[i], area)
    requires forall l :: 0 <= l < i ==> Has(data, ds[l], area)
    ensures Figure(row, 2 + i * |ms| + j, Round1(Field(data.vals[ds[i]].vals[area], ms[j])))
              in AreaCells(head, row, area, data, ds, |ds|, ms)
    ensures 2 + i * (|ms| + 1) + j < |Header(ds, ms)|
    ensures Header(ds, ms)[2 + i * (|ms| + 1) + j] == Label(2, 2 + i * |ms| + j, SubLabel(ms[j]))
  {
    PresentBounds(data, ds, i, area);
    RecordInRow(head, row, area, data, ds, |ds|, ms, i, j);
    WidthIsProduct(i, |ms|);
    HeaderLayout(ds, ms, i);
  }

  /** The skipped-date shift: when some date before date i has no record
      for the area, the record of date i starts at the first column of an
      earlier date's block, p·k + 2 with p < i, to the left of where the
      header puts date i. */
  lemma RecordShiftedLeft(head: seq<DataCell>, row: int, area: string, data: Data, ds: seq<DateKey>, ms: seq<Metric>,
                          i: nat, l: nat)
    requires i < |ds| && ms != [] && Has(data, ds[i], area)
    requires l < i && !Has(data, ds[l], area)
    ensures var p := Present(data, ds, i, area);
            && p < i
            && Figure(row, 2 + p * |ms|, Round1(Field(data.vals[ds[i]].vals[area], ms[0])))
                 in AreaCells(head, row, area, data, ds, |ds|, ms)
            && 2 + p * |ms| < 2 + i * |ms|
            && 1 + p * (|ms| + 1) < |Header(ds, ms)|
            && Header(ds, ms)[1 + p * (|ms| + 1)] == DateSpan(2 + p * |ms|, 1 + (p + 1) * |ms|, ds[p])
  {
    var p := Present(data, ds, i, area);
    PresentBounds(data, ds, i, area);
    RecordInRow(head, row, area, data, ds, |ds|, ms, i, 0);
    WidthIsProduct(p, |ms|);
    HeaderLayout(ds, ms, p);
    assert p * |ms| < i * |ms| by {
      MulLess(p, i, |ms|);
    }
  }

  lemma MulLess(a: nat, b: nat, k: nat)
    requires a < b && k > 0
    ensures a * k < b * k
  {
  }

  /** A row keeps whatever came before it. */
  lemma {:induction false} AreaCellsKeep(head: seq<DataCell>, row: int, area: string, data: Data, ds: seq<DateKey>, n: nat,
                                         ms: seq<Metric>, x: DataCell)
    requires n <= |ds| && x in head
    ensures x in AreaCells(head, row, area, data, ds, n, ms)
  {
    if n > 0 {
      AreaCellsKeep(head, row, area, data, ds, n - 1, ms, x);
      AreaCellsGrow(head, row, area, data, ds, n, ms, x);
    }
  }

  /** Later rows keep the earlier ones. */
  lemma {:induction false} RowCellsKeep(head: seq<DataCell>, data: Data, areas: seq<string>, ds: seq<DateKey>, m: nat,
                                        m': nat, ms: seq<Metric>, x: DataCell)
    requires m <= m' <= |areas| && x in RowCells(head, data, areas, ds, m, ms)
    ensures x in RowCells(head, data, areas, ds, m', ms)
  {
    if m < m' {
      RowCellsKeep(head, data, areas, ds, m, m' - 1, ms, x);
      AreaCellsKeep(RowCells(head, data, areas, ds, m' - 1, ms) + [Name(3 + (m' - 1), 1, areas[m' - 1])],
                    3 + (m' - 1), areas[m' - 1], data, ds, |ds|, ms, x);
    }
  }

  /** The areas of a sheet are the first date's areas, each once, in
      strictly ascending order. */
  lemma SheetAreasSorted(data: Data)
    requires Nested(data) && data.keys != []
    ensures StrictlySorted(SheetAreas(data), StrLess)
    ensures |SheetAreas(data)| == |FirstDay(data).keys|
    ensures forall a :: a in SheetAreas(data) <==> a in FirstDay(data).vals
  {
    StrLessIsStrictTotalOrder();
    SortCorrect(FirstDay(data).keys, StrLess);
  }

  /** The rows place the a-th area's name in column 1 of row 3 + a and
      figure j of its record on date i in that row, in column 2 + p·k + j,
      where p counts the earlier dates that have a record for the area.
      `DataRows` is this layout over the first date's areas and all dates,
      both in ascending order. */
  lemma RowsLayout(head: seq<DataCell>, data: Data, areas: seq<string>, ds: seq<DateKey>, ms: seq<Metric>,
                   a: nat, i: nat, j: nat)
    requires a < |areas| && i < |ds| && j < |ms|
    ensures Name(3 + a, 1, areas[a]) in RowCells(head, data, areas, ds, |areas|, ms)
    ensures Has(data, ds[i], areas[a]) ==>
              Figure(3 + a, 2 + Present(data, ds, i, areas[a]) * |ms| + j, Round1(Field(data.vals[ds[i]].vals[areas[a]], ms[j])))
                in RowCells(head, data, areas, ds, |areas|, ms)
  {
    var area := areas[a];
    var before := RowCells(head, data, areas, ds, a, ms) + [Name(3 + a, 1, area)];
    RowCellsStep(head, data, areas, ds, a, ms);
    AreaCellsKeep(before, 3 + a, area, data, ds, |ds|, ms, Name(3 + a, 1, area));
    RowCellsKeep(head, data, areas, ds, a + 1, |areas|, ms, Name(3 + a, 1, area));
    if Has(data, ds[i], area) {
      var x := Figure(3 + a, 2 + Width(Present(data, ds, i, area), |ms|) + j, Round1(Field(data.vals[ds[i]].vals[area], ms[j])));
      RecordInRow(before, 3 + a, area, data, ds, |ds|, ms, i, j);
      RowCellsKeep(head, data, areas, ds, a + 1, |areas|, ms, x);
      WidthIsProduct(Present(data, ds, i, area), |ms|);
    }
  }

  // ---------------------------------------------------------------------------
  // FillSheet and SaveToExcel
  // ---------------------------------------------------------------------------

  /** A filled sheet: its name, its header cells and its data cells. */
  datatype Sheet = Sheet(name: string, header: seq<HeaderCell>, rows: seq<DataCell>)

  /** The sheet of one kind: header over the dataset's dates, then the rows. */
  function SheetOf(data: Data, sel: Selection, isSource: bool): Sheet
    requires data.Valid() && data.keys != []
  {
    Sheet(if isSource then "Source" else "Variant", HeaderCells(data.keys, sel, isSource), DataRows(data, sel, isSource))
  }

  /** The sheets of the workbook, in the order they are added. */
  function Workbook(data: Data, sel: Selection): seq<Sheet>
    requires data.Valid() && data.keys != []
  {
    (if sel.source then [SheetOf(data, sel, true)] else []) + (if sel.variant then [SheetOf(data, sel, false)] else [])
  }

  /** `FillSheet`: the header, then the data rows, on a cleared sheet. */
  method FillSheet(name: string, data: Data, sel: Selection, isSource: bool) returns (sheet: Sheet)
    requires data.Valid() && data.keys != []
    ensures sheet == Sheet(name, HeaderCells(data.keys, sel, isSource), DataRows(data, sel, isSource))
  {
    var header, lastColumn := CreateHeader(data.keys, sel, isSource);
    var rows, nextRow := FillDataRows(data, sel, isSource);
    sheet := Sheet(name, header, rows);
  }

  /** `SaveToExcel`: a "Source" sheet when the source flag is on, then a
      "Variant" sheet when the variant flag is on. */
  method SaveToExcel(data: Data, sel: Selection) returns (book: seq<Sheet>)
    requires data.Valid() && data.keys != []
    ensures book == Workbook(data, sel)
  {
    book := [];
    if sel.source {
      var sourceSheet := FillSheet("Source", data, sel, true);
      book := book + [sourceSheet];
    }
    if sel.variant {
      var variantSheet := FillSheet("Variant", data, sel, false);
      book := book + [variantSheet];
    }
  }

  /** Each flag adds its sheet and nothing else: the source flag decides
      only whether the "Source" sheet exists, the variant flag only whether
      the "Variant" sheet exists, and a sheet's contents depend on neither. */
  lemma WorkbookSheets(data: Data, sel: Selection)
    requires data.Valid() && data.keys != []
    ensures |Workbook(data, sel)| == (if sel.source then 1 else 0) + (if sel.variant then 1 else 0)
    ensures forall s :: s in Workbook(data, sel) ==>
              (s.name == "Source" && sel.source && s == SheetOf(data, sel, true))
              || (s.name == "Variant" && sel.variant && s == SheetOf(data, sel, false))
    ensures sel.source ==> Workbook(data, sel)[0] == SheetOf(data, sel, true)
    ensures sel.variant ==> Workbook(data, sel)[|Workbook(data, sel)| - 1] == SheetOf(data, sel, false)
    ensures forall b: bool, isSource :: SheetOf(data, sel.(source := b), isSource) == SheetOf(data, sel, isSource)
    ensures forall b: bool, isSource :: SheetOf(data, sel.(variant := b), isSource) == SheetOf(data, sel, isSource)
  {
  }
}
