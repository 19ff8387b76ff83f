/** `ParseXmlData`: from the areas, cells and sections of the input document
    to the per-(date, area) speed records, followed by the MainWay rollup.

    The XML itself is not modelled: the input is the list of `Area` elements
    with what the processor reads from them already extracted. */
module Extraction {
  import opened OrderedMaps
  import opened Speed
  import opened Calendar
  import opened Dataset

  /** One `SectionInformations` element: `TrainKm` and `TrainHoursWithStops`
      (a missing attribute reads as 0). */
  datatype Section = Section(trainKm: real, trainHoursWithStops: real)

  /** One `CellInformation` element: the sections under each of the four
      stream elements; a missing stream element has no sections. */
  datatype CellInfo = CellInfo(oddSourceThreads: seq<Section>, evenSourceThreads: seq<Section>,
                               oddVariantThreads: seq<Section>, evenVariantThreads: seq<Section>)

  /** One `Cell` element: its `Date` if present and parsable (time of day
      dropped), and its `CellInformation` child if present. */
  datatype Cell = Cell(date: Option<DateKey>, info: Option<CellInfo>)

  /** One `Area` element: its `Name` ("" when missing or empty), whether
      `IsMainWay` is "1", and its cells in document order. */
  datatype Area = Area(name: string, isMainWay: bool, cells: seq<Cell>)

  type RawDay = OrdMap<string, Raw>
  type RawTable = OrdMap<DateKey, RawDay>

  /** The processor dereferences `CellInformation` of every dated cell of a
      named area without a check, and a parsed date is a real calendar day. */
  ghost predicate CellsOk(cells: seq<Cell>) {
    forall c :: c in cells && c.date.Some? ==> c.info.Some? && IsCalendarDate(c.date.value)
  }

  ghost predicate WellFormedInput(areas: seq<Area>) {
    forall a :: a in areas && a.name != "" ==> CellsOk(a.cells)
  }

  // ---------------------------------------------------------------------------
  // Specification
  // ---------------------------------------------------------------------------

  /** Kilometres and hours summed over the sections of one stream. */
  function SumSections(ss: seq<Section>): Stream {
    if ss == [] then NoTraffic
    else SumSections(ss[..|ss| - 1]).Plus(Stream(ss[|ss| - 1].trainKm, ss[|ss| - 1].trainHoursWithStops))
  }

  function CellTotals(info: CellInfo): Raw {
    Raw(SumSections(info.oddSourceThreads), SumSections(info.evenSourceThreads),
        SumSections(info.oddVariantThreads), SumSections(info.evenVariantThreads))
  }

  /** The raw table after the cells of area `name`: each dated cell assigns its
      own totals to (date, name). */
  function AddCells(t: RawTable, name: string, cells: seq<Cell>): (r: RawTable)
    requires CellsOk(cells)
    ensures Nested(t) ==> Nested(r)
    ensures CalendarKeys(t) ==> CalendarKeys(r)
    ensures t.keys <= r.keys
  {
    if cells == [] then t
    else
      var c := cells[|cells| - 1];
      var prev := AddCells(t, name, cells[..|cells| - 1]);
      if c.date.Some? then Put2(prev, c.date.value, name, CellTotals(c.info.value)) else prev
  }

  /** The raw table after the given areas; unnamed areas are skipped. */
  function AddAreas(areas: seq<Area>): (r: RawTable)
    requires WellFormedInput(areas)
    ensures Nested(r) && CalendarKeys(r)
  {
    if areas == [] then Empty()
    else
      var a := areas[|areas| - 1];
      var prev := AddAreas(areas[..|areas| - 1]);
      if a.name == "" then prev else AddCells(prev, a.name, a.cells)
  }

  function DaySpeeds(d: RawDay): Day {
    OrdMap(d.keys, map n | n in d.vals :: RecordOf(d.vals[n]))
  }

  /** Every raw record turned into its six speeds, key order kept. */
  function ToSpeeds(t: RawTable): (r: Data)
    ensures Nested(t) ==> Nested(r)
    ensures r.keys == t.keys && r.vals.Keys == t.vals.Keys
  {
    OrdMap(t.keys, map k | k in t.vals :: DaySpeeds(t.vals[k]))
  }

  /** The `IsMainWay` flag of the first `Area` element carrying this name. */
  function MainWayFlag(areas: seq<Area>, name: string): bool {
    if areas == [] then false
    else if areas[0].name == name then areas[0].isMainWay
    else MainWayFlag(areas[1..], name)
  }

  /** The raw figures of the flagged areas among `names` summed, or None when
      none of them is flagged. */
  function MainWayTotal(day: RawDay, areas: seq<Area>, names: seq<string>): Option<Raw>
    requires forall n :: n in names ==> n in day.vals
  {
    if names == [] then None
    else
      var n := names[|names| - 1];
      var prev := MainWayTotal(day, areas, names[..|names| - 1]);
      if !MainWayFlag(areas, n) then prev
      else Some((if prev.Some? then prev.value else NoRaw).Plus(day.vals[n]))
  }

  /** The MainWay record of each date in `ks`, where one is due. */
  function WithMainWay(d: Data, t: RawTable, areas: seq<Area>, ks: seq<DateKey>): (r: Data)
    requires Nested(t) && forall k :: k in ks ==> k in t.vals && k in d.vals
    ensures Nested(d) ==> Nested(r)
    ensures r.vals.Keys == d.vals.Keys
  {
    if ks == [] then d
    else
      var k := ks[|ks| - 1];
      var prev := WithMainWay(d, t, areas, ks[..|ks| - 1]);
      match MainWayTotal(t.vals[k], areas, t.vals[k].keys)
      case None => prev
      case Some(sum) => Put2(prev, k, MainWay, RecordOf(sum))
  }

  /** What `ParseXmlData` returns. */
  function Parsed(areas: seq<Area>): Data
    requires WellFormedInput(areas)
  {
    var t := AddAreas(areas);
    WithMainWay(ToSpeeds(t), t, areas, t.keys)
  }

  // ---------------------------------------------------------------------------
  // The method
  // ---------------------------------------------------------------------------

  /** The `foreach ... +=` over the sections of one stream. */
  method AccumulateSections(sections: seq<Section>) returns (total: Stream)
    ensures total == SumSections(sections)
  {
    total := NoTraffic;
    for i := 0 to |sections|
      invariant total == SumSections(sections[..i])
    {
      assert sections[..i + 1][..i] == sections[..i];
      total := total.Plus(Stream(sections[i].trainKm, sections[i].trainHoursWithStops));
    }
    assert sections[..|sections|] == sections;
  }

  lemma DaySpeedsPut(day: RawDay, n: string, r: Raw)
    ensures DaySpeeds(day.Put(n, r)) == DaySpeeds(day).Put(n, RecordOf(r))
  {
    assert DaySpeeds(day.Put(n, r)).vals == DaySpeeds(day).vals[n := RecordOf(r)];
  }

  lemma ToSpeedsPut(t: RawTable, k: DateKey, day: RawDay)
    ensures ToSpeeds(t.Put(k, day)) == ToSpeeds(t).Put(k, DaySpeeds(day))
  {
    assert ToSpeeds(t.Put(k, day)).vals == ToSpeeds(t).vals[k := DaySpeeds(day)];
  }

  lemma ToSpeedsPut2(t: RawTable, k: DateKey, n: string, r: Raw)
    ensures ToSpeeds(Put2(t, k, n, r)) == Put2(ToSpeeds(t), k, n, RecordOf(r))
  {
    var inner: RawDay := if k in t.vals then t.vals[k] else Empty();
    DaySpeedsPut(inner, n, r);
    ToSpeedsPut(t, k, inner.Put(n, r));
    if k !in t.vals {
      assert DaySpeeds(inner) == Empty();
    } else {
      assert DaySpeeds(inner) == ToSpeeds(t).vals[k];
    }
  }

  /** One dated cell of a named area: placeholders first, as the processor
      writes them, then the cell's own record and raw totals. */
  method StoreCell(result: Data, original: RawTable, date: DateKey, name: string, info: CellInfo)
    returns (result': Data, original': RawTable)
    requires result == ToSpeeds(original)
    ensures original' == Put2(original, date, name, CellTotals(info))
    ensures result' == ToSpeeds(original')
  {
    result' := result;
    if date !in result'.vals {
      result' := result'.Put(date, Empty());
    }
    if name !in result'.vals[date].vals {
      result' := Put2(result', date, name, ZeroSpeeds);
    }
    var oddSource := AccumulateSections(info.oddSourceThreads);
    var evenSource := AccumulateSections(info.evenSourceThreads);
    var oddVariant := AccumulateSections(info.oddVariantThreads);
    var evenVariant := AccumulateSections(info.evenVariantThreads);
    var raw := Raw(oddSource, evenSource, oddVariant, evenVariant);
    PlaceholderVanishes(result, date, name, RecordOf(raw));
    result' := Put2(result', date, name, RecordOf(raw));
    ToSpeedsPut2(original, date, name, raw);
    original' := Put2(original, date, name, raw);
  }

  /** The MainWay pass for one date: every flagged area adds its raw figures
      to `startWayData` and rewrites the date's MainWay record from the sum. */
  method StoreMainWay(result: Data, day: RawDay, date: DateKey, areas: seq<Area>) returns (result': Data)
    requires day.Valid()
    ensures result' == match MainWayTotal(day, areas, day.keys)
                       case None => result
                       case Some(sum) => Put2(result, date, MainWay, RecordOf(sum))
  {
    result' := result;
    var startWayData := NoRaw;
    ghost var found := false;
    for a := 0 to |day.keys|
      invariant MainWayTotal(day, areas, day.keys[..a]) == if found then Some(startWayData) else None
      invariant !found ==> startWayData == NoRaw
      invariant result' == if found then Put2(result, date, MainWay, RecordOf(startWayData)) else result
    {
      var areaName := day.keys[a];
      assert day.keys[..a + 1][..a] == day.keys[..a];
      if MainWayFlag(areas, areaName) {
        ghost var previous := startWayData;
        startWayData := startWayData.Plus(day.vals[areaName]);
        if found {
          Put2Put2(result, date, MainWay, RecordOf(previous), RecordOf(startWayData));
        }
        result' := Put2(result', date, MainWay, RecordOf(startWayData));
        found := true;
      }
    }
    assert day.keys[..|day.keys|] == day.keys;
  }

  /** The cells of one named area, in document order. */
  method StoreArea(result: Data, original: RawTable, name: string, cells: seq<Cell>)
    returns (result': Data, original': RawTable)
    requires CellsOk(cells) && result == ToSpeeds(original)
    ensures original' == AddCells(original, name, cells)
    ensures result' == ToSpeeds(original')
  {
    result', original' := result, original;
    for j := 0 to |cells|
      invariant original' == AddCells(original, name, cells[..j])
      invariant result' == ToSpeeds(original')
    {
      var cell := cells[j];
      assert cells[..j + 1][..j] == cells[..j];
      if cell.date.Some? {
        assert cell in cells;
        result', original' := StoreCell(result', original', cell.date.value, name, cell.info.value);
      }
    }
    assert cells[..|cells|] == cells;
  }

  /** The first pass: every dated cell of every named area. */
  method StoreAreas(areas: seq<Area>) returns (result: Data, original: RawTable)
    requires WellFormedInput(areas)
    ensures original == AddAreas(areas)
    ensures result == ToSpeeds(original)
  {
    result := Empty();
    original := Empty();
    for i := 0 to |areas|
      invariant original == AddAreas(areas[..i])
      invariant result == ToSpeeds(original)
    {
      var area := areas[i];
      assert areas[..i + 1][..i] == areas[..i];
      if area.name != "" {
        assert area in areas;
        result, original := StoreArea(result, original, area.name, area.cells);
      }
    }
    assert areas[..|areas|] == areas;
  }

  /** The second pass: the MainWay record of every date, in date order. */
  method StoreMainWays(result: Data, original: RawTable, areas: seq<Area>) returns (result': Data)
    requires Nested(original) && result == ToSpeeds(original)
    ensures result' == WithMainWay(result, original, areas, original.keys)
  {
    result' := result;
    for d := 0 to |original.keys|
      invariant result' == WithMainWay(result, original, areas, original.keys[..d])
    {
      var date := original.keys[d];
      assert original.keys[..d + 1][..d] == original.keys[..d];
      result' := StoreMainWay(result', original.vals[date], date, areas);
    }
    assert original.keys[..|original.keys|] == original.keys;
  }

  method ParseXmlData(areas: seq<Area>) returns (result: Data)
    requires WellFormedInput(areas)
    ensures result == Parsed(areas)
    ensures Nested(result) && CalendarKeys(result)
  {
    var original;
    result, original := StoreAreas(areas);
    result := StoreMainWays(result, original, areas);
  }

  /** The placeholder entries written before a record disappear under it. */
  lemma PlaceholderVanishes(t: Data, k: DateKey, n: string, v: Speeds)
    ensures var t1 := if k !in t.vals then t.Put(k, Empty()) else t;
            var t2 := if n !in t1.vals[k].vals then Put2(t1, k, n, ZeroSpeeds) else t1;
            Put2(t2, k, n, v) == Put2(t, k, n, v)
  {
    var t1 := if k !in t.vals then t.Put(k, Empty()) else t;
    if n !in t1.vals[k].vals {
      Put2Put2(t1, k, n, ZeroSpeeds, v);
    }
    if k !in t.vals {
      Put2AfterEmpty(t, k, n, v);
    }
  }
}

/** What `ParseXmlData` promises, proved about its specification. */
module ExtractionProperties {
  import opened OrderedMaps
  import opened Speed
  import opened Calendar
  import opened Dataset
  import opened Extraction

  /** One dated cell of a named area, as the processor meets it. */
  datatype Contribution = Contribution(date: DateKey, area: string, totals: Raw)

  function CellContributions(name: string, cells: seq<Cell>): seq<Contribution>
    requires CellsOk(cells)
  {
    if cells == [] then []
    else
      var c := cells[|cells| - 1];
      CellContributions(name, cells[..|cells| - 1]) +
        (if c.date.Some? then [Contribution(c.date.value, name, CellTotals(c.info.value))] else [])
  }

  /** Every dated cell of every named area, in document order. */
  function Contributions(areas: seq<Area>): seq<Contribution>
    requires WellFormedInput(areas)
  {
    if areas == [] then []
    else
      var a := areas[|areas| - 1];
      Contributions(areas[..|areas| - 1]) +
        (if a.name == "" then [] else CellContributions(a.name, a.cells))
  }

  /** The totals of the last cell for (k, n), if any. */
  function LastFor(cs: seq<Contribution>, k: DateKey, n: string): Option<Raw> {
    if cs == [] then None
    else
      var c := cs[|cs| - 1];
      if c.date == k && c.area == n then Some(c.totals) else LastFor(cs[..|cs| - 1], k, n)
  }

  lemma {:induction false} LastForAppend(xs: seq<Contribution>, ys: seq<Contribution>, k: DateKey, n: string)
    ensures LastFor(xs + ys, k, n) == if LastFor(ys, k, n).Some? then LastFor(ys, k, n) else LastFor(xs, k, n)
  {
    if ys != [] {
      assert (xs + ys)[..|xs + ys| - 1] == xs + ys[..|ys| - 1];
      LastForAppend(xs, ys[..|ys| - 1], k, n);
    } else {
      assert xs + ys == xs;
    }
  }

  lemma {:induction false} AddCellsLookup(t: RawTable, name: string, cells: seq<Cell>, k: DateKey, n: string)
    requires CellsOk(cells)
    ensures Lookup(AddCells(t, name, cells), k, n) ==
            if LastFor(CellContributions(name, cells), k, n).Some?
            then LastFor(CellContributions(name, cells), k, n) else Lookup(t, k, n)
  {
    if cells != [] {
      var c := cells[|cells| - 1];
      var prefix := cells[..|cells| - 1];
      AddCellsLookup(t, name, prefix, k, n);
      var tail := if c.date.Some? then [Contribution(c.date.value, name, CellTotals(c.info.value))] else [];
      LastForAppend(CellContributions(name, prefix), tail, k, n);
      if c.date.Some? {
        LookupPut2(AddCells(t, name, prefix), c.date.value, name, CellTotals(c.info.value), k, n);
        assert tail[..0] == [];
      }
    }
  }

  /** The raw figures kept for (k, n) are those of the LAST cell for that
      pair: sums restart for every cell, and the record is assigned, not added. */
  lemma {:induction false} RawIsLastCell(areas: seq<Area>, k: DateKey, n: string)
    requires WellFormedInput(areas)
    ensures Lookup(AddAreas(areas), k, n) == LastFor(Contributions(areas), k, n)
  {
    if areas != [] {
      var a := areas[|areas| - 1];
      var prefix := areas[..|areas| - 1];
      RawIsLastCell(prefix, k, n);
      if a.name == "" {
        assert Contributions(prefix) + [] == Contributions(prefix);
        assert Contributions(areas) == Contributions(prefix);
      } else {
        assert CellsOk(a.cells);
        AddCellsLookup(AddAreas(prefix), a.name, a.cells, k, n);
        LastForAppend(Contributions(prefix), CellContributions(a.name, a.cells), k, n);
      }
    }
  }

  lemma ToSpeedsLookup(t: RawTable, k: DateKey, n: string)
    ensures Lookup(ToSpeeds(t), k, n) == match Lookup(t, k, n)
                                         case None => None
                                         case Some(r) => Some(RecordOf(r))
  {
  }

  lemma {:induction false} WithMainWayLookup(d: Data, t: RawTable, areas: seq<Area>, ks: seq<DateKey>, k: DateKey, n: string)
    requires Nested(t) && forall x :: x in ks ==> x in t.vals && x in d.vals
    ensures Lookup(WithMainWay(d, t, areas, ks), k, n) ==
            if n == MainWay && k in ks && MainWayTotal(t.vals[k], areas, t.vals[k].keys).Some?
            then Some(RecordOf(MainWayTotal(t.vals[k], areas, t.vals[k].keys).value))
            else Lookup(d, k, n)
  {
    if ks != [] {
      var last := ks[|ks| - 1];
      var prefix := ks[..|ks| - 1];
      assert ks == prefix + [last];
      WithMainWayLookup(d, t, areas, prefix, k, n);
      var prev := WithMainWay(d, t, areas, prefix);
      match MainWayTotal(t.vals[last], areas, t.vals[last].keys)
      case None =>
      case Some(sum) => LookupPut2(prev, last, MainWay, RecordOf(sum), k, n);
    }
  }

  /** Each ordinary (date, area) record is the six speeds of the last cell for
      that pair, and there is a record exactly when some cell supplied one. */
  lemma RecordIsLastCell(areas: seq<Area>, k: DateKey, n: string)
    requires WellFormedInput(areas) && n != MainWay
    ensures Lookup(Parsed(areas), k, n) == match LastFor(Contributions(areas), k, n)
                                           case None => None
                                           case Some(r) => Some(RecordOf(r))
  {
    var t := AddAreas(areas);
    WithMainWayLookup(ToSpeeds(t), t, areas, t.keys, k, n);
    ToSpeedsLookup(t, k, n);
    RawIsLastCell(areas, k, n);
  }

  lemma {:induction false} NoMainWayContribution(areas: seq<Area>, k: DateKey)
    requires WellFormedInput(areas)
    requires forall a :: a in areas ==> a.name != MainWay
    ensures LastFor(Contributions(areas), k, MainWay) == None
  {
    if areas != [] {
      var a := areas[|areas| - 1];
      var prefix := areas[..|areas| - 1];
      NoMainWayContribution(prefix, k);
      if a.name != "" {
        assert CellsOk(a.cells);
        NoCellContribution(a.name, a.cells, k);
        LastForAppend(Contributions(prefix), CellContributions(a.name, a.cells), k, MainWay);
      } else {
        assert Contributions(prefix) + [] == Contributions(prefix);
        assert Contributions(areas) == Contributions(prefix);
      }
    }
  }

  lemma {:induction false} NoCellContribution(name: string, cells: seq<Cell>, k: DateKey)
    requires CellsOk(cells) && name != MainWay
    ensures LastFor(CellContributions(name, cells), k, MainWay) == None
  {
    if cells != [] {
      var c := cells[|cells| - 1];
      NoCellContribution(name, cells[..|cells| - 1], k);
      var tail := if c.date.Some? then [Contribution(c.date.value, name, CellTotals(c.info.value))] else [];
      LastForAppend(CellContributions(name, cells[..|cells| - 1]), tail, k, MainWay);
      assert LastFor(tail, k, MainWay) == None by {
        if tail != [] { assert tail[..0] == []; }
      }
    }
  }

  /** When no input area is itself called "MainWay", a parsed date carries a
      MainWay record exactly when one of its areas is flagged, and that record
      is the six speeds of the summed raw figures of the flagged areas. */
  lemma MainWayOfDate(areas: seq<Area>, k: DateKey)
    requires WellFormedInput(areas)
    requires forall a :: a in areas ==> a.name != MainWay
    requires k in AddAreas(areas).vals
    ensures var day := AddAreas(areas).vals[k];
            Lookup(Parsed(areas), k, MainWay) == match MainWayTotal(day, areas, day.keys)
                                                 case None => None
                                                 case Some(sum) => Some(RecordOf(sum))
  {
    var t := AddAreas(areas);
    WithMainWayLookup(ToSpeeds(t), t, areas, t.keys, k, MainWay);
    ToSpeedsLookup(t, k, MainWay);
    RawIsLastCell(areas, k, MainWay);
    NoMainWayContribution(areas, k);
  }

  /** The MainWay sum exists exactly when some listed area is flagged. */
  lemma {:induction false} MainWayPresence(day: RawDay, areas: seq<Area>, names: seq<string>)
    requires forall n :: n in names ==> n in day.vals
    ensures MainWayTotal(day, areas, names).Some? <==>
            exists i :: 0 <= i < |names| && MainWayFlag(areas, names[i])
  {
    if names != [] {
      var prefix := names[..|names| - 1];
      MainWayPresence(day, areas, prefix);
      if exists i :: 0 <= i < |prefix| && MainWayFlag(areas, prefix[i]) {
        var i :| 0 <= i < |prefix| && MainWayFlag(areas, prefix[i]);
        assert names[i] == prefix[i];
      }
      if exists i :: 0 <= i < |names| && MainWayFlag(areas, names[i]) {
        var i :| 0 <= i < |names| && MainWayFlag(areas, names[i]);
        if i < |prefix| { assert prefix[i] == names[i]; }
      }
    }
  }

  /** An area that is not flagged never contributes to MainWay: whatever its
      figures, the sum stays the same. */
  lemma {:induction false} MainWayIgnoresUnflagged(day: RawDay, areas: seq<Area>, names: seq<string>, n: string, r: Raw)
    requires forall x :: x in names ==> x in day.vals
    requires n in day.vals && !MainWayFlag(areas, n)
    ensures MainWayTotal(day.Put(n, r), areas, names) == MainWayTotal(day, areas, names)
  {
    if names != [] {
      MainWayIgnoresUnflagged(day, areas, names[..|names| - 1], n, r);
    }
  }

  /** The flag of a name is that of the first `Area` element with the name. */
  lemma {:induction false} MainWayFlagIsFirst(areas: seq<Area>, i: nat)
    requires i < |areas|
    requires forall j :: 0 <= j < i ==> areas[j].name != areas[i].name
    ensures MainWayFlag(areas, areas[i].name) == areas[i].isMainWay
  {
    if i > 0 {
      MainWayFlagIsFirst(areas[1..], i - 1);
    }
  }

  // Two single-cell areas on one date.

  /** A named area (not called "MainWay") with one cell, dated d. */
  ghost predicate SingleCellOn(a: Area, d: DateKey) {
    && a.name != "" && a.name != MainWay
    && |a.cells| == 1 && a.cells[0].date == Some(d) && a.cells[0].info.Some?
  }

  function OnlyTotals(a: Area): Raw
    requires |a.cells| == 1 && a.cells[0].info.Some?
  {
    CellTotals(a.cells[0].info.value)
  }

  lemma OneCell(t: RawTable, name: string, c: Cell)
    requires CellsOk([c]) && c.date.Some?
    ensures AddCells(t, name, [c]) == Put2(t, c.date.value, name, CellTotals(c.info.value))
  {
    assert [c][..0] == [];
  }

  lemma OneCellContribution(name: string, c: Cell)
    requires CellsOk([c]) && c.date.Some?
    ensures CellContributions(name, [c]) == [Contribution(c.date.value, name, CellTotals(c.info.value))]
  {
    assert [c][..0] == [];
  }

  lemma TwoAreas(a: Area, b: Area)
    requires a.name != "" && b.name != "" && CellsOk(a.cells) && CellsOk(b.cells)
    ensures WellFormedInput([a, b])
    ensures AddAreas([a, b]) == AddCells(AddCells(Empty(), a.name, a.cells), b.name, b.cells)
  {
    assert [a, b][..1] == [a] && [a][..0] == [];
    var e: RawTable := Empty();
    assert AddAreas([]) == e;
    assert AddAreas([a]) == AddCells(e, a.name, a.cells);
  }

  lemma TwoAreasContributions(a: Area, b: Area)
    requires a.name != "" && b.name != "" && CellsOk(a.cells) && CellsOk(b.cells)
    ensures WellFormedInput([a, b])
    ensures Contributions([a, b]) == CellContributions(a.name, a.cells) + CellContributions(b.name, b.cells)
  {
    assert [a, b][..1] == [a] && [a][..0] == [];
    assert Contributions([a]) == [] + CellContributions(a.name, a.cells);
    assert [] + CellContributions(a.name, a.cells) == CellContributions(a.name, a.cells);
  }

  lemma TwoPuts(d: DateKey, x: string, y: string, rx: Raw, ry: Raw)
    requires x != y
    ensures var day := Put2(Put2(Empty(), d, x, rx), d, y, ry).vals[d];
            day.keys == [x, y] && day.vals[x] == rx && day.vals[y] == ry
  {
  }

  lemma TwoAreaRaw(d: DateKey, a: Area, b: Area)
    requires IsCalendarDate(d) && SingleCellOn(a, d) && SingleCellOn(b, d)
    ensures WellFormedInput([a, b])
    ensures AddAreas([a, b]) == Put2(Put2(Empty(), d, a.name, OnlyTotals(a)), d, b.name, OnlyTotals(b))
  {
    assert a.cells == [a.cells[0]] && b.cells == [b.cells[0]];
    var e: RawTable := Empty();
    OneCell(e, a.name, a.cells[0]);
    OneCell(Put2(e, d, a.name, OnlyTotals(a)), b.name, b.cells[0]);
    TwoAreas(a, b);
  }

  lemma TwoAreaContributions(d: DateKey, a: Area, b: Area)
    requires IsCalendarDate(d) && SingleCellOn(a, d) && SingleCellOn(b, d)
    ensures WellFormedInput([a, b])
    ensures Contributions([a, b]) == [Contribution(d, a.name, OnlyTotals(a)), Contribution(d, b.name, OnlyTotals(b))]
  {
    assert a.cells == [a.cells[0]] && b.cells == [b.cells[0]];
    OneCellContribution(a.name, a.cells[0]);
    OneCellContribution(b.name, b.cells[0]);
    TwoAreasContributions(a, b);
  }

  lemma TwoAreaTable(d: DateKey, a: Area, b: Area)
    requires IsCalendarDate(d) && SingleCellOn(a, d) && SingleCellOn(b, d) && a.name != b.name
    ensures WellFormedInput([a, b])
    ensures var day := AddAreas([a, b]).vals[d];
            day.keys == [a.name, b.name] && day.vals[a.name] == OnlyTotals(a)
    ensures Contributions([a, b]) == [Contribution(d, a.name, OnlyTotals(a)), Contribution(d, b.name, OnlyTotals(b))]
  {
    TwoAreaRaw(d, a, b);
    TwoAreaContributions(d, a, b);
    TwoPuts(d, a.name, b.name, OnlyTotals(a), OnlyTotals(b));
  }

  lemma FlaggedOfTwo(day: RawDay, areas: seq<Area>, x: string, y: string)
    requires x in day.vals && y in day.vals
    requires MainWayFlag(areas, x) && !MainWayFlag(areas, y)
    ensures MainWayTotal(day, areas, [x, y]) == Some(NoRaw.Plus(day.vals[x]))
  {
    assert [x, y][..1] == [x] && [x][..0] == [];
    assert MainWayTotal(day, areas, []) == None;
    assert MainWayTotal(day, areas, [x]) == Some(NoRaw.Plus(day.vals[x]));
  }

  lemma MainWayOfFirst(areas: seq<Area>, k: DateKey, x: string, y: string)
    requires WellFormedInput(areas)
    requires forall a :: a in areas ==> a.name != MainWay
    requires k in AddAreas(areas).vals && AddAreas(areas).vals[k].keys == [x, y]
    requires MainWayFlag(areas, x) && !MainWayFlag(areas, y)
    ensures Lookup(Parsed(areas), k, MainWay) == Some(RecordOf(NoRaw.Plus(AddAreas(areas).vals[k].vals[x])))
  {
    var day := AddAreas(areas).vals[k];
    assert x in day.keys && y in day.keys;
    FlaggedOfTwo(day, areas, x, y);
    MainWayOfDate(areas, k);
  }

  lemma TwoAreaMainWay(d: DateKey, a: Area, b: Area)
    requires IsCalendarDate(d) && SingleCellOn(a, d) && SingleCellOn(b, d) && a.name != b.name
    requires a.isMainWay && !b.isMainWay
    ensures WellFormedInput([a, b])
    ensures Lookup(Parsed([a, b]), d, MainWay) == Some(RecordOf(NoRaw.Plus(OnlyTotals(a))))
  {
    TwoAreaTable(d, a, b);
    assert MainWayFlag([a, b], a.name) && !MainWayFlag([a, b], b.name);
    MainWayOfFirst([a, b], d, a.name, b.name);
  }

  lemma TwoAreaOrdinary(d: DateKey, a: Area, b: Area)
    requires IsCalendarDate(d) && SingleCellOn(a, d) && SingleCellOn(b, d) && a.name != b.name
    ensures WellFormedInput([a, b])
    ensures Lookup(Parsed([a, b]), d, b.name) == Some(RecordOf(OnlyTotals(b)))
  {
    TwoAreaTable(d, a, b);
    RecordIsLastCell([a, b], d, b.name);
    var cs := Contributions([a, b]);
    assert cs[..1] == [cs[0]];
  }

  /** Two single-cell areas on one date, the first flagged and the second
      not: MainWay is the first area's record alone, and the second keeps
      its own record. */
  lemma MainRouteOfTwo(d: DateKey, a: Area, b: Area)
    requires IsCalendarDate(d) && SingleCellOn(a, d) && SingleCellOn(b, d) && a.name != b.name
    requires a.isMainWay && !b.isMainWay
    ensures WellFormedInput([a, b])
    ensures Lookup(Parsed([a, b]), d, MainWay) == Some(RecordOf(NoRaw.Plus(OnlyTotals(a))))
    ensures Lookup(Parsed([a, b]), d, b.name) == Some(RecordOf(OnlyTotals(b)))
  {
    TwoAreaMainWay(d, a, b);
    TwoAreaOrdinary(d, a, b);
  }

  lemma OneSection(x: Section)
    ensures SumSections([x]) == Stream(x.trainKm, x.trainHoursWithStops)
  {
    assert [x][..0] == [];
  }

  /** The figures of the worked example below, apart from any parsing. */
  lemma SampleFigures(infoA: CellInfo, infoB: CellInfo)
    requires infoA == CellInfo([Section(100.0, 2.0)], [], [], [])
    requires infoB == CellInfo([Section(60.0, 3.0)], [], [], [])
    ensures RecordOf(NoRaw.Plus(CellTotals(infoA))) == Speeds(50.0, 0.0, 50.0, 0.0, 0.0, 0.0)
    ensures RecordOf(CellTotals(infoB)) == Speeds(20.0, 0.0, 20.0, 0.0, 0.0, 0.0)
  {
    var rawA := Raw(Stream(100.0, 2.0), NoTraffic, NoTraffic, NoTraffic);
    var rawB := Raw(Stream(60.0, 3.0), NoTraffic, NoTraffic, NoTraffic);
    assert CellTotals(infoB) == rawB by {
      OneSection(Section(60.0, 3.0));
    }
    assert NoRaw.Plus(CellTotals(infoA)) == rawA by {
      OneSection(Section(100.0, 2.0));
    }
    assert RecordOf(rawA) == Speeds(50.0, 0.0, 50.0, 0.0, 0.0, 0.0);
    assert RecordOf(rawB) == Speeds(20.0, 0.0, 20.0, 0.0, 0.0, 0.0);
  }

  /** The worked example: area A, flagged, ran 100 km in 2 h and area B, not
      flagged, 60 km in 3 h, both in the odd direction of the source
      schedule.  MainWay reports 50 km/h, A's speed and not a blend with B's;
      B keeps its own 20 km/h. */
  lemma SampleMainRoute(d: DateKey, a: Area, b: Area)
    requires IsCalendarDate(d) && SingleCellOn(a, d) && SingleCellOn(b, d) && a.name != b.name
    requires a.isMainWay && a.cells[0].info.value == CellInfo([Section(100.0, 2.0)], [], [], [])
    requires !b.isMainWay && b.cells[0].info.value == CellInfo([Section(60.0, 3.0)], [], [], [])
    ensures WellFormedInput([a, b])
    ensures Lookup(Parsed([a, b]), d, MainWay) == Some(Speeds(50.0, 0.0, 50.0, 0.0, 0.0, 0.0))
    ensures Lookup(Parsed([a, b]), d, b.name) == Some(Speeds(20.0, 0.0, 20.0, 0.0, 0.0, 0.0))
  {
    SampleFigures(a.cells[0].info.value, b.cells[0].info.value);
    MainRouteOfTwo(d, a, b);
  }
}
