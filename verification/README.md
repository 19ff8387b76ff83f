# XmlProcessor speed reports, modelled in Dafny

`XmlProcessor` turns a railway schedule export into speed reports. For every
date and every track area it reads the kilometres and hours-with-stops of the
trains in four streams: odd and even direction, in the source schedule and in
the variant schedule. From those it derives six speeds per (date, area). It
adds a "MainWay" record per date for the areas flagged as the main route. It
can roll the records up over a decade of the dominant month, over the whole
month (the "Итог за месяц" pseudo-date) and over the whole road. It masks the
figures whose flags are off, and writes them out as a semicolon-separated
table and as one spreadsheet sheet per schedule.

The model keeps the processor's data structure. It is a dictionary from date
key to a dictionary from area name to six speeds. Both levels are
insertion-ordered (`OrdMap`: the enumeration order plus the map), because
`data.First()` and every `foreach` over the keys depend on that order.
`double` is modelled as `real`.

Modules, one per file:

- `OrderedMaps` (ordered_maps.dfy): insertion-ordered dictionaries.
- `Sorting` (sorting.dfy): `OrderBy` over distinct keys, and ordinal string order.
- `Calendar` (calendar.dfy): date keys and the Gregorian month lengths.
- `Speed` (speed.dfy): record speeds, the speed-as-proxy rollup arithmetic, and `Math.Round(x, 1)`.
- `Dataset` (dataset.dfy): the two-level dataset.
- `Extraction` and `ExtractionProperties` (extraction.dfy): `ParseXmlData` and what it promises.
- `Selections` (selection.dfy): the output flags and the masking of `FillData`.
- `Periods` (periods.dfy): `GetTargetMonth` and `GetDatesForDecade`.
- `Rollups` (rollups.dfy): `ProcessDecade`, the month summary table and `AddAllRoad`.
- `Processor` (processor.dfy): the in-place steps `FillData` and `AddMonthlySummary`, and the three decade steps, on a `DataTable` object.
- `Report` (report.dfy): `SaveToCsv`.
- `Sheets` (sheet.dfy): `SaveToExcel`, `FillSheet`, `CreateHeader` and `FillDataRows`.

The loops of the source are methods with loop invariants. Each is proved equal
to a specification function, and the source's promises are proved as lemmas
about those functions.

Behaviour of the code worth knowing:

- A later cell for the same (date, area) replaces the earlier one. The sums restart for every cell and the record is assigned, not added.
- The rollups' directional figure is `hours > 0 ? round1(km / hours) : 0`. Their combined figure divides by 1 when the hours sum is not positive, and is not rounded.
- `AddMonthlySummary` uses `Dictionary.Add`. A second call fails instead of overwriting.
- `AddAllRoad` counts the rows of the month summary when it is present.
- The decade steps fail once the summary key is present, because `DateTime.Parse` rejects it.

## Model

| member | source | states |
|---|---|---|
| OrderedMaps.OrdMap.Put | XMLtoCSV-Excel/Class1.cs:364 | `d[k] = v` overwrites a present key in its place and appends a new key at the end; it keeps the map well-formed |
| OrderedMaps.GetPut | XMLtoCSV-Excel/Class1.cs:566 | after `d[k] = v`, `TryGetValue` finds v under k and the earlier result under every other key; `Dataset.Lookup` reads records through it |
| OrderedMaps.PutPut | XMLtoCSV-Excel/Class1.cs:364 | two writes to one key leave only the second value, in the first write's place |
| Sorting.SortCorrect | XMLtoCSV-Excel/Class1.cs:167 | `OrderBy` over distinct keys returns the same keys (a permutation) in strictly ascending order |
| Sorting.SortKeeps | XMLtoCSV-Excel/Class1.cs:224 | sorting neither drops nor adds an element, whatever the order |
| Sorting.InsertCorrect | XMLtoCSV-Excel/Class1.cs:541 | inserting a new key into a sorted list keeps it sorted and adds exactly that key |
| Sorting.StrLessIsStrictTotalOrder | XMLtoCSV-Excel/Class1.cs:224 | ordinal string order is irreflexive, transitive and total on distinct strings |
| Calendar.BeforeIsStrictTotalOrder | XMLtoCSV-Excel/Class1.cs:229 | the order of the date keys (chronological, summary label last) is a strict total order |
| Calendar.FebruaryLength | XMLtoCSV-Excel/Class1.cs:511 | February has 29 days exactly in Gregorian leap years (1900: 28, 2000: 29) |
| Dataset.Put2 | XMLtoCSV-Excel/Class1.cs:302-306 | `t[k][a] = v` (creating the inner dictionary first) stores v at (k, a), adds no other date, and keeps both levels well-formed |
| Dataset.LookupPut2 | XMLtoCSV-Excel/Class1.cs:364 | a write to (k, a) changes no other (date, area) record |
| Dataset.Put2Put2 | XMLtoCSV-Excel/Class1.cs:364 | of two writes to one (date, area) the second remains |
| Dataset.Put2AfterEmpty | XMLtoCSV-Excel/Class1.cs:302-303 | creating an empty inner dictionary before the first write changes nothing |
| Speed.AverageSpeedClamp | XMLtoCSV-Excel/Class1.cs:365-369 | `km / Math.Max(hours, 1)`: below one hour the kilometres are the speed; from one hour on, speed times hours gives the kilometres; non-negative inputs give a speed between 0 and km |
| Speed.PooledSpeedWithoutHours | XMLtoCSV-Excel/Class1.cs:356-362 | with no hours in either direction the combined speed is exactly 0, while each directional speed equals its kilometres |
| Speed.PooledSpeedBetween | XMLtoCSV-Excel/Class1.cs:356-358 | with at least an hour each way, the pooled combined speed lies between the two directional speeds |
| Speed.PooledIsNotMean | XMLtoCSV-Excel/Class1.cs:356-358 | 100 km in 2 h and 10 km in 1 h combine to 110/3, not the mean 30 |
| Speed.RecordOfNonNegative | XMLtoCSV-Excel/Class1.cs:356-371 | all six speeds of a record are non-negative for non-negative kilometres and hours |
| Speed.Round1Near | XMLtoCSV-Excel/Class1.cs:582-586 | `Math.Round(x, 1)` gives a value with one decimal, within 0.05 of x, and non-negative for non-negative x |
| Speed.Round1OfTenths | XMLtoCSV-Excel/Class1.cs:75-80 | a value with one decimal is left unchanged by rounding |
| Speed.Round1Idempotent | XMLtoCSV-Excel/Class1.cs:75-80 | rounding twice is rounding once |
| Speed.NearestIntNear | XMLtoCSV-Excel/Class1.cs:582 | the nearest integer is within 1/2, non-negative for non-negative input, and exact on integers |
| Speed.ProxySumsPlus | XMLtoCSV-Excel/Class1.cs:568-578 | adding a record's proxies (s², s) keeps every kilometre sum non-negative |
| Speed.ProxyOfOneSpeed | XMLtoCSV-Excel/Class1.cs:582-583 | over one positive daily speed s, a rollup's directional figure is round1(s) and the whole-road figure is s |
| Speed.RollupNonNegative | XMLtoCSV-Excel/Class1.cs:582-592 | rollup and whole-road figures are never negative, whatever the sign of the daily speeds |
| Speed.TwoDayRollupExample | XMLtoCSV-Excel/Class1.cs:568-582 | days at 10 and 20 km/h roll up to 16.7, the speed-weighted mean |
| Extraction.AccumulateSections | XMLtoCSV-Excel/Class1.cs:320-327 | the `+=` loop over a stream's sections returns the sum of their kilometres and hours |
| Extraction.StoreCell | XMLtoCSV-Excel/Class1.cs:300-386 | one dated cell stores its raw totals at (date, area) and its record is the speeds of those totals; the placeholders it writes first leave no trace |
| Extraction.StoreArea | XMLtoCSV-Excel/Class1.cs:284-387 | the cells of one area are stored in document order, each cell's totals assigned to its (date, area) |
| Extraction.StoreAreas | XMLtoCSV-Excel/Class1.cs:279-388 | the first pass visits every named area and every dated cell; the speed table is the raw table turned into speeds |
| Extraction.StoreMainWay | XMLtoCSV-Excel/Class1.cs:397-455 | on one date, the MainWay record is written exactly when some area is flagged, and it is the speeds of the summed raw figures of the flagged areas |
| Extraction.StoreMainWays | XMLtoCSV-Excel/Class1.cs:391-456 | the second pass adds the MainWay record of every date, in date order |
| Extraction.ParseXmlData | XMLtoCSV-Excel/Class1.cs:274-460 | the result is the parsed table; both levels are well-formed and every key is a calendar day |
| Extraction.PlaceholderVanishes | XMLtoCSV-Excel/Class1.cs:302-306 | the empty dictionary and the zero record written before a record disappear under it |
| Extraction.AddCells | XMLtoCSV-Excel/Class1.cs:284-387 | storing an area's cells keeps the table well-formed, keeps its keys calendar days, and never drops or reorders a date |
| Extraction.AddAreas | XMLtoCSV-Excel/Class1.cs:279-388 | the raw table of the whole input is well-formed and has only calendar-day keys |
| Extraction.ToSpeeds | XMLtoCSV-Excel/Class1.cs:364-371 | turning raw totals into speeds keeps both levels' keys and their order |
| Extraction.WithMainWay | XMLtoCSV-Excel/Class1.cs:391-456 | the MainWay pass adds no date and keeps the table well-formed |
| Extraction.ToSpeedsPut2 | XMLtoCSV-Excel/Class1.cs:364-386 | storing raw totals and then deriving speeds is storing the speeds of those totals |
| ExtractionProperties.RawIsLastCell | XMLtoCSV-Excel/Class1.cs:310-386 | the raw figures kept for (date, area) are those of the last cell for that pair |
| ExtractionProperties.RecordIsLastCell | XMLtoCSV-Excel/Class1.cs:310-371 | each ordinary (date, area) record is the six speeds of the last cell for that pair, and there is one exactly when some cell supplied it |
| ExtractionProperties.MainWayOfDate | XMLtoCSV-Excel/Class1.cs:391-453 | a date has a MainWay record exactly when one of its areas is flagged, and it is the speeds of the summed raw figures of the flagged areas |
| ExtractionProperties.MainWayPresence | XMLtoCSV-Excel/Class1.cs:412 | the MainWay sum exists exactly when some listed area is flagged |
| ExtractionProperties.MainWayIgnoresUnflagged | XMLtoCSV-Excel/Class1.cs:412-431 | an unflagged area's figures never change the MainWay sum |
| ExtractionProperties.MainWayFlagIsFirst | XMLtoCSV-Excel/Class1.cs:404-407 | an area's flag is the `IsMainWay` of the first `Area` element with its name |
| ExtractionProperties.LastForAppend | XMLtoCSV-Excel/Class1.cs:364 | the last cell for a pair in a longer document is the later part's, if it has one |
| ExtractionProperties.MainRouteOfTwo | XMLtoCSV-Excel/Class1.cs:391-453 | with one flagged and one unflagged single-cell area on a date, MainWay is the flagged area's record alone and the other keeps its own |
| ExtractionProperties.SampleMainRoute | XMLtoCSV-Excel/Class1.cs:356-453 | 100 km in 2 h (flagged) and 60 km in 3 h (unflagged) give MainWay 50 km/h, not a blend, and the second area 20 km/h |
| Selections.MaskedFields | XMLtoCSV-Excel/Class1.cs:472-477 | each figure kept by `FillData` is the original when its flags are on and 0 otherwise |
| Selections.MaskedGating | XMLtoCSV-Excel/Class1.cs:472-477 | a non-zero figure survives exactly when its direction flag is on and, for a variant figure, the variant flag too |
| Selections.MaskIdempotent | XMLtoCSV-Excel/Class1.cs:472-479 | masking twice is masking once, and the source flag changes nothing |
| Selections.MaskAllOn | XMLtoCSV-Excel/Class1.cs:472-477 | with every direction flag and the variant flag on, nothing is zeroed |
| Selections.MaskDataNested | XMLtoCSV-Excel/Class1.cs:466-481 | masking keeps both levels well-formed and every (date, area) present, its record masked |
| Selections.MaskDay | XMLtoCSV-Excel/Class1.cs:468-480 | one day masked keeps its areas and their order, each record masked |
| Selections.MaskData | XMLtoCSV-Excel/Class1.cs:466-481 | the masked dataset keeps its dates and their order, each day masked |
| Periods.MonthGroupsOrder | XMLtoCSV-Excel/Class1.cs:522-525 | the month groups are exactly the months of the keys, in order of first appearance |
| Periods.BusiestIsLargest | XMLtoCSV-Excel/Class1.cs:527 | no group has more keys than the chosen one |
| Periods.BusiestIsFirst | XMLtoCSV-Excel/Class1.cs:527 | of the groups tied for the most keys the first is chosen (the sort is stable) |
| Periods.TargetMonth | XMLtoCSV-Excel/Class1.cs:519-528 | the dominant month, when there is one, is a valid (year, month) |
| Periods.TargetMonthIsDominant | XMLtoCSV-Excel/Class1.cs:519-528 | the chosen month occurs among the keys, no month has more keys, and of tied months the first to appear wins |
| Periods.TargetMonthFails | XMLtoCSV-Excel/Class1.cs:523 | `GetTargetMonth` fails exactly when the summary pseudo-date is a key |
| Periods.MatchingMembers | XMLtoCSV-Excel/Class1.cs:540 | the filter keeps exactly the keys of the month within the day range, each once |
| Periods.DecadeDates | XMLtoCSV-Excel/Class1.cs:532-543 | the decade list is exactly the keys of the month within the day range, in ascending order; it fails exactly when the summary key is present |
| Periods.DecadesCoverMonth | XMLtoCSV-Excel/Class1.cs:491-512 | every calendar day lies in exactly one of days 1-10, 11-20 and 21 to the month's end |
| Rollups.ProcessDecade | XMLtoCSV-Excel/Class1.cs:546-598 | the loop over the first date's areas and the listed dates returns the rollup table |
| Rollups.RollupShape | XMLtoCSV-Excel/Class1.cs:552-594 | the table lists exactly the first date's areas in order; each area holds the rollup of its records on the dates, never negative |
| Rollups.ProxyTotalAppend | XMLtoCSV-Excel/Class1.cs:563-580 | the sums over two lists of dates are the two sums added |
| Rollups.RollupOfAbsentArea | XMLtoCSV-Excel/Class1.cs:563-592 | an area with no record on the dates rolls up to all zeros |
| Rollups.RollupOfOneDate | XMLtoCSV-Excel/Class1.cs:563-586 | over one date, each of the four directional speeds comes back rounded to one decimal when positive, and a speed that is not positive gives 0 |
| Rollups.RollupOfTwoDates | XMLtoCSV-Excel/Class1.cs:563-582 | days at 10 and 20 km/h roll up to 16.7, not 15 |
| Rollups.AddAllRoad | XMLtoCSV-Excel/Class1.cs:660-711 | the loop over every date and area returns the whole-road figures |
| Rollups.AllRoadNonNegative | XMLtoCSV-Excel/Class1.cs:697-707 | the whole-road figures are never negative; a directional stream whose hours sum to 0 gives 0 |
| Rollups.AllRoadIgnoresMainWay | XMLtoCSV-Excel/Class1.cs:674-675 | storing a MainWay record leaves the whole-road figures as they were |
| Rollups.AllRoadCountsSummary | XMLtoCSV-Excel/Class1.cs:670-693 | once the month summary is added, its rows are summed with the rest |
| Rollups.AllRoadOfOneRecord | XMLtoCSV-Excel/Class1.cs:697-704 | one record on one date gives back each of its four directional speeds exactly, unrounded, when positive, and 0 when not |
| Rollups.ProxyTotal | XMLtoCSV-Excel/Class1.cs:563-580 | the proxy kilometre sums are never negative |
| Processor.MaskDayInPlace | XMLtoCSV-Excel/Class1.cs:468-480 | masking one inner dictionary area by area gives the masked day |
| Processor.FillData | XMLtoCSV-Excel/Class1.cs:463-484 | the dataset becomes its masked value, with the same keys in the same order, and stays well-formed |
| Processor.AddMonthlySummary | XMLtoCSV-Excel/Class1.cs:600-652 | it succeeds exactly when the summary key is absent; then it adds that key at the end with the rollup over all dates; otherwise nothing changes |
| Processor.SummaryAddsOneKey | XMLtoCSV-Excel/Class1.cs:600-651 | the summary adds exactly one key, at the end, leaves every earlier date as it was, and lists the first date's areas |
| Processor.DecadesAfterSummaryFail | XMLtoCSV-Excel/Class1.cs:522-525 | once the summary key is present, `GetTargetMonth` fails |
| Processor.DecadeTableMeaning | XMLtoCSV-Excel/Class1.cs:488-598 | a decade table exists exactly when the summary key is absent; it lists the first date's areas, each rolled up over exactly the sorted dates of the dominant month within the decade |
| Processor.FillDecade | XMLtoCSV-Excel/Class1.cs:508-513 | the shared decade body: the target month once, the decade's day range in it (day 21 to the month's length for the third), the decade dates, then the rollup; it fails where a key is not a date |
| Processor.FillFirstDecade | XMLtoCSV-Excel/Class1.cs:488-495 | days 1-10; the result is the decade table and the dataset is not modified |
| Processor.FillSecondDecade | XMLtoCSV-Excel/Class1.cs:498-505 | days 11-20; the result is the decade table and the dataset is not modified |
| Processor.FillThirdDecade | XMLtoCSV-Excel/Class1.cs:508-516 | day 21 to the month's length; the result is the decade table and the dataset is not modified |
| Report.WriteRecord | XMLtoCSV-Excel/Class1.cs:73-80 | the six guarded lines of one record, in fixed metric order |
| Report.WriteDay | XMLtoCSV-Excel/Class1.cs:71-81 | one date's areas, in insertion order |
| Report.SaveToCsv | XMLtoCSV-Excel/Class1.cs:62-86 | the heading, then the lines of every date and area in insertion order |
| Report.ThreeLines | XMLtoCSV-Excel/Class1.cs:75-77 | three guarded lines write exactly the enabled metrics' lines, in order |
| Report.MetricRowsAppend | XMLtoCSV-Excel/Class1.cs:75-80 | the lines of two metric lists are those of each list, concatenated |
| Report.CsvRowsSound | XMLtoCSV-Excel/Class1.cs:69-80 | every line names a present (date, area) and an enabled metric, with that figure rounded |
| Report.CsvRowsComplete | XMLtoCSV-Excel/Class1.cs:69-80 | every enabled metric of every present record has its line |
| Report.DayRowsComplete | XMLtoCSV-Excel/Class1.cs:71-80 | every enabled metric of every listed area of a date has its line |
| Report.RecordRowsComplete | XMLtoCSV-Excel/Class1.cs:75-80 | every enabled metric has its line |
| Report.CsvIgnoresMasking | XMLtoCSV-Excel/Class1.cs:69-80 | with the same flags, the text table after `FillData` equals the one before: every zeroed figure is one it omits |
| Sheets.SheetMetricsMeaning | XMLtoCSV-Excel/Class1.cs:238-255 | a sheet shows a figure exactly when its direction flag is on and it is of the sheet's kind, ordered combined, odd, even; the block width is the number of direction flags on |
| Sheets.ColumnsCount | XMLtoCSV-Excel/Class1.cs:169-172 | the block width is the number of figures shown |
| Sheets.WriteSubLabels | XMLtoCSV-Excel/Class1.cs:183-198 | the captions of the shown figures, in consecutive row-2 columns from `subCol` |
| Sheets.WriteDate | XMLtoCSV-Excel/Class1.cs:169-200 | a date with no figure is skipped; otherwise its span and captions start at the column after `column`, which moves by the block width |
| Sheets.CreateHeader | XMLtoCSV-Excel/Class1.cs:155-211 | the header cells are the area caption then every date's block, in ascending order; the last column is 1 + dates·k |
| Sheets.CaptionsAt | XMLtoCSV-Excel/Class1.cs:183-198 | caption j names figure j and sits in column start + j |
| Sheets.DateBlocksLength | XMLtoCSV-Excel/Class1.cs:167-200 | each date adds k + 1 header cells |
| Sheets.SpanAt | XMLtoCSV-Excel/Class1.cs:177-179 | date i spans row-1 columns 2 + i·k through 1 + (i+1)·k |
| Sheets.CaptionAt | XMLtoCSV-Excel/Class1.cs:183-198 | caption j under date i is in column 2 + i·k + j |
| Sheets.HeaderDates | XMLtoCSV-Excel/Class1.cs:163-200 | the dates appear each once in strictly ascending order after the area caption; with k = 0 no date is produced; with k > 0 there are 1 + dates·(k+1) cells |
| Sheets.HeaderLayout | XMLtoCSV-Excel/Class1.cs:167-200 | with k > 0, date i spans columns 2 + i·k to 1 + (i+1)·k, right after the previous date; column 2 + i·k + j of row 2 names the j-th figure |
| Sheets.WriteFigures | XMLtoCSV-Excel/Class1.cs:238-255 | a record's shown figures, rounded, in consecutive columns from `column` |
| Sheets.WriteRecordCells | XMLtoCSV-Excel/Class1.cs:233-261 | the figures, then a merge of their columns when there are at least two |
| Sheets.WriteAreaRow | XMLtoCSV-Excel/Class1.cs:227-268 | one area's row over the dates in ascending order, a date without a record skipped without moving the column |
| Sheets.WriteRows | XMLtoCSV-Excel/Class1.cs:222-270 | one row per area from row 3, each starting with the area name |
| Sheets.FillDataRows | XMLtoCSV-Excel/Class1.cs:213-271 | the rows of every area of the first date in ascending order over all dates in ascending order; the next row is 3 + areas |
| Sheets.PresentBounds | XMLtoCSV-Excel/Class1.cs:231 | the count of earlier dates with a record is at most the number of dates, and equal exactly when none is missing |
| Sheets.FiguresHave | XMLtoCSV-Excel/Class1.cs:238-255 | figure j of a record is in column start + j |
| Sheets.RecordInRow | XMLtoCSV-Excel/Class1.cs:229-255 | figure j of date i's record is in column 2 + p·k + j, p counting the earlier dates that have a record |
| Sheets.AreaCellsLength | XMLtoCSV-Excel/Class1.cs:229-261 | a row holds one record per date that has one and nothing for the others |
| Sheets.RecordUnderItsCaption | XMLtoCSV-Excel/Class1.cs:163-255 | when no earlier date is missing, figure j of date i lands in column 2 + i·k + j, the column the header captions with figure j under date i |
| Sheets.RecordShiftedLeft | XMLtoCSV-Excel/Class1.cs:231 | when an earlier date is missing, date i's record starts under an earlier date's span, left of date i's own columns |
| Sheets.SheetAreasSorted | XMLtoCSV-Excel/Class1.cs:224 | the rows are the first date's areas, each once, in strictly ascending order |
| Sheets.RowsLayout | XMLtoCSV-Excel/Class1.cs:222-270 | area a's name is in column 1 of row 3 + a, and its figure j on date i is in that row, column 2 + p·k + j |
| Sheets.FillSheet | XMLtoCSV-Excel/Class1.cs:119-144 | a sheet is the header over the dataset's dates followed by the data rows |
| Sheets.SaveToExcel | XMLtoCSV-Excel/Class1.cs:89-117 | a "Source" sheet when the source flag is on, then a "Variant" sheet when the variant flag is on |
| Sheets.WorkbookSheets | XMLtoCSV-Excel/Class1.cs:101-112 | one sheet per flag that is on, in that order; the source and variant flags decide only which sheets exist, never their contents |

## Left out

- XML loading and traversal, `double.Parse` and date parsing. The input is the list of `Area` elements with name, flag, cells, parsed date (or none) and section figures already extracted. A cell without a parsable date is modelled as having no date.
- `CellInformation` of a dated cell in a named area is required to be present (`Extraction.CellsOk`). The processor dereferences it without a check.
- `data.First()` and `.First()` in `GetTargetMonth` throw on an empty dataset. Non-emptiness is a precondition.
- Floating point (overflow, NaN, binary rounding): `double` is `real`. `Math.Round(x, 1)` is modelled with round-half-to-even on exact reals.
- Culture-aware string ordering: `OrderBy` over area names is modelled as ordinal order (`Sorting.StrLess`).
- Date keys are `Date(year, month, day)` or the summary pseudo-date, not the `yyyy-MM-dd` strings. Their order is chronological with the summary last, as the text order is for four-digit years. `DateTime.Parse` failing on the summary key is modelled as `None`.
- The text formatting of CSV lines and the number text are left out. A line is modelled as its four fields. File and console output are left out.
- Spreadsheet styling, column widths, `AutoFitColumns`, `SaveAs`, sheet clearing and `RemoveAllMergedCells` are left out. A merge is recorded as a cell record, not applied. The exception wrapping in `FillSheet` and `FillDataRows` is left out.
- `ProcessXmlToCsvAndExcel`, the orchestration, is left out. Lines 42-43 declare a variable as the body of an `if`, which C# rejects. The flags `isMainWaySelected` and `isDailyIndicatorsSelected` are never read.
- `FillMainWay` is an empty stub.
- Aliasing of the inner dictionaries is not modelled. The model holds values, so `DataTable` owns its days.
- Processor.FillFirstDecade: the source discards the table; the model returns it so that its contract can say what was computed. The same holds for Processor.FillSecondDecade and Processor.FillThirdDecade.
- Sheets.SaveToExcel: with both sheet flags off, the workbook is empty, and the library's behaviour on saving it is not modelled.
