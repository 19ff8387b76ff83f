/** The steps of `XmlProcessor` that take the dataset dictionary and work on
    it in place (`FillData`, `AddMonthlySummary`) or read it to build a
    decade table (`FillFirstDecade`, `FillSecondDecade`, `FillThirdDecade`). */
module Processor {
  import opened OrderedMaps
  import opened Sorting
  import opened Speed
  import opened Calendar
  import opened Dataset
  import opened Periods
  import opened Rollups
  import opened Selections

  /** The outer dataset dictionary, a mutable object handed to each step. */
  class DataTable {
    var keys: seq<DateKey>
    var days: map<DateKey, Day>

    function Value(): Data
      reads this
    {
      OrdMap(keys, days)
    }

    ghost predicate Valid()
      reads this
    {
      Nested(Value())
    }

    constructor (data: Data)
      ensures Value() == data
      ensures Valid() <==> Nested(data)
    {
      keys := data.keys;
      days := data.vals;
    }
  }

  // ---------------------------------------------------------------------------
  // FillData
  // ---------------------------------------------------------------------------

  /** Masks one inner dictionary in place, area by area. */
  method MaskDayInPlace(day: Day, sel: Selection) returns (r: Day)
    requires day.Valid()
    ensures r == MaskDay(day, sel)
  {
    r := day;
    var names := day.keys;
    for j := 0 to |names|
      invariant r.keys == day.keys && r.vals.Keys == day.vals.Keys
      invariant forall l :: 0 <= l < j ==> r.vals[names[l]] == Masked(day.vals[names[l]], sel)
      invariant forall l :: j <= l < |names| ==> r.vals[names[l]] == day.vals[names[l]]
    {
      var a := names[j];
      assert forall l :: j < l < |names| ==> names[l] != a;
      r := r.Put(a, Masked(r.vals[a], sel));
    }
    EveryAreaMasked(day, r.vals, sel);
  }

  lemma EveryAreaMasked(day: Day, vals: map<string, Speeds>, sel: Selection)
    requires day.Valid() && vals.Keys == day.vals.Keys
    requires forall l :: 0 <= l < |day.keys| ==> vals[day.keys[l]] == Masked(day.vals[day.keys[l]], sel)
    ensures vals == MaskDay(day, sel).vals
  {
    forall a | a in vals ensures vals[a] == Masked(day.vals[a], sel) {
      var l :| 0 <= l < |day.keys| && day.keys[l] == a;
    }
  }

  /** `FillData`: every record of every date has its disabled figures set to 0;
      no key is added, removed or moved. */
  method FillData(data: DataTable, sel: Selection)
    requires data.Valid()
    modifies data
    ensures data.Value() == MaskData(old(data.Value()), sel)
    ensures data.Valid()
  {
    ghost var d := data.Value();
    var dates := data.keys;
    for i := 0 to |dates|
      invariant data.keys == d.keys && data.days.Keys == d.vals.Keys
      invariant forall l :: 0 <= l < i ==> data.days[dates[l]] == MaskDay(d.vals[dates[l]], sel)
      invariant forall l :: i <= l < |dates| ==> data.days[dates[l]] == d.vals[dates[l]]
    {
      var k := dates[i];
      var day := MaskDayInPlace(data.days[k], sel);
      data.days := data.days[k := day];
    }
    EveryDateMasked(d, data.days, sel);
    MaskDataNested(d, sel);
  }

  lemma EveryDateMasked(d: Data, days: map<DateKey, Day>, sel: Selection)
    requires d.Valid() && days.Keys == d.vals.Keys
    requires forall l :: 0 <= l < |d.keys| ==> days[d.keys[l]] == MaskDay(d.vals[d.keys[l]], sel)
    ensures days == MaskData(d, sel).vals
  {
    forall k | k in days ensures days[k] == MaskDay(d.vals[k], sel) {
      var l :| 0 <= l < |d.keys| && d.keys[l] == k;
    }
  }

  // ---------------------------------------------------------------------------
  // AddMonthlySummary
  // ---------------------------------------------------------------------------

  /** `AddMonthlySummary`: the rollup of every area of the first date over all
      dates, added under the summary key.  `Dictionary.Add` throws when the key
      is already present; that is the `false` outcome, which changes nothing. */
  method AddMonthlySummary(data: DataTable) returns (ok: bool)
    requires data.Valid() && data.keys != []
    modifies data
    ensures ok <==> MonthSummary !in old(data.days)
    ensures ok ==> data.Value() == old(data.Value()).Put(MonthSummary, Rollup(old(data.Value()), old(data.keys)))
    ensures !ok ==> data.Value() == old(data.Value())
    ensures data.Valid()
  {
    var monthlySummary := ProcessDecade(data.keys, data.Value());
    if MonthSummary in data.days {
      return false;
    }
    RollupShape(data.Value(), data.keys);
    data.keys := data.keys + [MonthSummary];
    data.days := data.days[MonthSummary := monthlySummary];
    ok := true;
  }

  /** The summary adds exactly one key, at the end, and leaves every earlier
      date's dictionary as it was; its areas are those of the first date. */
  lemma SummaryAddsOneKey(d: Data)
    requires Nested(d) && d.keys != [] && MonthSummary !in d.vals
    ensures var d' := d.Put(MonthSummary, Rollup(d, d.keys));
            && d'.keys == d.keys + [MonthSummary]
            && (forall k :: k in d.vals ==> d'.vals[k] == d.vals[k])
            && d'.vals[MonthSummary].keys == FirstDay(d).keys
            && Nested(d')
  {
    RollupShape(d, d.keys);
  }

  /** Once the summary is in, the decade steps fail: `DateTime.Parse` rejects
      the summary key, so the decades must run before it. */
  lemma DecadesAfterSummaryFail(d: Data, summary: Day)
    requires d.keys != [] && MonthSummary !in d.vals
    ensures TargetMonth(d.Put(MonthSummary, summary).keys) == None
  {
    var keys := d.Put(MonthSummary, summary).keys;
    assert keys[|keys| - 1] == MonthSummary;
  }

  // ---------------------------------------------------------------------------
  // Decades
  // ---------------------------------------------------------------------------

  /** The table a decade step computes: None when a key is not a date. */
  function DecadeTable(d: Data, decade: int): Option<Day>
    requires d.Valid() && d.keys != [] && 1 <= decade <= 3
  {
    match TargetMonth(d.keys)
    case None => None
    case Some(m) =>
      var range := DecadeRange(decade, m);
      match DatesForDecade(d.keys, m, range.0, range.1)
      case None => None
      case Some(dates) => Some(Rollup(d, dates))
  }

  /** The decade table lists the first date's areas; each row rolls up that
      area over exactly the keys of the dominant month that fall in the
      decade, taken in ascending order.  It exists exactly when the summary
      key is absent. */
  lemma DecadeTableMeaning(d: Data, decade: int)
    requires Nested(d) && d.keys != [] && 1 <= decade <= 3 && DatasetKeys(d.keys)
    ensures DecadeTable(d, decade).Some? <==> MonthSummary !in d.vals
    ensures DecadeTable(d, decade).Some? ==>
              var m := TargetMonth(d.keys).value;
              var range := DecadeRange(decade, m);
              var dates := DatesForDecade(d.keys, m, range.0, range.1).value;
              && StrictlySorted(dates, Before)
              && (forall x :: x in dates <==> x in d.keys && InPeriod(x, m, range.0, range.1))
              && DecadeTable(d, decade).value.keys == FirstDay(d).keys
              && forall a :: a in DecadeTable(d, decade).value.vals ==>
                   DecadeTable(d, decade).value.vals[a] == RollupRecord(ProxyTotal(d, dates, a))
  {
    TargetMonthFails(d.keys);
    if TargetMonth(d.keys).Some? {
      var m := TargetMonth(d.keys).value;
      var range := DecadeRange(decade, m);
      DecadeDates(d.keys, m, range.0, range.1);
      RollupShape(d, DatesForDecade(d.keys, m, range.0, range.1).value);
    }
  }

  /** The body shared by the three decade steps: the target month once, the
      decade's day range in that month (day 21 to `DateTime.DaysInMonth` for
      the third), the decade dates, then the rollup. */
  method FillDecade(data: DataTable, decade: int) returns (result: Option<Day>)
    requires data.Valid() && data.keys != [] && 1 <= decade <= 3
    ensures match TargetMonth(data.keys)
            case None => result == None
            case Some(m) =>
              var range := DecadeRange(decade, m);
              match DatesForDecade(data.keys, m, range.0, range.1)
              case None => result == None
              case Some(dates) => result == Some(Rollup(data.Value(), dates))
  {
    var targetMonth := TargetMonth(data.keys);
    if targetMonth.None? {
      return None;
    }
    var range := DecadeRange(decade, targetMonth.value);
    var dates := DatesForDecade(data.keys, targetMonth.value, range.0, range.1);
    if dates.None? {
      return None;
    }
    var table := ProcessDecade(dates.value, data.Value());
    result := Some(table);
  }

  /** `FillFirstDecade`: days 1 to 10 of the dominant month.  The table is
      computed and then dropped; the dataset is not touched. */
  method FillFirstDecade(data: DataTable) returns (result: Option<Day>)
    requires data.Valid() && data.keys != []
    ensures result == DecadeTable(data.Value(), 1)
  {
    result := FillDecade(data, 1);
  }

  /** `FillSecondDecade`: days 11 to 20 of the dominant month. */
  method FillSecondDecade(data: DataTable) returns (result: Option<Day>)
    requires data.Valid() && data.keys != []
    ensures result == DecadeTable(data.Value(), 2)
  {
    result := FillDecade(data, 2);
  }

  /** `FillThirdDecade`: day 21 to the last day of the dominant month. */
  method FillThirdDecade(data: DataTable) returns (result: Option<Day>)
    requires data.Valid() && data.keys != []
    ensures result == DecadeTable(data.Value(), 3)
  {
    result := FillDecade(data, 3);
  }
}
