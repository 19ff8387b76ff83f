/** Rollups over several dates: the per-area decade and month-summary tables
    (`ProcessDecade`, the body of `AddMonthlySummary`) and the whole-road
    totals (`AddAllRoad`).  Each daily speed s enters as s*s "kilometres"
    over s "hours", so a rollup is a speed-weighted mean of daily speeds. */
module Rollups {
  import opened OrderedMaps
  import opened Speed
  import opened Calendar
  import opened Dataset

  // ---------------------------------------------------------------------------
  // Per-area rollup (decades and month summary)
  // ---------------------------------------------------------------------------

  /** The proxy sums of one area over the listed dates, in list order; a date
      absent from the data, or a day without the area, adds nothing. */
  function ProxyTotal(data: Data, dates: seq<DateKey>, area: string): (r: Raw)
    ensures ProxySums(r)
  {
    if dates == [] then NoRaw
    else
      var acc := ProxyTotal(data, dates[..|dates| - 1], area);
      match Lookup(data, dates[|dates| - 1], area)
      case None => acc
      case Some(rec) => ProxySumsPlus(acc, rec); acc.Plus(ProxyOf(rec))
  }

  /** One rollup record per listed area, in list order. */
  function RollupOver(data: Data, dates: seq<DateKey>, areas: seq<string>): Day {
    if areas == [] then Empty()
    else
      var area := areas[|areas| - 1];
      RollupOver(data, dates, areas[..|areas| - 1]).Put(area, RollupRecord(ProxyTotal(data, dates, area)))
  }

  /** `data.First().Value`: the first day in insertion order. */
  function FirstDay(data: Data): Day
    requires data.Valid() && data.keys != []
  {
    data.vals[data.keys[0]]
  }

  /** The table `ProcessDecade` returns: the areas of the first day, each with
      the rollup of its records on the given dates. */
  function Rollup(data: Data, dates: seq<DateKey>): Day
    requires data.Valid() && data.keys != []
  {
    RollupOver(data, dates, FirstDay(data).keys)
  }

  /** `ProcessDecade`: for each area of the first day, sum the proxies of its
      records on the dates and store the rolled-up record. */
  method ProcessDecade(dates: seq<DateKey>, data: Data) returns (aggregated: Day)
    requires data.Valid() && data.keys != []
    ensures aggregated == Rollup(data, dates)
  {
    var areas := FirstDay(data).keys;
    aggregated := Empty();
    for i := 0 to |areas|
      invariant aggregated == RollupOver(data, dates, areas[..i])
    {
      var area := areas[i];
      var sums := NoRaw;
      for j := 0 to |dates|
        invariant sums == ProxyTotal(data, dates[..j], area)
      {
        var date := dates[j];
        if date in data.vals && area in data.vals[date].vals {
          var values := data.vals[date].vals[area];
          sums := sums.Plus(ProxyOf(values));
        }
        assert dates[..j + 1][..j] == dates[..j];
      }
      assert dates[..|dates|] == dates;
      aggregated := aggregated.Put(area, RollupRecord(sums));
      assert areas[..i + 1][..i] == areas[..i];
    }
    assert areas[..|areas|] == areas;
  }

  // ---------------------------------------------------------------------------
  // Properties of the per-area rollup
  // ---------------------------------------------------------------------------

  lemma {:induction false} RollupOverKeys(data: Data, dates: seq<DateKey>, areas: seq<string>)
    requires forall i, j :: 0 <= i < j < |areas| ==> areas[i] != areas[j]
    ensures RollupOver(data, dates, areas).keys == areas
    ensures RollupOver(data, dates, areas).Valid()
  {
    if areas != [] {
      var pre, area := areas[..|areas| - 1], areas[|areas| - 1];
      RollupOverKeys(data, dates, pre);
      var t := RollupOver(data, dates, pre);
      assert area !in t.vals by {
        assert forall i :: 0 <= i < |pre| ==> pre[i] != area;
      }
      assert pre + [area] == areas;
    }
  }

  lemma {:induction false} RollupOverValues(data: Data, dates: seq<DateKey>, areas: seq<string>)
    ensures forall a :: a in RollupOver(data, dates, areas).vals ==>
              RollupOver(data, dates, areas).vals[a] == RollupRecord(ProxyTotal(data, dates, a))
  {
    if areas != [] {
      RollupOverValues(data, dates, areas[..|areas| - 1]);
    }
  }

  /** The rolled-up table lists exactly the first day's areas, in the same
      order, and stores for each the rollup of that area's records on the
      dates; its figures are never negative. */
  lemma RollupShape(data: Data, dates: seq<DateKey>)
    requires Nested(data) && data.keys != []
    ensures Rollup(data, dates).keys == FirstDay(data).keys
    ensures Rollup(data, dates).Valid()
    ensures forall a :: a in Rollup(data, dates).vals ==>
              && Rollup(data, dates).vals[a] == RollupRecord(ProxyTotal(data, dates, a))
              && NonNegativeSpeeds(Rollup(data, dates).vals[a])
  {
    assert data.keys[0] in data.vals;
    RollupOverKeys(data, dates, FirstDay(data).keys);
    RollupOverValues(data, dates, FirstDay(data).keys);
    forall a | a in Rollup(data, dates).vals
      ensures NonNegativeSpeeds(Rollup(data, dates).vals[a])
    {
      RollupNonNegative(ProxyTotal(data, dates, a));
    }
  }

  /** The sums over two lists of dates are the sums over each list, added. */
  lemma {:induction false} ProxyTotalAppend(data: Data, xs: seq<DateKey>, ys: seq<DateKey>, area: string)
    ensures ProxyTotal(data, xs + ys, area) == ProxyTotal(data, xs, area).Plus(ProxyTotal(data, ys, area))
  {
    if ys == [] {
      assert xs + ys == xs;
      PlusNoRaw(ProxyTotal(data, xs, area));
    } else {
      var pre, k := ys[..|ys| - 1], ys[|ys| - 1];
      ProxyTotalAppend(data, xs, pre, area);
      assert (xs + ys)[..|xs + ys| - 1] == xs + pre;
      assert (xs + ys)[|xs + ys| - 1] == k;
      var a, b := ProxyTotal(data, xs, area), ProxyTotal(data, pre, area);
      match Lookup(data, k, area)
      case None =>
      case Some(rec) =>
        assert ProxyTotal(data, xs + ys, area) == a.Plus(b).Plus(ProxyOf(rec));
        PlusAssociative(a, b, ProxyOf(rec));
    }
  }

  /** An area that has no record on any of the dates rolls up to all zeros. */
  lemma {:induction false} RollupOfAbsentArea(data: Data, dates: seq<DateKey>, area: string)
    requires forall k :: k in dates ==> Lookup(data, k, area) == None
    ensures RollupRecord(ProxyTotal(data, dates, area)) == ZeroSpeeds
  {
    NoRecordsNoSums(data, dates, area);
  }

  lemma {:induction false} NoRecordsNoSums(data: Data, dates: seq<DateKey>, area: string)
    requires forall k :: k in dates ==> Lookup(data, k, area) == None
    ensures ProxyTotal(data, dates, area) == NoRaw
  {
    if dates != [] {
      NoRecordsNoSums(data, dates[..|dates| - 1], area);
      assert dates[|dates| - 1] in dates;
    }
  }

  /** Over a single date the rollup gives back each positive directional
      speed rounded to one decimal, and 0 for a speed that is not positive. */
  lemma RollupOfOneDate(data: Data, k: DateKey, area: string, rec: Speeds)
    requires Lookup(data, k, area) == Some(rec)
    ensures var r := RollupRecord(ProxyTotal(data, [k], area));
            && r.oddSource == (if rec.oddSource > 0.0 then Round1(rec.oddSource) else 0.0)
            && r.evenSource == (if rec.evenSource > 0.0 then Round1(rec.evenSource) else 0.0)
            && r.oddVariant == (if rec.oddVariant > 0.0 then Round1(rec.oddVariant) else 0.0)
            && r.evenVariant == (if rec.evenVariant > 0.0 then Round1(rec.evenVariant) else 0.0)
  {
    var sums := ProxyTotal(data, [k], area);
    assert [k][..0] == [];
    assert ProxyTotal(data, [], area) == NoRaw;
    assert sums == NoRaw.Plus(ProxyOf(rec));
    if rec.oddSource > 0.0 { ProxyOfOneSpeed(rec.oddSource); }
    if rec.evenSource > 0.0 { ProxyOfOneSpeed(rec.evenSource); }
    if rec.oddVariant > 0.0 { ProxyOfOneSpeed(rec.oddVariant); }
    if rec.evenVariant > 0.0 { ProxyOfOneSpeed(rec.evenVariant); }
  }

  /** Two days at 10 and 20 km/h roll up to 16.7, the speed-weighted mean,
      not the plain mean 15. */
  lemma RollupOfTwoDates(data: Data, k1: DateKey, k2: DateKey, area: string, r1: Speeds, r2: Speeds)
    requires Lookup(data, k1, area) == Some(r1) && Lookup(data, k2, area) == Some(r2)
    requires r1.oddSource == 10.0 && r2.oddSource == 20.0
    ensures RollupRecord(ProxyTotal(data, [k1, k2], area)).oddSource == 16.7
  {
    var dates := [k1, k2];
    assert dates[..1] == [k1] && [k1][..0] == [];
    assert ProxyTotal(data, [], area) == NoRaw;
    assert ProxyTotal(data, [k1], area) == NoRaw.Plus(ProxyOf(r1));
    assert ProxyTotal(data, dates, area) == NoRaw.Plus(ProxyOf(r1)).Plus(ProxyOf(r2));
    assert ProxyTotal(data, dates, area).oddSource == NoTraffic.Plus(Proxy(10.0)).Plus(Proxy(20.0));
    TwoDayRollupExample();
  }

  // ---------------------------------------------------------------------------
  // Whole road
  // ---------------------------------------------------------------------------

  /** `acc` plus the proxies of the listed areas of one day, skipping `MainWay`. */
  function DaySums(acc: Raw, day: Day, names: seq<string>): (r: Raw)
    requires forall n :: n in names ==> n in day.vals
    ensures ProxySums(acc) ==> ProxySums(r)
  {
    if names == [] then acc
    else
      var s := DaySums(acc, day, names[..|names| - 1]);
      var n := names[|names| - 1];
      if n == MainWay then s
      else ProxySumsPlus(s, day.vals[n]); s.Plus(ProxyOf(day.vals[n]))
  }

  /** The proxy sums of every (date, area) record of the listed dates except
      the `MainWay` ones, in enumeration order. */
  function AllRoadSums(data: Data, ks: seq<DateKey>): (r: Raw)
    requires Nested(data) && forall k :: k in ks ==> k in data.vals
    ensures ProxySums(r)
  {
    if ks == [] then NoRaw
    else
      var day := data.vals[ks[|ks| - 1]];
      DaySums(AllRoadSums(data, ks[..|ks| - 1]), day, day.keys)
  }

  /** The six figures `AddAllRoad` returns. */
  function AllRoad(data: Data): Speeds
    requires Nested(data)
  {
    TotalRecord(AllRoadSums(data, data.keys))
  }

  /** `AddAllRoad`: sums every non-MainWay record of every date, the month
      summary included when present, and divides without rounding. */
  method AddAllRoad(data: Data) returns (total: Speeds)
    requires Nested(data)
    ensures total == AllRoad(data)
  {
    var sums := NoRaw;
    for i := 0 to |data.keys|
      invariant sums == AllRoadSums(data, data.keys[..i])
    {
      var day := data.vals[data.keys[i]];
      var before := sums;
      for j := 0 to |day.keys|
        invariant sums == DaySums(before, day, day.keys[..j])
      {
        var name := day.keys[j];
        if name != MainWay {
          sums := sums.Plus(ProxyOf(day.vals[name]));
        }
        assert day.keys[..j + 1][..j] == day.keys[..j];
      }
      assert day.keys[..|day.keys|] == day.keys;
      assert data.keys[..i + 1][..i] == data.keys[..i];
    }
    assert data.keys[..|data.keys|] == data.keys;
    total := TotalRecord(sums);
  }

  // ---------------------------------------------------------------------------
  // Properties of the whole-road figures
  // ---------------------------------------------------------------------------

  /** The whole-road figures are never negative, and a directional stream
      whose hours sum to 0 gives 0. */
  lemma AllRoadNonNegative(data: Data)
    requires Nested(data)
    ensures NonNegativeSpeeds(AllRoad(data))
    ensures var sums := AllRoadSums(data, data.keys);
            && (sums.oddSource.hours == 0.0 ==> AllRoad(data).oddSource == 0.0)
            && (sums.evenSource.hours == 0.0 ==> AllRoad(data).evenSource == 0.0)
            && (sums.oddVariant.hours == 0.0 ==> AllRoad(data).oddVariant == 0.0)
            && (sums.evenVariant.hours == 0.0 ==> AllRoad(data).evenVariant == 0.0)
  {
    RollupNonNegative(AllRoadSums(data, data.keys));
  }

  lemma {:induction false} DaySumsSkipsMainWay(acc: Raw, day: Day, names: seq<string>, v: Speeds)
    requires forall n :: n in names ==> n in day.vals
    ensures DaySums(acc, day.Put(MainWay, v), names) == DaySums(acc, day, names)
  {
    if names != [] {
      DaySumsSkipsMainWay(acc, day, names[..|names| - 1], v);
    }
  }

  lemma {:induction false} AllRoadSumsFrame(data: Data, data': Data, ks: seq<DateKey>)
    requires Nested(data) && Nested(data')
    requires forall k :: k in ks ==> k in data.vals && k in data'.vals && data'.vals[k] == data.vals[k]
    ensures AllRoadSums(data', ks) == AllRoadSums(data, ks)
  {
    if ks != [] {
      AllRoadSumsFrame(data, data', ks[..|ks| - 1]);
    }
  }

  /** Storing a `MainWay` record for a date leaves the whole-road figures as
      they were: the main route is never counted twice. */
  lemma {:induction false} AllRoadIgnoresMainWay(data: Data, k: DateKey, v: Speeds)
    requires Nested(data)
    ensures AllRoad(Put2(data, k, MainWay, v)) == AllRoad(data)
  {
    var data' := Put2(data, k, MainWay, v);
    AllRoadSumsWithMainWay(data, data', k, v, data.keys);
    if k !in data.vals {
      var day: Day := Empty<string, Speeds>().Put(MainWay, v);
      assert data' == data.Put(k, day);
      assert data'.keys == data.keys + [k];
      assert data'.keys[..|data'.keys| - 1] == data.keys;
      assert day.keys == [MainWay] && day.keys[..0] == [];
      assert AllRoadSums(data', data'.keys) == DaySums(AllRoadSums(data', data.keys), day, day.keys);
    }
  }

  lemma {:induction false} AllRoadSumsWithMainWay(data: Data, data': Data, k: DateKey, v: Speeds, ks: seq<DateKey>)
    requires Nested(data) && data' == Put2(data, k, MainWay, v)
    requires forall x :: x in ks ==> x in data.vals
    ensures AllRoadSums(data', ks) == AllRoadSums(data, ks)
  {
    if ks != [] {
      var pre := ks[..|ks| - 1];
      var x := ks[|ks| - 1];
      AllRoadSumsWithMainWay(data, data', k, v, pre);
      if x == k {
        var day := data.vals[k];
        DaySumsSkipsMainWay(AllRoadSums(data, pre), day, day.keys, v);
        if MainWay in day.vals {
          assert data'.vals[k].keys == day.keys;
        } else {
          var names := day.keys + [MainWay];
          assert data'.vals[k].keys == names;
          assert names[..|names| - 1] == day.keys;
        }
      }
    }
  }

  /** Once the month summary has been added, the whole-road figures count its
      rows as well: its sums are the earlier sums plus the summary's proxies. */
  lemma AllRoadCountsSummary(data: Data, summary: Day)
    requires Nested(data) && summary.Valid() && MonthSummary !in data.vals
    ensures var data' := data.Put(MonthSummary, summary);
            AllRoad(data') == TotalRecord(DaySums(AllRoadSums(data, data.keys), summary, summary.keys))
  {
    var data' := data.Put(MonthSummary, summary);
    AllRoadSumsFrame(data, data', data.keys);
    assert data'.keys[..|data'.keys| - 1] == data.keys;
  }

  /** A road of one date and one area returns that area's positive
      directional speeds exactly, without rounding, and 0 for a speed that
      is not positive. */
  lemma AllRoadOfOneRecord(k: DateKey, area: string, rec: Speeds)
    requires area != MainWay
    ensures var r := AllRoad(Put2(Empty(), k, area, rec));
            && r.oddSource == (if rec.oddSource > 0.0 then rec.oddSource else 0.0)
            && r.evenSource == (if rec.evenSource > 0.0 then rec.evenSource else 0.0)
            && r.oddVariant == (if rec.oddVariant > 0.0 then rec.oddVariant else 0.0)
            && r.evenVariant == (if rec.evenVariant > 0.0 then rec.evenVariant else 0.0)
  {
    var e: Data := Empty();
    var data := Put2(e, k, area, rec);
    var day := data.vals[k];
    assert data.keys == [k] && day.keys == [area];
    assert [k][..0] == [] && [area][..0] == [];
    assert day.vals[area] == rec;
    assert AllRoadSums(data, []) == NoRaw;
    assert DaySums(NoRaw, day, []) == NoRaw;
    assert DaySums(NoRaw, day, [area]) == NoRaw.Plus(ProxyOf(rec));
    assert AllRoadSums(data, data.keys) == NoRaw.Plus(ProxyOf(rec));
    if rec.oddSource > 0.0 { ProxyOfOneSpeed(rec.oddSource); }
    if rec.evenSource > 0.0 { ProxyOfOneSpeed(rec.evenSource); }
    if rec.oddVariant > 0.0 { ProxyOfOneSpeed(rec.oddVariant); }
    if rec.evenVariant > 0.0 { ProxyOfOneSpeed(rec.evenVariant); }
  }
}
