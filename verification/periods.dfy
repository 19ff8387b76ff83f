/** Period selection: the dominant month of the dataset (`GetTargetMonth`)
    and the dates of one decade of it (`GetDatesForDecade`).  Both are LINQ
    pipelines over the date keys, modelled as functions. */
module Periods {
  import opened OrderedMaps
  import opened Sorting
  import opened Calendar

  /** A (year, month) pair. */
  datatype Month = Month(year: int, month: int)

  function MonthOf(k: DateKey): Month
    requires k.Date?
  {
    Month(k.year, k.month)
  }

  /** `DateTime.Parse` accepts every key: each is a real calendar day. */
  predicate AllDates(keys: seq<DateKey>) {
    forall i :: 0 <= i < |keys| ==> IsCalendarDate(keys[i])
  }

  /** The keys a dataset can hold: calendar days and the summary label. */
  ghost predicate DatasetKeys(keys: seq<DateKey>) {
    forall i :: 0 <= i < |keys| ==> keys[i] == MonthSummary || IsCalendarDate(keys[i])
  }

  /** How many keys fall in month m. */
  function CountMonth(keys: seq<DateKey>, m: Month): nat
    requires AllDates(keys)
  {
    if keys == [] then 0
    else CountMonth(keys[..|keys| - 1], m) + (if MonthOf(keys[|keys| - 1]) == m then 1 else 0)
  }

  /** `GroupBy(...).ToDictionary(...)`: the months in order of first appearance. */
  function MonthGroups(keys: seq<DateKey>): (groups: seq<Month>)
    requires AllDates(keys)
    ensures keys != [] ==> groups != []
  {
    if keys == [] then []
    else
      var g := MonthGroups(keys[..|keys| - 1]);
      var m := MonthOf(keys[|keys| - 1]);
      if m in g then g else g + [m]
  }

  /** `OrderByDescending(count).First()`: the sort is stable, so among groups
      with the largest count the earliest one wins. */
  function Busiest(groups: seq<Month>, keys: seq<DateKey>): Month
    requires groups != [] && AllDates(keys)
  {
    if |groups| == 1 then groups[0]
    else
      var best := Busiest(groups[..|groups| - 1], keys);
      var m := groups[|groups| - 1];
      if CountMonth(keys, m) > CountMonth(keys, best) then m else best
  }

  /** `GetTargetMonth`: None where `DateTime.Parse` throws on a key. */
  function TargetMonth(keys: seq<DateKey>): (r: Option<Month>)
    requires keys != []
    ensures r.Some? ==> 1 <= r.value.month <= 12 && 1 <= r.value.year <= 9999
  {
    if AllDates(keys) then
      var m := Busiest(MonthGroups(keys), keys);
      MonthGroupsCover(keys);
      BusiestIsGroup(MonthGroups(keys), keys);
      assert MonthOf(keys[FirstIndex(keys, m)]) == m;
      Some(m)
    else None
  }

  // ---------------------------------------------------------------------------
  // Properties of the dominant month
  // ---------------------------------------------------------------------------

  /** The position of the first key in month m, or |keys| when there is none. */
  function FirstIndex(keys: seq<DateKey>, m: Month): (r: nat)
    requires AllDates(keys)
    ensures r <= |keys|
    ensures r < |keys| ==> MonthOf(keys[r]) == m
    ensures forall j :: 0 <= j < r && j < |keys| ==> MonthOf(keys[j]) != m
  {
    if keys == [] then 0
    else
      var pre := keys[..|keys| - 1];
      var f := FirstIndex(pre, m);
      if f < |pre| then f
      else if MonthOf(keys[|keys| - 1]) == m then |pre|
      else |keys|
  }

  /** Every month of the keys is a group, and every group occurs among the keys. */
  lemma {:induction false} MonthGroupsCover(keys: seq<DateKey>)
    requires AllDates(keys)
    ensures forall i :: 0 <= i < |keys| ==> MonthOf(keys[i]) in MonthGroups(keys)
    ensures forall p :: 0 <= p < |MonthGroups(keys)| ==> FirstIndex(keys, MonthGroups(keys)[p]) < |keys|
  {
    if keys != [] {
      var pre := keys[..|keys| - 1];
      MonthGroupsCover(pre);
      var g' := MonthGroups(pre);
      forall p | 0 <= p < |g'| ensures FirstIndex(keys, g'[p]) == FirstIndex(pre, g'[p]) {
      }
    }
  }

  /** The groups are exactly the months of the keys, listed in the order in
      which each month first appears. */
  lemma {:induction false} MonthGroupsOrder(keys: seq<DateKey>)
    requires AllDates(keys)
    ensures forall i :: 0 <= i < |keys| ==> MonthOf(keys[i]) in MonthGroups(keys)
    ensures forall p :: 0 <= p < |MonthGroups(keys)| ==> FirstIndex(keys, MonthGroups(keys)[p]) < |keys|
    ensures forall q, p :: 0 <= q < p < |MonthGroups(keys)| ==>
              FirstIndex(keys, MonthGroups(keys)[q]) < FirstIndex(keys, MonthGroups(keys)[p])
  {
    MonthGroupsCover(keys);
    if keys != [] {
      var pre := keys[..|keys| - 1];
      MonthGroupsOrder(pre);
      var g' := MonthGroups(pre);
      var g := MonthGroups(keys);
      forall p | 0 <= p < |g'| ensures FirstIndex(keys, g'[p]) == FirstIndex(pre, g'[p]) < |pre| {
      }
      if MonthOf(keys[|keys| - 1]) !in g' {
        assert FirstIndex(keys, g[|g'|]) == |pre|;
      }
    }
  }

  /** `Busiest` returns one of the groups. */
  lemma {:induction false} BusiestIsGroup(groups: seq<Month>, keys: seq<DateKey>)
    requires groups != [] && AllDates(keys)
    ensures Busiest(groups, keys) in groups
  {
    if |groups| > 1 {
      BusiestIsGroup(groups[..|groups| - 1], keys);
    }
  }

  /** No group has more keys than the one `Busiest` returns. */
  lemma {:induction false} BusiestIsLargest(groups: seq<Month>, keys: seq<DateKey>, p: nat)
    requires groups != [] && AllDates(keys) && p < |groups|
    ensures CountMonth(keys, groups[p]) <= CountMonth(keys, Busiest(groups, keys))
  {
    if |groups| > 1 && p < |groups| - 1 {
      var pre := groups[..|groups| - 1];
      BusiestIsLargest(pre, keys, p);
      assert groups[p] == pre[p];
    }
  }

  /** Every group that ties with the one `Busiest` returns comes no earlier
      than it. */
  lemma {:induction false} BusiestIsFirst(groups: seq<Month>, keys: seq<DateKey>, p: nat)
    requires groups != [] && AllDates(keys) && p < |groups|
    requires CountMonth(keys, groups[p]) == CountMonth(keys, Busiest(groups, keys))
    ensures Busiest(groups, keys) in groups[..p + 1]
  {
    var pre := groups[..|groups| - 1];
    if p == |groups| - 1 {
      BusiestIsGroup(groups, keys);
      assert groups[..p + 1] == groups;
    } else {
      var best := Busiest(pre, keys);
      assert groups[p] == pre[p];
      BusiestIsLargest(pre, keys, p);
      assert Busiest(groups, keys) == best;
      BusiestIsFirst(pre, keys, p);
      assert pre[..p + 1] == groups[..p + 1];
    }
  }

  /** `GetTargetMonth` fails exactly when the summary pseudo-date is a key. */
  lemma TargetMonthFails(keys: seq<DateKey>)
    requires keys != [] && DatasetKeys(keys)
    ensures TargetMonth(keys) == None <==> MonthSummary in keys
  {
    if MonthSummary in keys {
      var i :| 0 <= i < |keys| && keys[i] == MonthSummary;
    }
  }

  /** The dominant month occurs among the keys, no month has more keys, and
      when several months tie for the most keys the chosen one is the first of
      them to appear. */
  lemma TargetMonthIsDominant(keys: seq<DateKey>)
    requires keys != [] && AllDates(keys)
    ensures TargetMonth(keys).Some?
    ensures var m := TargetMonth(keys).value;
            && FirstIndex(keys, m) < |keys|
            && (forall i :: 0 <= i < |keys| ==> CountMonth(keys, MonthOf(keys[i])) <= CountMonth(keys, m))
            && (forall i :: 0 <= i < |keys| && CountMonth(keys, MonthOf(keys[i])) == CountMonth(keys, m) ==>
                  FirstIndex(keys, m) <= i)
  {
    var groups := MonthGroups(keys);
    var m := Busiest(groups, keys);
    MonthGroupsOrder(keys);
    BusiestIsGroup(groups, keys);
    forall i | 0 <= i < |keys| ensures CountMonth(keys, MonthOf(keys[i])) <= CountMonth(keys, m) {
      DominantAt(keys, i);
    }
    forall i | 0 <= i < |keys| && CountMonth(keys, MonthOf(keys[i])) == CountMonth(keys, m)
      ensures FirstIndex(keys, m) <= i
    {
      FirstOfTies(keys, i);
    }
  }

  lemma DominantAt(keys: seq<DateKey>, i: nat)
    requires AllDates(keys) && i < |keys|
    ensures CountMonth(keys, MonthOf(keys[i])) <= CountMonth(keys, Busiest(MonthGroups(keys), keys))
  {
    var groups := MonthGroups(keys);
    MonthGroupsOrder(keys);
    var p :| 0 <= p < |groups| && groups[p] == MonthOf(keys[i]);
    BusiestIsLargest(groups, keys, p);
  }

  lemma FirstOfTies(keys: seq<DateKey>, i: nat)
    requires AllDates(keys) && i < |keys|
    requires CountMonth(keys, MonthOf(keys[i])) == CountMonth(keys, Busiest(MonthGroups(keys), keys))
    ensures FirstIndex(keys, Busiest(MonthGroups(keys), keys)) <= i
  {
    var groups := MonthGroups(keys);
    var m := Busiest(groups, keys);
    var g := MonthOf(keys[i]);
    MonthGroupsOrder(keys);
    var p :| 0 <= p < |groups| && groups[p] == g;
    BusiestIsFirst(groups, keys, p);
    var q :| 0 <= q < p + 1 && groups[q] == m;
    assert FirstIndex(keys, g) <= i;
    assert FirstIndex(keys, m) <= FirstIndex(keys, g);
  }

  // ---------------------------------------------------------------------------
  // Decades
  // ---------------------------------------------------------------------------

  /** The day range of decade 1, 2 or 3 of month m: days 1-10, 11-20, and 21
      to the end of the month. */
  function DecadeRange(decade: int, m: Month): (r: (int, int))
    requires 1 <= decade <= 3 && 1 <= m.month <= 12
  {
    if decade == 1 then (1, 10)
    else if decade == 2 then (11, 20)
    else (21, DaysInMonth(m.year, m.month))
  }

  predicate InPeriod(k: DateKey, m: Month, startDay: int, endDay: int)
    requires k.Date?
  {
    MonthOf(k) == m && startDay <= k.day <= endDay
  }

  /** The `Where` of `GetDatesForDecade`: the matching keys, in key order. */
  function Matching(keys: seq<DateKey>, m: Month, startDay: int, endDay: int): seq<DateKey>
    requires AllDates(keys)
  {
    if keys == [] then []
    else
      var k := keys[|keys| - 1];
      Matching(keys[..|keys| - 1], m, startDay, endDay) + (if InPeriod(k, m, startDay, endDay) then [k] else [])
  }

  /** `GetDatesForDecade`: None where `DateTime.Parse` throws on a key. */
  function DatesForDecade(keys: seq<DateKey>, m: Month, startDay: int, endDay: int): Option<seq<DateKey>>
  {
    if AllDates(keys) then Some(Sort(Matching(keys, m, startDay, endDay), Before)) else None
  }

  lemma {:induction false} MatchingMembers(keys: seq<DateKey>, m: Month, startDay: int, endDay: int)
    requires AllDates(keys) && Distinct(keys)
    ensures Distinct(Matching(keys, m, startDay, endDay))
    ensures forall x :: x in Matching(keys, m, startDay, endDay) <==> x in keys && InPeriod(x, m, startDay, endDay)
  {
    if keys != [] {
      var pre := keys[..|keys| - 1];
      var k := keys[|keys| - 1];
      MatchingMembers(pre, m, startDay, endDay);
      assert keys == pre + [k];
      assert k !in pre;
    }
  }

  /** The decade list is exactly the keys of month m whose day lies in the
      range, in ascending order, and it fails exactly when some key is not a date. */
  lemma DecadeDates(keys: seq<DateKey>, m: Month, startDay: int, endDay: int)
    requires Distinct(keys) && DatasetKeys(keys)
    ensures DatesForDecade(keys, m, startDay, endDay).Some? <==> MonthSummary !in keys
    ensures AllDates(keys) ==>
              var r := DatesForDecade(keys, m, startDay, endDay).value;
              && StrictlySorted(r, Before)
              && forall x :: x in r <==> x in keys && InPeriod(x, m, startDay, endDay)
  {
    if MonthSummary in keys {
      var i :| 0 <= i < |keys| && keys[i] == MonthSummary;
    }
    if AllDates(keys) {
      MatchingMembers(keys, m, startDay, endDay);
      BeforeIsStrictTotalOrder();
      SortCorrect(Matching(keys, m, startDay, endDay), Before);
    }
  }

  /** Every calendar day of a month lies in exactly one of its three decades. */
  lemma DecadesCoverMonth(k: DateKey)
    requires IsCalendarDate(k)
    ensures var m := MonthOf(k);
            var r1, r2, r3 := DecadeRange(1, m), DecadeRange(2, m), DecadeRange(3, m);
            var in1, in2, in3 := InPeriod(k, m, r1.0, r1.1), InPeriod(k, m, r2.0, r2.1), InPeriod(k, m, r3.0, r3.1);
            (in1 || in2 || in3) && !(in1 && in2) && !(in1 && in3) && !(in2 && in3)
  {
  }
}
