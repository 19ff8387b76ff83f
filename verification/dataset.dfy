/** The dataset: date key -> (area name -> record), both levels
    insertion-ordered like the processor's nested `Dictionary` objects. */
module Dataset {
  import opened OrderedMaps
  import opened Speed
  import opened Calendar

  /** One inner dictionary: area name -> six speeds. */
  type Day = OrdMap<string, Speeds>

  /** The whole dataset. */
  type Data = OrdMap<DateKey, Day>

  /** The area key under which the main-route rollup is stored. */
  const MainWay := "MainWay"

  /** Both levels are valid ordered maps. */
  ghost predicate Nested<V>(t: OrdMap<DateKey, OrdMap<string, V>>) {
    t.Valid() && forall k :: k in t.vals ==> t.vals[k].Valid()
  }

  /** Every key is a real calendar day (no summary pseudo-date). */
  ghost predicate CalendarKeys<V>(t: OrdMap<DateKey, V>) {
    forall k :: k in t.vals ==> IsCalendarDate(k)
  }

  /** `t[k][a] = v`, creating the inner dictionary for `k` first if needed. */
  function Put2<V>(t: OrdMap<DateKey, OrdMap<string, V>>, k: DateKey, a: string, v: V)
    : (r: OrdMap<DateKey, OrdMap<string, V>>)
    ensures Nested(t) ==> Nested(r)
    ensures k in r.vals && a in r.vals[k].vals && r.vals[k].vals[a] == v
    ensures forall k' :: k' in r.vals <==> k' in t.vals || k' == k
  {
    t.Put(k, (if k in t.vals then t.vals[k] else Empty()).Put(a, v))
  }

  /** The record for (k, a): `TryGetValue` on the outer, then the inner dictionary. */
  function Lookup<V>(t: OrdMap<DateKey, OrdMap<string, V>>, k: DateKey, a: string): Option<V> {
    match t.Get(k)
    case None => None
    case Some(day) => day.Get(a)
  }

  /** The second of two writes to the same (k, a) is the one that remains. */
  lemma Put2Put2<V>(t: OrdMap<DateKey, OrdMap<string, V>>, k: DateKey, a: string, x: V, y: V)
    ensures Put2(Put2(t, k, a, x), k, a, y) == Put2(t, k, a, y)
  {
    var inner := if k in t.vals then t.vals[k] else Empty();
    PutPut(inner, a, x, y);
    PutPut(t, k, inner.Put(a, x), inner.Put(a, y));
  }

  /** Creating an empty inner dictionary before a write changes nothing. */
  lemma Put2AfterEmpty<V>(t: OrdMap<DateKey, OrdMap<string, V>>, k: DateKey, a: string, v: V)
    requires k !in t.vals
    ensures Put2(t.Put(k, Empty()), k, a, v) == Put2(t, k, a, v)
  {
    PutPut(t, k, Empty(), Empty<string, V>().Put(a, v));
  }

  /** A write to (k, a) leaves every other (k', a') as it was. */
  lemma LookupPut2<V>(t: OrdMap<DateKey, OrdMap<string, V>>, k: DateKey, a: string, v: V, k': DateKey, a': string)
    ensures Lookup(Put2(t, k, a, v), k', a') == if k' == k && a' == a then Some(v) else Lookup(t, k', a')
  {
    var inner := if k in t.vals then t.vals[k] else Empty();
    GetPut(t, k, inner.Put(a, v), k');
    if k' == k {
      GetPut(inner, a, v, a');
    }
  }
}
