/** The speed arithmetic of the processor: per-record speeds from kilometres
    and hours, the speed-as-proxy sums of the rollups, and rounding to one
    decimal.  `double` is modelled as `real`. */
module Speed {

  /** Kilometres and hours-with-stops of one measurement stream. */
  datatype Stream = Stream(km: real, hours: real) {
    function Plus(o: Stream): Stream {
      Stream(km + o.km, hours + o.hours)
    }
  }

  const NoTraffic := Stream(0.0, 0.0)

  /** The four streams of one cell (or of a sum of cells), in the order the
      source keeps them: odd/even source, odd/even variant. */
  datatype Raw = Raw(oddSource: Stream, evenSource: Stream, oddVariant: Stream, evenVariant: Stream) {
    function Plus(o: Raw): Raw {
      Raw(oddSource.Plus(o.oddSource), evenSource.Plus(o.evenSource),
          oddVariant.Plus(o.oddVariant), evenVariant.Plus(o.evenVariant))
    }
  }

  const NoRaw := Raw(NoTraffic, NoTraffic, NoTraffic, NoTraffic)

  /** The six figures stored per (date, area). */
  datatype Speeds = Speeds(oddSource: real, evenSource: real, combinedSource: real,
                           oddVariant: real, evenVariant: real, combinedVariant: real)

  const ZeroSpeeds := Speeds(0.0, 0.0, 0.0, 0.0, 0.0, 0.0)

  ghost predicate NonNegativeStream(s: Stream) { s.km >= 0.0 && s.hours >= 0.0 }

  ghost predicate NonNegativeRaw(r: Raw) {
    NonNegativeStream(r.oddSource) && NonNegativeStream(r.evenSource) &&
    NonNegativeStream(r.oddVariant) && NonNegativeStream(r.evenVariant)
  }

  ghost predicate NonNegativeSpeeds(s: Speeds) {
    s.oddSource >= 0.0 && s.evenSource >= 0.0 && s.combinedSource >= 0.0 &&
    s.oddVariant >= 0.0 && s.evenVariant >= 0.0 && s.combinedVariant >= 0.0
  }

  /** `Math.Max(hours, 1)`. */
  function AtLeastOne(h: real): real { if h > 1.0 then h else 1.0 }

  /** Directional speed: `km / Math.Max(hours, 1)`. */
  function AverageSpeed(s: Stream): real {
    s.km / AtLeastOne(s.hours)
  }

  /** Combined speed: the two directions pooled, exactly 0 when neither has hours. */
  function PooledSpeed(a: Stream, b: Stream): real {
    if a.hours + b.hours > 0.0 then (a.km + b.km) / (a.hours + b.hours) else 0.0
  }

  /** The record stored for one cell (and for the MainWay sum of a date). */
  function RecordOf(r: Raw): Speeds {
    Speeds(AverageSpeed(r.oddSource), AverageSpeed(r.evenSource),
           PooledSpeed(r.oddSource, r.evenSource),
           AverageSpeed(r.oddVariant), AverageSpeed(r.evenVariant),
           PooledSpeed(r.oddVariant, r.evenVariant))
  }

  /** Below one hour the kilometres themselves are the speed; from one hour on
      the speed times the hours gives back the kilometres. */
  lemma AverageSpeedClamp(s: Stream)
    ensures s.hours <= 1.0 ==> AverageSpeed(s) == s.km
    ensures s.hours >= 1.0 ==> AverageSpeed(s) * s.hours == s.km
    ensures NonNegativeStream(s) ==> 0.0 <= AverageSpeed(s) <= s.km
  {
    if s.hours >= 1.0 {
      assert AverageSpeed(s) == s.km / s.hours;
    }
  }

  /** With no hours in either direction the combined speed is 0, even where
      the directional speeds (clamped to one hour) are not. */
  lemma PooledSpeedWithoutHours(a: Stream, b: Stream)
    requires a.hours == 0.0 && b.hours == 0.0
    ensures PooledSpeed(a, b) == 0.0
    ensures AverageSpeed(a) == a.km && AverageSpeed(b) == b.km
  {
  }

  /** Combined is pooled, not averaged: with at least one hour in each
      direction it lies between the two directional speeds. */
  lemma PooledSpeedBetween(a: Stream, b: Stream)
    requires a.hours >= 1.0 && b.hours >= 1.0
    ensures AverageSpeed(a) <= AverageSpeed(b) ==>
              AverageSpeed(a) <= PooledSpeed(a, b) <= AverageSpeed(b)
    ensures AverageSpeed(b) <= AverageSpeed(a) ==>
              AverageSpeed(b) <= PooledSpeed(a, b) <= AverageSpeed(a)
  {
    AverageSpeedClamp(a);
    AverageSpeedClamp(b);
    var p, q, c := AverageSpeed(a), AverageSpeed(b), PooledSpeed(a, b);
    assert c * (a.hours + b.hours) == p * a.hours + q * b.hours;
    if p <= q {
      Mediant(p, a.hours, q, b.hours, c);
    } else {
      Mediant(q, b.hours, p, a.hours, c);
    }
  }

  /** If c (ha + hb) = p ha + q hb with positive weights, c lies between p and q. */
  lemma Mediant(p: real, ha: real, q: real, hb: real, c: real)
    requires ha > 0.0 && hb > 0.0 && p <= q
    requires c * (ha + hb) == p * ha + q * hb
    ensures p <= c <= q
  {
    assert c * (ha + hb) == c * ha + c * hb;
    assert p * hb <= q * hb;
    assert p * ha <= q * ha;
    assert p * (ha + hb) == p * ha + p * hb;
    assert q * (ha + hb) == q * ha + q * hb;
    ScaleBack(p, c, ha + hb);
    ScaleBack(c, q, ha + hb);
  }

  lemma ScaleBack(x: real, y: real, h: real)
    requires h > 0.0 && x * h <= y * h
    ensures x <= y
  {
    assert (x - y) * h <= 0.0;
  }

  /** Pooling is not the mean of the two directions: 100 km in 2 h and 10 km
      in 1 h give 50 and 10, combined 110/3 rather than 30. */
  lemma PooledIsNotMean()
    ensures var a, b := Stream(100.0, 2.0), Stream(10.0, 1.0);
      AverageSpeed(a) == 50.0 && AverageSpeed(b) == 10.0 &&
      PooledSpeed(a, b) == 110.0 / 3.0 && PooledSpeed(a, b) != 30.0
  {
  }

  /** All six figures of a record are non-negative for non-negative inputs. */
  lemma RecordOfNonNegative(r: Raw)
    requires NonNegativeRaw(r)
    ensures NonNegativeSpeeds(RecordOf(r))
  {
    AverageSpeedClamp(r.oddSource);
    AverageSpeedClamp(r.evenSource);
    AverageSpeedClamp(r.oddVariant);
    AverageSpeedClamp(r.evenVariant);
  }

  // ---------------------------------------------------------------------------
  // Rounding: Math.Round(x, 1)
  // ---------------------------------------------------------------------------

  /** A value with at most one decimal. */
  ghost predicate IsTenths(x: real) {
    (x * 10.0).Floor as real == x * 10.0
  }

  /** Rounds to the nearest integer, a midpoint going to the even one
      (.NET's default `MidpointRounding.ToEven`). */
  function NearestInt(y: real): int {
    var f := y.Floor;
    if y - f as real < 0.5 then f
    else if y - f as real > 0.5 then f + 1
    else if f % 2 == 0 then f else f + 1
  }

  /** `Math.Round(x, 1)`. */
  function Round1(x: real): real {
    NearestInt(x * 10.0) as real / 10.0
  }

  lemma NearestIntNear(y: real)
    ensures -0.5 <= NearestInt(y) as real - y <= 0.5
    ensures y >= 0.0 ==> NearestInt(y) >= 0
    ensures y.Floor as real == y ==> NearestInt(y) as real == y
  {
  }

  /** The rounded value is a tenth, at most half a tenth away from the input. */
  lemma Round1Near(x: real)
    ensures IsTenths(Round1(x))
    ensures -0.05 <= Round1(x) - x <= 0.05
    ensures x >= 0.0 ==> Round1(x) >= 0.0
  {
    var n := NearestInt(x * 10.0);
    NearestIntNear(x * 10.0);
    assert Round1(x) * 10.0 == n as real;
    assert (n as real).Floor == n;
  }

  /** A value that already has one decimal is left alone. */
  lemma Round1OfTenths(x: real)
    requires IsTenths(x)
    ensures Round1(x) == x
  {
    NearestIntNear(x * 10.0);
  }

  /** Rounding twice is rounding once. */
  lemma Round1Idempotent(x: real)
    ensures Round1(Round1(x)) == Round1(x)
  {
    Round1Near(x);
    Round1OfTenths(Round1(x));
  }

  // ---------------------------------------------------------------------------
  // Speed-as-proxy aggregation (decades, month summary, whole road)
  // ---------------------------------------------------------------------------

  /** A daily speed s enters a rollup as s*s "kilometres" over s "hours". */
  function Proxy(s: real): Stream { Stream(s * s, s) }

  function ProxyOf(rec: Speeds): Raw {
    Raw(Proxy(rec.oddSource), Proxy(rec.evenSource), Proxy(rec.oddVariant), Proxy(rec.evenVariant))
  }

  /** Sums of proxies: every kilometre sum is a sum of squares. */
  ghost predicate ProxySums(r: Raw) {
    r.oddSource.km >= 0.0 && r.evenSource.km >= 0.0 &&
    r.oddVariant.km >= 0.0 && r.evenVariant.km >= 0.0
  }

  lemma ProxySumsPlus(acc: Raw, rec: Speeds)
    ensures ProxySums(acc) ==> ProxySums(acc.Plus(ProxyOf(rec)))
  {
  }

  lemma PlusAssociative(a: Raw, b: Raw, c: Raw)
    ensures a.Plus(b).Plus(c) == a.Plus(b.Plus(c))
  {
  }

  lemma PlusNoRaw(a: Raw)
    ensures a.Plus(NoRaw) == a && NoRaw.Plus(a) == a
  {
  }

  /** Directional rollup figure: `hours > 0 ? Math.Round(km / hours, 1) : 0`. */
  function RolledSpeed(s: Stream): real {
    if s.hours > 0.0 then Round1(s.km / s.hours) else 0.0
  }

  /** Combined rollup figure: pooled, dividing by 1 when the hours sum is not positive, unrounded. */
  function RolledPooled(a: Stream, b: Stream): real {
    (a.km + b.km) / (if a.hours + b.hours > 0.0 then a.hours + b.hours else 1.0)
  }

  /** The record a decade or month summary stores for one area. */
  function RollupRecord(sums: Raw): Speeds {
    Speeds(RolledSpeed(sums.oddSource), RolledSpeed(sums.evenSource),
           RolledPooled(sums.oddSource, sums.evenSource),
           RolledSpeed(sums.oddVariant), RolledSpeed(sums.evenVariant),
           RolledPooled(sums.oddVariant, sums.evenVariant))
  }

  /** Directional whole-road figure: `hours > 0 ? km / hours : 0`, unrounded. */
  function TotalSpeed(s: Stream): real {
    if s.hours > 0.0 then s.km / s.hours else 0.0
  }

  /** The six whole-road figures; combined ones pool like a daily record. */
  function TotalRecord(sums: Raw): Speeds {
    Speeds(TotalSpeed(sums.oddSource), TotalSpeed(sums.evenSource),
           PooledSpeed(sums.oddSource, sums.evenSource),
           TotalSpeed(sums.oddVariant), TotalSpeed(sums.evenVariant),
           PooledSpeed(sums.oddVariant, sums.evenVariant))
  }

  /** Over a single positive daily speed s, a rollup gives back round1(s) and
      the whole-road figure gives back s itself. */
  lemma ProxyOfOneSpeed(s: real)
    requires s > 0.0
    ensures RolledSpeed(NoTraffic.Plus(Proxy(s))) == Round1(s)
    ensures TotalSpeed(NoTraffic.Plus(Proxy(s))) == s
  {
    assert NoTraffic.Plus(Proxy(s)) == Stream(s * s, s);
    assert s * s / s == s;
  }

  /** The figures a rollup produces are never negative, whatever the signs of
      the daily speeds, because the kilometre proxies are squares. */
  lemma RollupNonNegative(sums: Raw)
    requires ProxySums(sums)
    ensures NonNegativeSpeeds(RollupRecord(sums))
    ensures NonNegativeSpeeds(TotalRecord(sums))
  {
    forall s: Stream | s.km >= 0.0 ensures RolledSpeed(s) >= 0.0 && TotalSpeed(s) >= 0.0 {
      if s.hours > 0.0 { Round1Near(s.km / s.hours); }
    }
  }

  /** Two days with odd-source speeds 10 and 20 roll up to 16.7, not the mean 15. */
  lemma TwoDayRollupExample()
    ensures RolledSpeed(NoTraffic.Plus(Proxy(10.0)).Plus(Proxy(20.0))) == 16.7
  {
    var s := NoTraffic.Plus(Proxy(10.0)).Plus(Proxy(20.0));
    assert s == Stream(500.0, 30.0);
    var y := s.km / s.hours * 10.0;
    assert y == 500.0 / 3.0;
    assert 166.0 <= y < 167.0;
    assert y.Floor == 166;
  }
}
