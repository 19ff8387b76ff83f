/** The output selection: which of the six figures of a record are kept
    (`FillData`) and written (`SaveToCsv`). */
module Selections {
  import opened OrderedMaps
  import opened Speed
  import opened Calendar
  import opened Dataset

  /** The five user flags that reach the processing and output steps. */
  datatype Selection = Selection(odd: bool, even: bool, combined: bool, source: bool, variant: bool)

  /** The six figures of a record, in the order the text table writes them. */
  datatype Metric = OddSource | EvenSource | CombinedSource | OddVariant | EvenVariant | CombinedVariant

  const SourceMetrics: seq<Metric> := [OddSource, EvenSource, CombinedSource]
  const VariantMetrics: seq<Metric> := [OddVariant, EvenVariant, CombinedVariant]
  const MetricOrder: seq<Metric> := SourceMetrics + VariantMetrics

  function Field(rec: Speeds, m: Metric): real {
    match m
    case OddSource => rec.oddSource
    case EvenSource => rec.evenSource
    case CombinedSource => rec.combinedSource
    case OddVariant => rec.oddVariant
    case EvenVariant => rec.evenVariant
    case CombinedVariant => rec.combinedVariant
  }

  /** The direction flag of a metric. */
  function Direction(sel: Selection, m: Metric): bool {
    match m
    case OddSource | OddVariant => sel.odd
    case EvenSource | EvenVariant => sel.even
    case CombinedSource | CombinedVariant => sel.combined
  }

  predicate IsVariant(m: Metric) {
    m == OddVariant || m == EvenVariant || m == CombinedVariant
  }

  /** Whether a metric is kept and written: its direction flag is on and, for
      a variant metric, the variant flag too.  The source flag plays no part. */
  predicate Enabled(sel: Selection, m: Metric) {
    Direction(sel, m) && (IsVariant(m) ==> sel.variant)
  }

  /** The record `FillData` stores back: each disabled figure replaced by 0. */
  function Masked(rec: Speeds, sel: Selection): Speeds {
    Speeds(if sel.odd then rec.oddSource else 0.0,
           if sel.even then rec.evenSource else 0.0,
           if sel.combined then rec.combinedSource else 0.0,
           if sel.odd && sel.variant then rec.oddVariant else 0.0,
           if sel.even && sel.variant then rec.evenVariant else 0.0,
           if sel.combined && sel.variant then rec.combinedVariant else 0.0)
  }

  /** One day with every record masked; the areas and their order stay. */
  function MaskDay(day: Day, sel: Selection): (r: Day)
    ensures r.keys == day.keys && r.vals.Keys == day.vals.Keys
    ensures forall a :: a in r.vals ==> r.vals[a] == Masked(day.vals[a], sel)
  {
    OrdMap(day.keys, map a | a in day.vals :: Masked(day.vals[a], sel))
  }

  /** The dataset `FillData` leaves behind. */
  function MaskData(data: Data, sel: Selection): (r: Data)
    ensures r.keys == data.keys && r.vals.Keys == data.vals.Keys
    ensures forall k :: k in r.vals ==> r.vals[k] == MaskDay(data.vals[k], sel)
  {
    OrdMap(data.keys, map k | k in data.vals :: MaskDay(data.vals[k], sel))
  }

  // ---------------------------------------------------------------------------
  // Properties
  // ---------------------------------------------------------------------------

  /** Each enabled figure is kept and each disabled one is 0. */
  lemma MaskedFields(rec: Speeds, sel: Selection)
    ensures forall m :: Field(Masked(rec, sel), m) == if Enabled(sel, m) then Field(rec, m) else 0.0
  {
  }

  /** A variant figure survives exactly when both the variant flag and its
      direction flag are on; a source figure exactly when its direction flag
      is on. */
  lemma MaskedGating(rec: Speeds, sel: Selection, m: Metric)
    requires Field(rec, m) != 0.0
    ensures Field(Masked(rec, sel), m) == Field(rec, m) <==>
              Direction(sel, m) && (IsVariant(m) ==> sel.variant)
  {
  }

  /** Masking twice is masking once, and the source flag changes nothing. */
  lemma MaskIdempotent(rec: Speeds, sel: Selection)
    ensures Masked(Masked(rec, sel), sel) == Masked(rec, sel)
    ensures Masked(rec, sel.(source := !sel.source)) == Masked(rec, sel)
  {
  }

  /** With every direction flag and the variant flag on, nothing is zeroed. */
  lemma MaskAllOn(rec: Speeds, source: bool)
    ensures Masked(rec, Selection(true, true, true, source, true)) == rec
  {
  }

  /** `FillData` preserves well-formedness and the key structure of both levels. */
  lemma MaskDataNested(data: Data, sel: Selection)
    requires Nested(data)
    ensures Nested(MaskData(data, sel))
    ensures forall k, a :: Lookup(MaskData(data, sel), k, a) ==
              match Lookup(data, k, a) case None => None case Some(rec) => Some(Masked(rec, sel))
  {
  }
}
