/** The NDVI threshold tables of the backend: the four-band colour
    classification, the five-band interpretation text and the three-band
    health label of the field history, each checked against one generic
    table lookup. */
module NdviBands {

  /** One row of a threshold table: values strictly above `bound` get `band`. */
  datatype Tier<L> = Tier(bound: real, band: L)

  /** Bounds strictly decrease down the table. */
  predicate Descending<L>(table: seq<Tier<L>>)
  {
    forall i, j :: 0 <= i < j < |table| ==> table[j].bound < table[i].bound
  }

  /** The row a value falls into: the first row whose bound the value
      strictly exceeds, or |table| when it exceeds none. */
  function TierIndex<L>(table: seq<Tier<L>>, v: real): (i: nat)
    ensures i <= |table|
    ensures forall j :: 0 <= j < i ==> v <= table[j].bound
    ensures i < |table| ==> v > table[i].bound
  {
    if table == [] then 0
    else if v > table[0].bound then 0
    else 1 + TierIndex(table[1..], v)
  }

  /** The label of the row a value falls into, `fallback` below every row. */
  function Lookup<L>(table: seq<Tier<L>>, fallback: L, v: real): (r: L)
    ensures r == if TierIndex(table, v) < |table| then table[TierIndex(table, v)].band else fallback
  {
    if table == [] then fallback
    else if v > table[0].bound then table[0].band
    else Lookup(table[1..], fallback, v)
  }

  /** A larger value never falls into a later (lower) row. */
  lemma TierIndexAntitone<L>(table: seq<Tier<L>>, v1: real, v2: real)
    requires v1 <= v2
    ensures TierIndex(table, v2) <= TierIndex(table, v1)
  {
  }

  /** In a descending table, the row a value falls into is the one whose
      bound lies just below it. */
  lemma TierIndexBetween<L>(table: seq<Tier<L>>, v: real, i: nat)
    requires Descending(table) && i <= |table|
    requires i < |table| ==> v > table[i].bound
    requires 0 < i ==> v <= table[i - 1].bound
    ensures TierIndex(table, v) == i
  {
    forall j | 0 <= j < i
      ensures v <= table[j].bound
    {
      if j < i - 1 {
        assert table[i - 1].bound < table[j].bound;
      }
    }
  }

  // ---------------------------------------------------------------------
  // Four bands: get_ndvi_color

  datatype NdviClass = Excellent | Good | Moderate | Poor
  {
    /** Position in the table, the poorest band lowest. */
    function Rank(): nat
    {
      match this
      case Excellent => 3
      case Good => 2
      case Moderate => 1
      case Poor => 0
    }

    function Color(): string
    {
      match this
      case Excellent => "#00ff00"
      case Good => "#aaff00"
      case Moderate => "#ffff00"
      case Poor => "#ff0000"
    }

    function Status(): string
    {
      match this
      case Excellent => "Excellent \U{1F33F}"
      case Good => "Good \U{2705}"
      case Moderate => "Moderate \U{26A0}\U{FE0F}"
      case Poor => "Poor \U{274C}"
    }

    function Tag(): string
    {
      match this
      case Excellent => "excellent"
      case Good => "good"
      case Moderate => "moderate"
      case Poor => "poor"
    }
  }

  const FourBands: seq<Tier<NdviClass>> := [Tier(0.7, Excellent), Tier(0.5, Good), Tier(0.3, Moderate)]

  /** The band of get_ndvi_color: strict comparisons against 0.7, 0.5, 0.3.
      The band's rank counts the thresholds the value strictly exceeds. */
  function Classify(v: real): (c: NdviClass)
    ensures v > 0.3 <==> c.Rank() >= 1
    ensures v > 0.5 <==> c.Rank() >= 2
    ensures v > 0.7 <==> c.Rank() >= 3
  {
    if v > 0.7 then Excellent
    else if v > 0.5 then Good
    else if v > 0.3 then Moderate
    else Poor
  }

  /** The if/elif chain of get_ndvi_color is the lookup in the four-row
      table, and the band's rank counts the rows the value lies above. */
  lemma ClassifyIsTableLookup(v: real)
    ensures Classify(v).Rank() == |FourBands| - TierIndex(FourBands, v)
    ensures Classify(v) == Lookup(FourBands, Poor, v)
  {
    assert Descending(FourBands);
    TierIndexBetween(FourBands, v, |FourBands| - Classify(v).Rank());
  }

  /** get_ndvi_color: the (colour, status label, class tag) triple. */
  function NdviColor(v: real): (r: (string, string, string))
    ensures r.2 in ["excellent", "good", "moderate", "poor"]
    ensures r.2 == "poor" <==> v <= 0.3
    ensures r == (Classify(v).Color(), Classify(v).Status(), Classify(v).Tag())
  {
    var c := Classify(v);
    (c.Color(), c.Status(), c.Tag())
  }

  /** Distinct bands carry distinct class tags, so the tag identifies the band. */
  lemma TagsDistinct(c: NdviClass, d: NdviClass)
    requires c.Tag() == d.Tag()
    ensures c == d
  {
  }

  /** The classification is monotone in the value. */
  lemma ClassifyMonotone(v1: real, v2: real)
    requires v1 <= v2
    ensures Classify(v1).Rank() <= Classify(v2).Rank()
  {
    ClassifyIsTableLookup(v1);
    ClassifyIsTableLookup(v2);
    TierIndexAntitone(FourBands, v1, v2);
  }

  /** The exact thresholds fall into the band below them. */
  lemma ThresholdsFallLow()
    ensures Classify(0.7) == Good && Classify(0.5) == Moderate && Classify(0.3) == Poor
    ensures Classify(0.71) == Excellent && Classify(0.51) == Good && Classify(0.31) == Moderate
  {
  }

  // ---------------------------------------------------------------------
  // Five bands: get_ndvi_interpretation

  datatype Density = Dense | Healthy | Sparse | Low | Bare
  {
    /** Position in the table, the poorest band lowest. */
    function Rank(): nat
    {
      match this
      case Dense => 4
      case Healthy => 3
      case Sparse => 2
      case Low => 1
      case Bare => 0
    }

    function Text(): string
    {
      match this
      case Dense => "Very high vegetation density. Likely healthy, dense crops or forest."
      case Healthy => "Moderate to high vegetation. Typical of healthy agricultural fields."
      case Sparse => "Moderate vegetation. May indicate stress or sparse crop cover."
      case Low => "Low vegetation. Could be bare soil, senescing crops, or urban areas."
      case Bare => "Very low or no vegetation. Possibly water, snow, or barren land."
    }

    /** The four-band class each interpretation band lies in. */
    function Coarsen(): NdviClass
    {
      match this
      case Dense => Excellent
      case Healthy => Good
      case Sparse => Moderate
      case Low => Poor
      case Bare => Poor
    }
  }

  const FiveBands: seq<Tier<Density>> := [Tier(0.7, Dense), Tier(0.5, Healthy), Tier(0.3, Sparse), Tier(0.1, Low)]

  /** The band of get_ndvi_interpretation: it refines the four bands of
      get_ndvi_color and splits the poor band strictly above 0.1. */
  function Interpret(v: real): (d: Density)
    ensures d.Coarsen() == Classify(v)
    ensures d == Low <==> Classify(v) == Poor && v > 0.1
  {
    if v > 0.7 then Dense
    else if v > 0.5 then Healthy
    else if v > 0.3 then Sparse
    else if v > 0.1 then Low
    else Bare
  }

  /** The if/elif chain of get_ndvi_interpretation is the lookup in the
      five-row table. */
  lemma InterpretIsTableLookup(v: real)
    ensures Interpret(v).Rank() == |FiveBands| - TierIndex(FiveBands, v)
    ensures Interpret(v) == Lookup(FiveBands, Bare, v)
  {
    assert Descending(FiveBands);
    TierIndexBetween(FiveBands, v, |FiveBands| - Interpret(v).Rank());
  }

  /** get_ndvi_interpretation: the text of the five-row table's row. */
  function Interpretation(v: real): (text: string)
    ensures text == Lookup(FiveBands, Bare, v).Text()
  {
    InterpretIsTableLookup(v);
    Interpret(v).Text()
  }

  /** A larger value never gets a lower interpretation band. */
  lemma InterpretMonotone(v1: real, v2: real)
    requires v1 <= v2
    ensures Interpret(v1).Rank() <= Interpret(v2).Rank()
  {
    InterpretIsTableLookup(v1);
    InterpretIsTableLookup(v2);
    TierIndexAntitone(FiveBands, v1, v2);
  }

  /** Above 0.3 the interpretation band is the colour band: the first three
      rows of both tables coincide. */
  lemma InterpretationAgreesAboveModerate(v: real)
    requires v > 0.3
    ensures TierIndex(FiveBands, v) == TierIndex(FourBands, v)
    ensures Interpret(v) != Low && Interpret(v) != Bare
  {
    assert Descending(FiveBands);
    assert forall j :: 0 <= j < |FourBands| ==> FiveBands[j].bound == FourBands[j].bound;
    var i := TierIndex(FourBands, v);
    TierIndexBetween(FiveBands, v, i);
  }

  // ---------------------------------------------------------------------
  // Three bands: the health label of a field-history entry

  datatype Health = Thriving | Fair | Failing
  {
    /** Position in the table, the poorest label lowest. */
    function Rank(): nat
    {
      match this
      case Thriving => 2
      case Fair => 1
      case Failing => 0
    }

    function Label(): string
    {
      match this
      case Thriving => "Good"
      case Fair => "Moderate"
      case Failing => "Poor"
    }
  }

  const ThreeBands: seq<Tier<Health>> := [Tier(0.5, Thriving), Tier(0.3, Fair)]

  /** The health of a class: excellent and good are both labelled "Good". */
  function HealthOf(c: NdviClass): Health
  {
    match c
    case Excellent => Thriving
    case Good => Thriving
    case Moderate => Fair
    case Poor => Failing
  }

  /** The label of field_history: strict comparisons against 0.5 and 0.3,
      the same bands as the colour table with its two top bands merged. */
  function HealthLabel(v: real): (h: Health)
    ensures h == HealthOf(Classify(v))
  {
    if v > 0.5 then Thriving
    else if v > 0.3 then Fair
    else Failing
  }

  /** The health expression of field_history is the lookup in the three-row
      table. */
  lemma HealthLabelIsTableLookup(v: real)
    ensures HealthLabel(v).Rank() == |ThreeBands| - TierIndex(ThreeBands, v)
    ensures HealthLabel(v) == Lookup(ThreeBands, Failing, v)
  {
    assert Descending(ThreeBands);
    TierIndexBetween(ThreeBands, v, |ThreeBands| - HealthLabel(v).Rank());
  }

  /** A larger value never gets a lower health label. */
  lemma HealthLabelMonotone(v1: real, v2: real)
    requires v1 <= v2
    ensures HealthLabel(v1).Rank() <= HealthLabel(v2).Rank()
  {
    ClassifyMonotone(v1, v2);
  }
}
