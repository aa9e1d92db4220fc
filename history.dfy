/** The field-history handler (GET /field-history): eight synthetic
    samples twelve days apart over a 90-day lookback, sorted by date, with
    a trend and an average NDVI. Dates are day numbers; "today" and the
    random draws are parameters. */
module History {
  import opened Wrappers
  import opened Rounding
  import opened NdviBands
  import opened Seasons

  const HistoryLength: nat := 8
  const StepDays: int := 12
  const LookbackDays: int := 90

  datatype Activity = Irrigation | Fertilization | Weeding | Monitoring | Harvest

  /** The draws behind one entry: three `random.random()` values and the
      chosen activity. */
  datatype EntryDraw = EntryDraw(ndviUnit: real, rainUnit: real, tempUnit: real, activity: Activity)

  predicate ValidDraw(d: EntryDraw)
  {
    0.0 <= d.ndviUnit < 1.0 && 0.0 <= d.rainUnit < 1.0 && 0.0 <= d.tempUnit < 1.0
  }

  /** One history sample. `rawNdvi` is the unrounded draw the health label
      is computed from; `ndvi` is the stored, two-decimal value. */
  datatype Entry = Entry(
    day: int, rawNdvi: real, ndvi: real, rainfallMm: real, temperatureAvg: real,
    health: Health, activity: Activity)

  /** The entry built on `day` from one set of draws. */
  function MakeEntry(day: int, d: EntryDraw): (e: Entry)
    ensures e.day == day && e.activity == d.activity
    ensures e.rawNdvi == 0.3 + d.ndviUnit * 0.5
    ensures e.rawNdvi - 0.005 < e.ndvi <= e.rawNdvi + 0.005
    ensures (e.ndvi * 100.0).Floor as real == e.ndvi * 100.0
    ensures e.health == HealthOf(Classify(e.rawNdvi))
    ensures e.rainfallMm == Round1(d.rainUnit * 20.0)
    ensures e.temperatureAvg == Round1(22.0 + d.tempUnit * 10.0)
  {
    var raw := 0.3 + d.ndviUnit * 0.5;
    Entry(day, raw, Round2(raw), Round1(d.rainUnit * 20.0), Round1(22.0 + d.tempUnit * 10.0),
          HealthLabel(raw), d.activity)
  }

  /** A drawn entry lies in [0.3, 0.8] both unrounded (below 0.8) and
      stored; its health label is "Poor" only when the draw is exactly 0;
      rainfall lies in [0, 20] mm and the temperature in [22, 32] degrees. */
  lemma EntryRanges(day: int, d: EntryDraw)
    requires ValidDraw(d)
    ensures var e := MakeEntry(day, d);
      && e.day == day
      && 0.3 <= e.rawNdvi < 0.8
      && 0.3 <= e.ndvi <= 0.8
      && Round2(e.ndvi) == e.ndvi
      && (e.health == Failing <==> d.ndviUnit == 0.0)
      && 0.0 <= e.rainfallMm <= 20.0
      && 22.0 <= e.temperatureAvg <= 32.0
  {
    var rain := (d.rainUnit * 20.0 * 10.0 + 0.5).Floor;
    assert 0 <= rain <= 200;
    var temp := ((22.0 + d.tempUnit * 10.0) * 10.0 + 0.5).Floor;
    assert 220 <= temp <= 320;
    var raw := 0.3 + d.ndviUnit * 0.5;
    Round2OfHundredths(30);
    Round2OfHundredths(80);
    Round2Monotone(0.3, raw);
    Round2Monotone(raw, 0.8);
    Round2Idempotent(raw);
  }

  /** The health label follows the unrounded draw, not the stored value: a
      draw of 0.406 gives 0.503, labelled "Good", stored as 0.5, which the
      same table would call "Moderate". */
  lemma HealthFollowsUnroundedValue()
    ensures var e := MakeEntry(0, EntryDraw(0.406, 0.0, 0.0, Monitoring));
      && e.health == Thriving
      && e.ndvi == 0.5
      && HealthLabel(e.ndvi) == Fair
  {
    var raw := 0.3 + 0.406 * 0.5;
    assert raw == 0.503;
    var f := (raw * 100.0 + 0.5).Floor;
    assert f as real <= 50.8 < f as real + 1.0;
    assert f == 50;
  }

  // ---------------------------------------------------------------------
  // Sorting by date

  predicate DateOrdered(s: seq<Entry>)
  {
    forall i, j :: 0 <= i < j < |s| ==> s[i].day <= s[j].day
  }

  predicate StrictlyDated(s: seq<Entry>)
  {
    forall i, j :: 0 <= i < j < |s| ==> s[i].day < s[j].day
  }

  /** Inserts `x` into a date-ordered list after every entry dated no later. */
  method InsertByDate(s: seq<Entry>, x: Entry) returns (t: seq<Entry>)
    requires DateOrdered(s)
    ensures DateOrdered(t)
    ensures multiset(t) == multiset(s) + multiset{x}
  {
    var j := |s|;
    while j > 0 && s[j - 1].day > x.day
      invariant 0 <= j <= |s|
      invariant forall k :: j <= k < |s| ==> s[k].day > x.day
    {
      j := j - 1;
    }
    assert forall k :: 0 <= k < j ==> s[k].day <= x.day by {
      if j > 0 {
        assert forall k :: 0 <= k < j ==> s[k].day <= s[j - 1].day;
      }
    }
    t := s[..j] + [x] + s[j..];
    InsertKeepsOrder(s, j, x);
    assert s == s[..j] + s[j..];
  }

  /** Placing `x` between the entries dated no later and those dated later
      keeps a list date-ordered. */
  lemma InsertKeepsOrder(s: seq<Entry>, j: nat, x: Entry)
    requires DateOrdered(s) && j <= |s|
    requires forall k :: 0 <= k < j ==> s[k].day <= x.day
    requires forall k :: j <= k < |s| ==> s[k].day > x.day
    ensures DateOrdered(s[..j] + [x] + s[j..])
  {
    var t := s[..j] + [x] + s[j..];
    forall a, b | 0 <= a < b < |t|
      ensures t[a].day <= t[b].day
    {
      var da := if a < j then s[a].day else if a == j then x.day else s[a - 1].day;
      var db := if b < j then s[b].day else if b == j then x.day else s[b - 1].day;
      assert t[a].day == da && t[b].day == db;
    }
  }

  /** `history.sort(key=date)`: the result is ordered by date and holds the
      same entries. */
  method SortByDate(s: seq<Entry>) returns (t: seq<Entry>)
    ensures DateOrdered(t)
    ensures multiset(t) == multiset(s)
  {
    t := [];
    for i := 0 to |s|
      invariant DateOrdered(t)
      invariant multiset(t) == multiset(s[..i])
    {
      t := InsertByDate(t, s[i]);
      assert s[..i + 1] == s[..i] + [s[i]];
    }
    assert s[..|s|] == s;
  }

  /** A list whose dates strictly increase is the only date-ordered
      arrangement of its entries, so sorting it changes nothing. */
  lemma {:induction false} SortedPermutationUnchanged(s: seq<Entry>, t: seq<Entry>)
    requires StrictlyDated(s) && DateOrdered(t)
    requires multiset(t) == multiset(s)
    ensures t == s
  {
    if s == [] {
      assert |t| == |multiset(t)| == 0;
    } else {
      assert |t| == |multiset(t)| == |s|;
      FirstOfSortedPermutation(s, t);
      assert s == [s[0]] + s[1..];
      assert t == [t[0]] + t[1..];
      assert multiset(s[1..]) == multiset(s) - multiset{s[0]};
      assert multiset(t[1..]) == multiset(t) - multiset{t[0]};
      SortedPermutationUnchanged(s[1..], t[1..]);
    }
  }

  /** The earliest entry of a strictly dated list comes first in every
      date-ordered arrangement of it. */
  lemma FirstOfSortedPermutation(s: seq<Entry>, t: seq<Entry>)
    requires StrictlyDated(s) && DateOrdered(t) && |s| > 0 && |t| > 0
    requires multiset(t) == multiset(s)
    ensures t[0] == s[0]
  {
    assert t[0] in multiset(s);
    var i :| 0 <= i < |s| && s[i] == t[0];
    assert s[0] in multiset(t);
    var j :| 0 <= j < |t| && t[j] == s[0];
    assert s[i].day <= s[0].day by {
      assert t[0].day <= t[j].day;
    }
    assert i == 0;
  }

  // ---------------------------------------------------------------------
  // Average and extremes

  /** The stored NDVI values of a history, in order. */
  function Ndvis(h: seq<Entry>): (xs: seq<real>)
    ensures |xs| == |h|
    ensures forall i :: 0 <= i < |h| ==> xs[i] == h[i].ndvi
  {
    if h == [] then [] else [h[0].ndvi] + Ndvis(h[1..])
  }

  function Sum(xs: seq<real>): real
  {
    if xs == [] then 0.0 else xs[0] + Sum(xs[1..])
  }

  function Mean(xs: seq<real>): real
    requires |xs| > 0
  {
    Sum(xs) / |xs| as real
  }

  function MinOf(xs: seq<real>): (m: real)
    requires |xs| > 0
    ensures forall i :: 0 <= i < |xs| ==> m <= xs[i]
  {
    if |xs| == 1 then xs[0]
    else var rest := MinOf(xs[1..]); if xs[0] <= rest then xs[0] else rest
  }

  function MaxOf(xs: seq<real>): (m: real)
    requires |xs| > 0
    ensures forall i :: 0 <= i < |xs| ==> xs[i] <= m
  {
    if |xs| == 1 then xs[0]
    else var rest := MaxOf(xs[1..]); if xs[0] >= rest then xs[0] else rest
  }

  /** The smallest and the largest value are values of the list. */
  lemma {:induction false} ExtremesAreElements(xs: seq<real>)
    requires |xs| > 0
    ensures MinOf(xs) in xs && MaxOf(xs) in xs
  {
    if |xs| > 1 {
      ExtremesAreElements(xs[1..]);
      assert xs == [xs[0]] + xs[1..];
    }
  }

  /** A sum of values in [lo, hi] lies between |xs|*lo and |xs|*hi. */
  lemma {:induction false} SumBounds(xs: seq<real>, lo: real, hi: real)
    requires forall i :: 0 <= i < |xs| ==> lo <= xs[i] <= hi
    ensures |xs| as real * lo <= Sum(xs) <= |xs| as real * hi
  {
    if xs != [] {
      SumBounds(xs[1..], lo, hi);
      var n := |xs[1..]| as real;
      assert |xs| as real * lo == n * lo + lo;
      assert |xs| as real * hi == n * hi + hi;
    }
  }

  /** The mean lies between the smallest and the largest value. */
  lemma MeanWithinRange(xs: seq<real>)
    requires |xs| > 0
    ensures MinOf(xs) <= Mean(xs) <= MaxOf(xs)
  {
    SumBounds(xs, MinOf(xs), MaxOf(xs));
    DivideBounds(Sum(xs), |xs| as real, MinOf(xs), MaxOf(xs));
  }

  lemma DivideBounds(s: real, n: real, lo: real, hi: real)
    requires n > 0.0 && n * lo <= s <= n * hi
    ensures lo <= s / n <= hi
  {
    assert (s / n) * n == s;
  }

  /** When every value has two decimals, so do the extremes, and the mean
      rounded to two decimals still lies between them. */
  lemma RoundedMeanWithinRange(xs: seq<real>)
    requires |xs| > 0
    requires forall i :: 0 <= i < |xs| ==> Round2(xs[i]) == xs[i]
    ensures MinOf(xs) <= Round2(Mean(xs)) <= MaxOf(xs)
  {
    MeanWithinRange(xs);
    ExtremesAreElements(xs);
    Round2Monotone(MinOf(xs), Mean(xs));
    Round2Monotone(Mean(xs), MaxOf(xs));
  }

  // ---------------------------------------------------------------------
  // The handler

  datatype Trend = Improving | Stable | InsufficientData
  {
    function Name(): string
    {
      match this
      case Improving => "improving"
      case Stable => "stable"
      case InsufficientData => "insufficient data"
    }
  }

  datatype HistoryReport = HistoryReport(
    fieldId: string, fieldName: string, totalEntries: nat, history: seq<Entry>,
    trend: Trend, averageNdvi: real, season: Season)

  /** Entry k was built on day baseDay + 12k from the k-th draws. */
  predicate Scheduled(h: seq<Entry>, baseDay: int, draws: seq<EntryDraw>)
  {
    |h| == |draws| && forall k :: 0 <= k < |h| ==> h[k] == MakeEntry(baseDay + StepDays * k, draws[k])
  }

  /** A scheduled history is dated strictly increasingly, twelve days apart,
      inside the lookback window that ends before today. */
  lemma ScheduleDates(h: seq<Entry>, today: int, draws: seq<EntryDraw>)
    requires Scheduled(h, today - LookbackDays, draws) && |h| == HistoryLength
    ensures StrictlyDated(h)
    ensures forall i :: 0 < i < |h| ==> h[i].day == h[i - 1].day + StepDays
    ensures forall i :: 0 <= i < |h| ==> today - LookbackDays <= h[i].day < today
  {
  }

  /** Every stored NDVI value of a scheduled history has two decimals. */
  lemma ScheduleStoresHundredths(h: seq<Entry>, baseDay: int, draws: seq<EntryDraw>)
    requires Scheduled(h, baseDay, draws)
    ensures forall i :: 0 <= i < |h| ==> Round2(Ndvis(h)[i]) == Ndvis(h)[i]
  {
    forall x {:trigger Round2(Round2(x))}
      ensures Round2(Round2(x)) == Round2(x)
    {
      Round2Idempotent(x);
    }
  }

  /** field_history with the query's field_id, today's day number, the draws
      of the eight entries and the current month given. The entries come
      out in the order they were built (the sort changes nothing), the trend
      compares the last stored NDVI with the first, and the reported
      average lies between the smallest and the largest stored NDVI. */
  method FieldHistory(fieldId: Option<string>, today: int, draws: seq<EntryDraw>, month: Month)
    returns (r: HistoryReport)
    requires |draws| == HistoryLength
    ensures r.fieldId == fieldId.GetOr("1")
    ensures r.fieldName == "Agricultural Field #" + r.fieldId
    ensures r.totalEntries == |r.history| == HistoryLength
    ensures Scheduled(r.history, today - LookbackDays, draws)
    ensures r.trend == if r.history[|r.history| - 1].ndvi > r.history[0].ndvi then Improving else Stable
    ensures r.averageNdvi == Round2(Mean(Ndvis(r.history)))
    ensures MinOf(Ndvis(r.history)) <= r.averageNdvi <= MaxOf(Ndvis(r.history))
    ensures r.season == SeasonOf(month)
  {
    var id := fieldId.GetOr("1");
    var history: seq<Entry> := [];
    var baseDay := today - LookbackDays;
    for i := 0 to HistoryLength
      invariant |history| == i
      invariant forall k :: 0 <= k < i ==> history[k] == MakeEntry(baseDay + StepDays * k, draws[k])
    {
      history := history + [MakeEntry(baseDay + StepDays * i, draws[i])];
    }

    ghost var built := history;
    ScheduleDates(built, today, draws);
    history := SortByDate(history);
    SortedPermutationUnchanged(built, history);
    ScheduleStoresHundredths(history, baseDay, draws);

    var trend;
    if |history| >= 2 {
      trend := if history[|history| - 1].ndvi > history[0].ndvi then Improving else Stable;
    } else {
      trend := InsufficientData;
    }

    RoundedMeanWithinRange(Ndvis(history));
    var average := Round2(Sum(Ndvis(history)) / |history| as real);

    r := HistoryReport(id, "Agricultural Field #" + id, |history|, history, trend, average, SeasonOf(month));
  }
}
