/** The deterministic part of the field-analysis handler (POST
    /analyze-field): the presence check on the request body, the choice of
    recommendations, the derived statistics and the assembly of the reply.
    Every random draw is a field of `AnalysisDraws` and the current month is
    a parameter. */
module Analysis {
  import opened Wrappers
  import opened Rounding
  import opened NdviBands
  import opened Seasons

  // ---------------------------------------------------------------------
  // The request body

  /** A decoded JSON value. */
  datatype Json =
    | JNull
    | JBool(b: bool)
    | JNumber(n: real)
    | JString(s: string)
    | JArray(items: seq<Json>)
    | JObject(fields: map<string, Json>)

  /** Python truthiness of a decoded JSON value: null, false, zero and empty
      strings, lists and dictionaries are false. */
  predicate Truthy(j: Json)
  {
    match j
    case JNull => false
    case JBool(b) => b
    case JNumber(n) => n != 0.0
    case JString(s) => s != ""
    case JArray(items) => items != []
    case JObject(fields) => fields != map[]
  }

  /** `part` occurs in `s` as a contiguous piece (Python's `in` on strings). */
  predicate HasSubstring(s: string, part: string)
    decreases |s|
  {
    part <= s || (s != [] && HasSubstring(s[1..], part))
  }

  /** The false values are exactly null, false, zero, the empty string, the
      empty list and the empty dictionary. */
  lemma FalsyValues(j: Json)
    ensures !Truthy(j) <==> j in {JNull, JBool(false), JNumber(0.0), JString(""), JArray([]), JObject(map[])}
  {
  }

  /** `part in s` holds exactly when `part` starts at some position of `s`. */
  lemma {:induction false} HasSubstringOccurs(s: string, part: string)
    ensures HasSubstring(s, part) <==> exists i :: 0 <= i <= |s| && part <= s[i..]
    decreases |s|
  {
    if HasSubstring(s, part) {
      if part <= s {
        assert s[0..] == s;
      } else {
        HasSubstringOccurs(s[1..], part);
        var i :| 0 <= i <= |s[1..]| && part <= s[1..][i..];
        assert s[1..][i..] == s[i + 1..];
      }
    }
    if exists i :: 0 <= i <= |s| && part <= s[i..] {
      var i :| 0 <= i <= |s| && part <= s[i..];
      if i > 0 {
        assert s[1..][i - 1..] == s[i..];
        HasSubstringOccurs(s[1..], part);
      }
    }
  }

  /** What the presence check makes of a body. */
  datatype BodyCheck =
    | Accepted(fields: map<string, Json>)
      /** `not data or 'bounds' not in data` holds: 400. */
    | MissingBounds
      /** The check raises (a number or `true` is not iterable) or lets
          through a list or string that has no `.get`: the handler's
          exception path, 500. */
    | Unprocessable

  /** `if not data or 'bounds' not in data`, then `data.get(...)`: only a
      dictionary with a "bounds" key gets through; a missing body, a false
      body, a dictionary without the key, a list without the item "bounds"
      and a string without the substring are client errors. A list or
      string that does contain it passes the test but has no `.get`, and
      `in` on a number or `true` raises: both end in the 500 reply. */
  function CheckBody(body: Option<Json>): (r: BodyCheck)
    ensures r.Accepted? <==> body.Some? && body.value.JObject? && "bounds" in body.value.fields
    ensures r.Accepted? ==> r.fields == body.value.fields
    ensures body.None? || !Truthy(body.value) ==> r == MissingBounds
    ensures body.Some? && body.value.JObject? && "bounds" !in body.value.fields ==> r == MissingBounds
    ensures r == Unprocessable ==> body.Some? && Truthy(body.value) && !body.value.JObject?
    ensures body.Some? && body.value.JArray? && Truthy(body.value) ==>
      (r == Unprocessable <==> JString("bounds") in body.value.items)
    ensures body.Some? && body.value.JString? && Truthy(body.value) ==>
      (r == Unprocessable <==> exists i :: 0 <= i <= |body.value.s| && "bounds" <= body.value.s[i..])
    ensures body.Some? && (body.value.JNumber? || body.value.JBool?) && Truthy(body.value) ==>
      r == Unprocessable
  {
    if body.None? || !Truthy(body.value) then MissingBounds
    else
      match body.value
      case JObject(fields) => if "bounds" in fields then Accepted(fields) else MissingBounds
      case JArray(items) => if JString("bounds") in items then Unprocessable else MissingBounds
      case JString(s) =>
        HasSubstringOccurs(s, "bounds");
        if HasSubstring(s, "bounds") then Unprocessable else MissingBounds
      case _ => Unprocessable
  }

  /** `bounds[:2]`, evaluated for the log line after the check: the first
      two items of a list or characters of a string. Any other value cannot
      be sliced; the slice raises and the handler answers 500. */
  function FirstTwo(bounds: Json): (r: Option<Json>)
    ensures r.Some? <==> bounds.JArray? || bounds.JString?
    ensures bounds.JArray? ==>
      && r.value.JArray? && r.value.items <= bounds.items
      && |r.value.items| == (if |bounds.items| < 2 then |bounds.items| else 2)
    ensures bounds.JString? ==>
      && r.value.JString? && r.value.s <= bounds.s
      && |r.value.s| == (if |bounds.s| < 2 then |bounds.s| else 2)
  {
    match bounds
    case JArray(items) => Some(JArray(if |items| < 2 then items else items[..2]))
    case JString(s) => Some(JString(if |s| < 2 then s else s[..2]))
    case _ => None
  }

  // ---------------------------------------------------------------------
  // The random draws of one analysis

  datatype Crop = Wheat | Rice | Corn | Cotton | Soybean | Sugarcane

  datatype Sky = Sunny | PartlyCloudy | Clear

  datatype AnalysisDraws = AnalysisDraws(
    serial: int,       // randint(1000, 9999), for the default field name
    ndvi: real,        // uniform(0.25, 0.85)
    crop: Crop,        // choice of six crops
    area: real,        // uniform(5, 50)
    pixels: int,       // randint(100000, 300000)
    cloud: int,        // randint(0, 20), percent
    rainDays: int,     // randint(0, 14), days since rainfall
    temperature: int,  // randint(20, 35), degrees Celsius
    humidity: int,     // randint(40, 85), percent
    sky: Sky)          // choice of three conditions

  /** The ranges the random source draws from. */
  predicate InRange(d: AnalysisDraws)
  {
    && 1000 <= d.serial <= 9999
    && 0.25 <= d.ndvi <= 0.85
    && 5.0 <= d.area <= 50.0
    && 100000 <= d.pixels <= 300000
    && 0 <= d.cloud <= 20
    && 0 <= d.rainDays <= 14
    && 20 <= d.temperature <= 35
    && 40 <= d.humidity <= 85
  }

  // ---------------------------------------------------------------------
  // The reply

  /** The field name: the request's "name" value when present (whatever its
      JSON type), otherwise "Field_" followed by the drawn serial. */
  datatype FieldName = Given(value: Json) | Generated(serial: int)

  datatype FieldInfo = FieldInfo(name: FieldName, areaAcres: real, crop: Crop, season: Season)

  datatype NdviReading = NdviReading(value: real, color: string, status: string, tag: string, interpretation: string)

  datatype Statistics = Statistics(
    meanNdvi: real, minNdvi: real, maxNdvi: real, healthScore: real,
    pixelsAnalyzed: int, cloudCoveragePct: int)

  datatype WeatherImpact = WeatherImpact(lastRainfallDaysAgo: int, temperatureC: int, humidityPct: int, condition: Sky)

  datatype Report = Report(
    field: FieldInfo, ndvi: NdviReading, statistics: Statistics,
    recommendations: seq<string>, weather: WeatherImpact, nextSteps: seq<string>)

  datatype Reply = Analysed(report: Report) | BadRequest(message: string) | InternalError
  {
    function StatusCode(): int
    {
      match this
      case Analysed(_) => 200
      case BadRequest(_) => 400
      case InternalError => 500
    }

    function Status(): string
    {
      if Analysed? then "success" else "error"
    }
  }

  // ---------------------------------------------------------------------
  // Recommendations

  const ExcellentAdvice: seq<string> := [
    "Excellent crop health! Maintain current practices.",
    "Optimal growth conditions detected.",
    "Consider harvesting in 2-3 weeks.",
    "Monitor soil moisture for consistency."]

  const GoodAdvice: seq<string> := [
    "Good vegetation health observed.",
    "Consider light fertilization in 10-14 days.",
    "Maintain current irrigation schedule.",
    "Check for early signs of pest activity."]

  const ModerateAdvice: seq<string> := [
    "Moderate stress detected in some areas.",
    "Increase irrigation frequency by 20%.",
    "Test soil for nutrient deficiencies.",
    "Consider adding organic compost."]

  const PoorAdvice: seq<string> := [
    "\U{26A0}\U{FE0F} Immediate attention required!",
    "Severe vegetation stress detected.",
    "Increase irrigation immediately.",
    "Conduct comprehensive soil testing.",
    "Consult agricultural expert if condition persists."]

  /** The advice list of each colour band. */
  function AdviceFor(c: NdviClass): seq<string>
  {
    match c
    case Excellent => ExcellentAdvice
    case Good => GoodAdvice
    case Moderate => ModerateAdvice
    case Poor => PoorAdvice
  }

  /** The handler's own threshold chain picks the advice of exactly the band
      get_ndvi_color reports: four items above 0.3, five at or below. */
  function Recommendations(v: real): (advice: seq<string>)
    ensures advice == AdviceFor(Classify(v))
    ensures |advice| == if v > 0.3 then 4 else 5
  {
    if v > 0.7 then ExcellentAdvice
    else if v > 0.5 then GoodAdvice
    else if v > 0.3 then ModerateAdvice
    else PoorAdvice
  }

  const NextSteps: seq<string> := [
    "Re-analyze in 7 days to track progress",
    "Compare with historical data",
    "Share report with farm manager"]

  // ---------------------------------------------------------------------
  // Statistics

  function Max(a: real, b: real): real { if a >= b then a else b }

  function Min(a: real, b: real): real { if a <= b then a else b }

  /** The statistics block around an NDVI value. */
  function Stats(v: real, pixels: int, cloud: int): (s: Statistics)
    ensures s.meanNdvi == v
    ensures Max(0.1, v - 0.2) - 0.005 < s.minNdvi <= Max(0.1, v - 0.2) + 0.005
    ensures Min(1.0, v + 0.15) - 0.005 < s.maxNdvi <= Min(1.0, v + 0.15) + 0.005
    ensures (s.minNdvi * 100.0).Floor as real == s.minNdvi * 100.0
    ensures (s.maxNdvi * 100.0).Floor as real == s.maxNdvi * 100.0
    ensures 0.1 <= s.minNdvi && s.maxNdvi <= 1.0
    ensures v * 100.0 - 0.05 < s.healthScore <= v * 100.0 + 0.05
    ensures (s.healthScore * 10.0).Floor as real == s.healthScore * 10.0
    ensures s.pixelsAnalyzed == pixels && s.cloudCoveragePct == cloud
  {
    Round2OfHundredths(10);
    Round2OfHundredths(100);
    Round2Monotone(0.1, Max(0.1, v - 0.2));
    Round2Monotone(Min(1.0, v + 0.15), 1.0);
    Statistics(
      v,
      Round2(Max(0.1, v - 0.2)),
      Round2(Min(1.0, v + 0.15)),
      Round1(v * 100.0),
      pixels,
      cloud)
  }

  /** For a value in the generated range the clamped bounds enclose it and
      stay within [0.1, 1.0]; for a two-decimal value the health score is
      exactly the value in percent. */
  lemma StatisticsBounds(v: real, pixels: int, cloud: int)
    requires 0.25 <= v <= 0.85
    ensures var s := Stats(v, pixels, cloud);
      && s.meanNdvi == v
      && 0.1 <= s.minNdvi <= v <= s.maxNdvi <= 1.0
      && (Round2(v) == v ==> s.healthScore == v * 100.0)
  {
    Round2OfHundredths(10);
    Round2OfHundredths(100);
    Round2Monotone(0.1, Max(0.1, v - 0.2));
    Round2Monotone(Min(1.0, v + 0.15), 1.0);
    if Round2(v) == v {
      var k := (v * 100.0 + 0.5).Floor;
      assert v == k as real / 100.0;
      assert v * 100.0 == k as real;
      Round1OfWhole(k);
    }
  }

  // ---------------------------------------------------------------------
  // The handler

  /** The body passes the presence check and its "bounds" value can be
      sliced: the handler runs to its success reply. */
  predicate Admitted(body: Option<Json>)
  {
    && CheckBody(body).Accepted?
    && (CheckBody(body).fields["bounds"].JArray? || CheckBody(body).fields["bounds"].JString?)
  }

  /** analyze_field for a POST request, with the draws and the month given. */
  function AnalyzeField(body: Option<Json>, draws: AnalysisDraws, month: Month): (r: Reply)
    ensures r.Analysed? <==> Admitted(body)
    ensures r.BadRequest? <==> CheckBody(body) == MissingBounds
    ensures r.InternalError? <==>
      (CheckBody(body) == Unprocessable ||
       (CheckBody(body).Accepted? && FirstTwo(CheckBody(body).fields["bounds"]).None?))
    ensures r.BadRequest? ==> r.StatusCode() == 400 && r.message == "No field bounds provided"
    ensures r.Analysed? ==>
      var rep := r.report;
      && rep.ndvi.value == Round2(draws.ndvi)
      && (rep.ndvi.color, rep.ndvi.status, rep.ndvi.tag) == NdviColor(rep.ndvi.value)
      && rep.ndvi.interpretation == Interpretation(rep.ndvi.value)
      && rep.recommendations == AdviceFor(Classify(rep.ndvi.value))
      && rep.statistics == Stats(rep.ndvi.value, draws.pixels, draws.cloud)
      && rep.field.areaAcres == Round1(draws.area)
      && rep.field.crop == draws.crop
      && rep.field.season == SeasonOf(month)
      && rep.weather == WeatherImpact(draws.rainDays, draws.temperature, draws.humidity, draws.sky)
      && rep.nextSteps == NextSteps
      && rep.field.name == (if "name" in CheckBody(body).fields
                            then Given(CheckBody(body).fields["name"])
                            else Generated(draws.serial))
  {
    match CheckBody(body)
    case MissingBounds => BadRequest("No field bounds provided")
    case Unprocessable => InternalError
    case Accepted(fields) =>
      if FirstTwo(fields["bounds"]).None? then InternalError
      else
      var name := if "name" in fields then Given(fields["name"]) else Generated(draws.serial);
      var ndvi := Round2(draws.ndvi);
      var (color, status, tag) := NdviColor(ndvi);
      Analysed(Report(
        FieldInfo(name, Round1(draws.area), draws.crop, SeasonOf(month)),
        NdviReading(ndvi, color, status, tag, Interpretation(ndvi)),
        Stats(ndvi, draws.pixels, draws.cloud),
        Recommendations(ndvi),
        WeatherImpact(draws.rainDays, draws.temperature, draws.humidity, draws.sky),
        NextSteps))
  }

  /** With draws from the random source's ranges, a successful reply carries
      a two-decimal NDVI in [0.25, 0.85], statistics ordered around it, a
      health score equal to the value in percent, and five recommendations
      exactly when the class tag is "poor". */
  lemma AnalysisReportSound(body: Option<Json>, draws: AnalysisDraws, month: Month)
    requires InRange(draws) && Admitted(body)
    ensures var rep := AnalyzeField(body, draws, month).report;
      && 0.25 <= rep.ndvi.value <= 0.85
      && Round2(rep.ndvi.value) == rep.ndvi.value
      && 0.1 <= rep.statistics.minNdvi <= rep.ndvi.value <= rep.statistics.maxNdvi <= 1.0
      && rep.statistics.healthScore == rep.ndvi.value * 100.0
      && (|rep.recommendations| == 5 <==> rep.ndvi.tag == "poor")
      && |rep.recommendations| >= 4
  {
    var v := Round2(draws.ndvi);
    Round2OfHundredths(25);
    Round2OfHundredths(85);
    Round2Monotone(0.25, draws.ndvi);
    Round2Monotone(draws.ndvi, 0.85);
    Round2Idempotent(draws.ndvi);
    StatisticsBounds(v, draws.pixels, draws.cloud);
  }

  /** A dictionary whose "bounds" value is null, a number, a boolean or a
      dictionary passes the presence check, yet the reply is the 500 error:
      slicing that value for the log line raises. */
  lemma UnsliceableBoundsFail(fields: map<string, Json>, draws: AnalysisDraws, month: Month)
    requires "bounds" in fields && !fields["bounds"].JArray? && !fields["bounds"].JString?
    ensures CheckBody(Some(JObject(fields))).Accepted?
    ensures AnalyzeField(Some(JObject(fields)), draws, month) == InternalError
  {
  }
}
