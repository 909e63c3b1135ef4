/** The storage-risk scoring function (src/services/etcl/etclLogic.ts):
    three stresses in [0, 1] (humidity, temperature, rain), their maximum
    mapped to a risk bucket and an ETCL ("estimated time to crop loss")
    window in hours, a dominant cause, and a bilingual summary. */
module EtclLogic {
  import opened Common
  import opened Models
  import opened LocalizedTemplate

  datatype EtclContext = EtclContext(
    cropName: LocalizedString,
    idealHumidity: real,
    badHumidity: real,
    idealTemperature: real,
    badTemperature: real,
    sensitiveToRain: bool,
    currentMoisturePercent: Option<real>,
    temperatureC: Option<real>,
    humidityPercent: Option<real>,
    rainProbabilityPercent: Option<real>)

  /** The optional message templates; no options is both absent. */
  datatype EtclOptions = EtclOptions(
    highHumidityTemplate: Option<LocalizedString>,
    highTemperatureTemplate: Option<LocalizedString>)

  /** Number-to-text formatting, supplied by the caller: `fmt1(v)` stands for
      `String(Number(v.toFixed(1)))` and `fmt0(v)` for `String(Math.round(v))`. */
  datatype Formats = Formats(fmt1: real -> string, fmt0: real -> string)

  datatype EtclResult = EtclResult(
    etclHours: Option<int>,
    riskLevel: RiskLevel,
    riskType: RiskType,
    summary: LocalizedString)

  // ---------------------------------------------------------------- stresses

  function Min(a: real, b: real): real { if a <= b then a else b }
  function Max(a: real, b: real): real { if a >= b then a else b }

  /** `Math.max(0, Math.min(1, x))` */
  function Clamp01(x: real): (r: real)
    ensures 0.0 <= r <= 1.0
    ensures x <= 0.0 ==> r == 0.0
    ensures x >= 1.0 ==> r == 1.0
    ensures 0.0 <= x <= 1.0 ==> r == x
  {
    Max(0.0, Min(1.0, x))
  }

  lemma Clamp01Monotone(x: real, y: real)
    requires x <= y
    ensures Clamp01(x) <= Clamp01(y)
  {
  }

  /** Humidity and temperature stress: the clamped position of the value on the
      ramp from `ideal` to `bad`; zero when the value is unknown or the ramp
      is empty or reversed (bad <= ideal). */
  function RampStress(value: Option<real>, ideal: real, bad: real): (s: real)
    ensures 0.0 <= s <= 1.0
    ensures value.None? || bad <= ideal ==> s == 0.0
  {
    if value.Some? && bad > ideal then Clamp01((value.value - ideal) / (bad - ideal)) else 0.0
  }

  lemma DivMonotone(a: real, b: real, d: real)
    requires a <= b && d > 0.0
    ensures a / d <= b / d
  {
    assert b / d - a / d == (b - a) / d;
  }

  /** The ramp is monotone non-decreasing in the weather value. */
  lemma RampMonotone(v1: real, v2: real, ideal: real, bad: real)
    requires v1 <= v2
    ensures RampStress(Some(v1), ideal, bad) <= RampStress(Some(v2), ideal, bad)
  {
    if bad > ideal {
      DivMonotone(v1 - ideal, v2 - ideal, bad - ideal);
      Clamp01Monotone((v1 - ideal) / (bad - ideal), (v2 - ideal) / (bad - ideal));
    }
  }

  /** At or below the ideal value there is no stress. */
  lemma RampZeroAtOrBelowIdeal(v: real, ideal: real, bad: real)
    requires v <= ideal
    ensures RampStress(Some(v), ideal, bad) == 0.0
  {
    if bad > ideal {
      DivMonotone(v - ideal, 0.0, bad - ideal);
    }
  }

  /** At or above the bad value the stress is full, when the ramp is proper. */
  lemma RampOneAtOrAboveBad(v: real, ideal: real, bad: real)
    requires bad > ideal && v >= bad
    ensures RampStress(Some(v), ideal, bad) == 1.0
  {
    DivMonotone(bad - ideal, v - ideal, bad - ideal);
  }

  /** Between ideal and bad the stress is the linear position on the ramp. */
  lemma RampLinearInside(v: real, ideal: real, bad: real)
    requires bad > ideal && ideal <= v <= bad
    ensures RampStress(Some(v), ideal, bad) == (v - ideal) / (bad - ideal)
  {
    DivMonotone(0.0, v - ideal, bad - ideal);
    DivMonotone(v - ideal, bad - ideal, bad - ideal);
  }

  /** Rain stress: the clamped probability as a fraction, only for crops whose
      storage is sensitive to rain and only when the probability is known. */
  function RainStress(sensitiveToRain: bool, rain: Option<real>): (s: real)
    ensures 0.0 <= s <= 1.0
    ensures !sensitiveToRain || rain.None? ==> s == 0.0
    ensures sensitiveToRain && rain.Some? && 0.0 <= rain.value <= 100.0 ==> s == rain.value / 100.0
  {
    if sensitiveToRain && rain.Some? then Clamp01(rain.value / 100.0) else 0.0
  }

  function HumidityStress(ctx: EtclContext): real {
    RampStress(ctx.humidityPercent, ctx.idealHumidity, ctx.badHumidity)
  }

  function TemperatureStress(ctx: EtclContext): real {
    RampStress(ctx.temperatureC, ctx.idealTemperature, ctx.badTemperature)
  }

  function RainStressOf(ctx: EtclContext): real {
    RainStress(ctx.sensitiveToRain, ctx.rainProbabilityPercent)
  }

  /** `Math.max(a, b, c)` */
  function Max3(a: real, b: real, c: real): (m: real)
    ensures m >= a && m >= b && m >= c
    ensures m == a || m == b || m == c
  {
    Max(a, Max(b, c))
  }

  function MaxStress(ctx: EtclContext): (m: real)
    ensures 0.0 <= m <= 1.0
  {
    Max3(HumidityStress(ctx), TemperatureStress(ctx), RainStressOf(ctx))
  }

  // ---------------------------------------------------------------- buckets

  function RiskLevelOf(maxStress: real): RiskLevel {
    if maxStress <= 0.2 then Low
    else if maxStress <= 0.5 then Medium
    else if maxStress <= 0.8 then High
    else Critical
  }

  function EtclHoursOf(level: RiskLevel): int {
    match level
    case Low => 96
    case Medium => 48
    case High => 24
    case Critical => 6
  }

  /** The buckets are the intervals (-inf, 0.2], (0.2, 0.5], (0.5, 0.8], (0.8, +inf),
      each upper bound belonging to the lower-risk bucket. */
  lemma RiskBuckets(m: real)
    ensures RiskLevelOf(m) == Low <==> m <= 0.2
    ensures RiskLevelOf(m) == Medium <==> 0.2 < m <= 0.5
    ensures RiskLevelOf(m) == High <==> 0.5 < m <= 0.8
    ensures RiskLevelOf(m) == Critical <==> 0.8 < m
    ensures EtclHoursOf(RiskLevelOf(m)) in {96, 48, 24, 6}
  {
  }

  /** More stress never lowers the risk level nor lengthens the ETCL window. */
  lemma RiskLevelMonotone(m1: real, m2: real)
    requires m1 <= m2
    ensures RiskLevelOf(m1).Severity() <= RiskLevelOf(m2).Severity()
    ensures EtclHoursOf(RiskLevelOf(m1)) >= EtclHoursOf(RiskLevelOf(m2))
  {
  }

  // ---------------------------------------------------------------- dominant cause

  /** The comparison chain of the source. */
  function Dominant(humidity: real, temperature: real, rain: real): RiskType {
    if Max3(humidity, temperature, rain) == 0.0 then Normal
    else if humidity >= temperature && humidity >= rain then HighHumidity
    else if temperature >= humidity && temperature >= rain then HighTemperature
    else if rain >= humidity && rain >= temperature then HighRainProbability
    else CombinedRisk
  }

  /** A stable maximum with priority: the first position holding the largest value. */
  function FirstMaximal(values: seq<real>): (k: nat)
    requires |values| > 0
    ensures k < |values|
    ensures forall j :: 0 <= j < |values| ==> values[j] <= values[k]
    ensures forall j :: 0 <= j < k ==> values[j] < values[k]
  {
    if |values| == 1 then 0
    else
      var k' := FirstMaximal(values[1..]);
      if values[0] >= values[1 + k'] then 0 else 1 + k'
  }

  /** The causes in priority order: humidity, then temperature, then rain. */
  const Causes: seq<RiskType> := [HighHumidity, HighTemperature, HighRainProbability]

  /** The comparison chain equals the independent reference: "Normal" without
      stress, otherwise the first cause, in priority order, whose stress is maximal. */
  lemma DominantIsFirstMaximal(humidity: real, temperature: real, rain: real)
    ensures Dominant(humidity, temperature, rain) ==
      if Max3(humidity, temperature, rain) == 0.0 then Normal
      else Causes[FirstMaximal([humidity, temperature, rain])]
  {
    var vs := [humidity, temperature, rain];
    var k := FirstMaximal(vs);
    assert vs[0] == humidity && vs[1] == temperature && vs[2] == rain;
  }

  /** "Combined risk" is unreachable: some stress always equals the maximum. */
  lemma CombinedRiskUnreachable(humidity: real, temperature: real, rain: real)
    ensures Dominant(humidity, temperature, rain) != CombinedRisk
  {
  }

  /** The dominant cause is "Normal" exactly when there is no stress, and a
      named cause's stress is the maximum, no higher-priority cause reaching it. */
  lemma DominantCause(humidity: real, temperature: real, rain: real)
    ensures var t := Dominant(humidity, temperature, rain); var m := Max3(humidity, temperature, rain);
      && (t == Normal <==> m == 0.0)
      && (t == HighHumidity ==> humidity == m)
      && (t == HighTemperature ==> temperature == m && humidity < m)
      && (t == HighRainProbability ==> rain == m && humidity < m && temperature < m)
  {
  }

  // ---------------------------------------------------------------- summary

  const FallbackCropName: string := "ফসল"
  const UnknownValue: string := "–"

  /** `cropName.bn || cropName.en || "ফসল"` */
  function CropLabel(name: LocalizedString): (s: string)
    ensures s != ""
    ensures Truthy(name.bn) ==> s == name.bn.value
    ensures !Truthy(name.bn) && Truthy(name.en) ==> s == name.en.value
    ensures !Truthy(name.bn) && !Truthy(name.en) ==> s == FallbackCropName
  {
    if Truthy(name.bn) then name.bn.value
    else if Truthy(name.en) then name.en.value
    else FallbackCropName
  }

  /** A formatted value, or "–" when it is unknown. */
  function Display(v: Option<real>, fmt: real -> string): string {
    if v.Some? then fmt(v.value) else UnknownValue
  }

  /** The placeholders of the high-humidity template, in the source's order. */
  function HumidityVars(ctx: EtclContext, f: Formats): seq<(string, string)> {
    [ ("cropName", CropLabel(ctx.cropName)),
      ("currentHumidity", Display(ctx.humidityPercent, f.fmt0)),
      ("idealHumidity", f.fmt0(ctx.idealHumidity)),
      ("currentMoisture", Display(ctx.currentMoisturePercent, f.fmt1)),
      ("idealMoisture", f.fmt0(ctx.idealHumidity)) ]
  }

  /** The placeholders of the high-temperature template, in the source's order. */
  function TemperatureVars(ctx: EtclContext, f: Formats): seq<(string, string)> {
    [ ("cropName", CropLabel(ctx.cropName)),
      ("currentTemp", Display(ctx.temperatureC, f.fmt1)),
      ("idealTemp", f.fmt1(ctx.idealTemperature)) ]
  }

  /** One language of an optional rendered message, when it is non-empty. */
  function MessagePart(message: Option<LocalizedString>, lang: Lang): seq<string> {
    if message.Some? && Truthy(message.value.Get(lang)) then [message.value.Get(lang).value] else []
  }

  const LowRiskBn: string := "বর্তমান তাপমাত্রা ও আর্দ্রতায় সংরক্ষণের ঝুঁকি কম। তবে নিয়মিত বাতাস চলাচল ও পরিষ্কার-পরিচ্ছন্নতা ঠিক রাখুন।"
  const RaisedRiskBn: string := "বর্তমান তাপমাত্রা ও আর্দ্রতায় ফসল নষ্ট হওয়ার ঝুঁকি বাড়তে পারে। যত দ্রুত সম্ভব গুদাম ও সংরক্ষণ ব্যবস্থা পরীক্ষা করুন।"
  const LowRiskEn: string := "At the current temperature and humidity, storage risk is low. Keep ventilation and cleanliness in good condition."
  const RaisedRiskEn: string := "At the current temperature and humidity, the risk of spoilage may increase. Please check your storage conditions soon."
  const EtclPrefixBn: string := "এই অবস্থায় আনুমানিক "
  const EtclSuffixBn: string := " ঘণ্টার মধ্যে উল্লেখযোগ্য ক্ষতি শুরু হতে পারে।"
  const EtclPrefixEn: string := "In this condition, significant losses may start in approximately "
  const EtclSuffixEn: string := " hours."
  const NoEstimateBn: string := "পর্যাপ্ত তথ্য না থাকায় সঠিক সময় অনুমান করা যায়নি। সংরক্ষণ ব্যবস্থা নিয়মিত নজরে রাখুন।"
  const NoEstimateEn: string := "Due to limited data, we cannot estimate the exact time to damage. Please monitor your storage frequently."

  /** The sentence used when no message was rendered: a reassuring one at low
      risk, a warning one otherwise. */
  function FallbackSentence(lang: Lang, level: RiskLevel): string {
    match lang
    case Bn => if level == Low then LowRiskBn else RaisedRiskBn
    case En => if level == Low then LowRiskEn else RaisedRiskEn
  }

  /** The closing sentence: the ETCL window, or the insufficient-data sentence
      when no window is known. */
  function EtclSentence(lang: Lang, hours: Option<int>): string {
    match lang
    case Bn => if hours.Some? then EtclPrefixBn + IntToString(hours.value) + EtclSuffixBn else NoEstimateBn
    case En => if hours.Some? then EtclPrefixEn + IntToString(hours.value) + EtclSuffixEn else NoEstimateEn
  }

  /** The parts of one language of the summary, before joining with " ". */
  function SummaryParts(humidityMessage: Option<LocalizedString>, tempMessage: Option<LocalizedString>,
                        level: RiskLevel, hours: Option<int>, lang: Lang): seq<string>
  {
    var messages := MessagePart(humidityMessage, lang) + MessagePart(tempMessage, lang);
    (if messages == [] then [FallbackSentence(lang, level)] else messages) + [EtclSentence(lang, hours)]
  }

  /** The specification of `computeEtcl`. */
  function Etcl(ctx: EtclContext, options: EtclOptions, f: Formats): EtclResult {
    var level := RiskLevelOf(MaxStress(ctx));
    var hours := Some(EtclHoursOf(level));
    var hm := RenderedTemplate(options.highHumidityTemplate, HumidityVars(ctx, f));
    var tm := RenderedTemplate(options.highTemperatureTemplate, TemperatureVars(ctx, f));
    EtclResult(
      hours,
      level,
      Dominant(HumidityStress(ctx), TemperatureStress(ctx), RainStressOf(ctx)),
      LocalizedString(
        Some(Join(SummaryParts(hm, tm, level, hours, Bn), " ")),
        Some(Join(SummaryParts(hm, tm, level, hours, En), " "))))
  }

  /** One language's summary parts, built as the source builds them: the
      rendered messages that are non-empty, else the fallback sentence, then
      the ETCL sentence. */
  method CollectSummaryParts(hm: Option<LocalizedString>, tm: Option<LocalizedString>,
                             level: RiskLevel, hours: Option<int>, lang: Lang) returns (parts: seq<string>)
    ensures parts == SummaryParts(hm, tm, level, hours, lang)
  {
    parts := [];
    if hm.Some? && Truthy(hm.value.Get(lang)) {
      parts := parts + [hm.value.Get(lang).value];
    }
    if tm.Some? && Truthy(tm.value.Get(lang)) {
      parts := parts + [tm.value.Get(lang).value];
    }
    assert parts == MessagePart(hm, lang) + MessagePart(tm, lang);
    if |parts| == 0 {
      parts := parts + [FallbackSentence(lang, level)];
    }
    parts := parts + [EtclSentence(lang, hours)];
  }

  /** `computeEtcl(ctx, options)`, step by step. */
  method ComputeEtcl(ctx: EtclContext, options: EtclOptions, f: Formats) returns (res: EtclResult)
    ensures res == Etcl(ctx, options, f)
  {
    var humidityStress := 0.0;
    if ctx.humidityPercent.Some? && ctx.badHumidity > ctx.idealHumidity {
      var diff := ctx.humidityPercent.value - ctx.idealHumidity;
      var span := ctx.badHumidity - ctx.idealHumidity;
      humidityStress := Clamp01(diff / span);
    }
    assert humidityStress == HumidityStress(ctx);

    var tempStress := 0.0;
    if ctx.temperatureC.Some? && ctx.badTemperature > ctx.idealTemperature {
      var diff := ctx.temperatureC.value - ctx.idealTemperature;
      var span := ctx.badTemperature - ctx.idealTemperature;
      tempStress := Clamp01(diff / span);
    }
    assert tempStress == TemperatureStress(ctx);

    var rainStress := 0.0;
    if ctx.sensitiveToRain && ctx.rainProbabilityPercent.Some? {
      rainStress := Clamp01(ctx.rainProbabilityPercent.value / 100.0);
    }
    assert rainStress == RainStressOf(ctx);

    var maxStress := Max3(humidityStress, tempStress, rainStress);

    var riskLevel: RiskLevel;
    var etclHours: Option<int>;
    if maxStress <= 0.2 {
      riskLevel, etclHours := Low, Some(96);
    } else if maxStress <= 0.5 {
      riskLevel, etclHours := Medium, Some(48);
    } else if maxStress <= 0.8 {
      riskLevel, etclHours := High, Some(24);
    } else {
      riskLevel, etclHours := Critical, Some(6);
    }
    assert riskLevel == RiskLevelOf(MaxStress(ctx)) && etclHours == Some(EtclHoursOf(riskLevel));

    var riskType: RiskType;
    if maxStress == 0.0 {
      riskType := Normal;
    } else if humidityStress >= tempStress && humidityStress >= rainStress {
      riskType := HighHumidity;
    } else if tempStress >= humidityStress && tempStress >= rainStress {
      riskType := HighTemperature;
    } else if rainStress >= humidityStress && rainStress >= tempStress {
      riskType := HighRainProbability;
    } else {
      riskType := CombinedRisk;
    }
    assert riskType == Dominant(HumidityStress(ctx), TemperatureStress(ctx), RainStressOf(ctx));

    var humidityMessage := RenderLocalizedTemplate(options.highHumidityTemplate, HumidityVars(ctx, f));
    var tempMessage := RenderLocalizedTemplate(options.highTemperatureTemplate, TemperatureVars(ctx, f));

    var bnParts := CollectSummaryParts(humidityMessage, tempMessage, riskLevel, etclHours, Bn);
    var enParts := CollectSummaryParts(humidityMessage, tempMessage, riskLevel, etclHours, En);

    res := EtclResult(etclHours, riskLevel, riskType,
                      LocalizedString(Some(Join(bnParts, " ")), Some(Join(enParts, " "))));
  }

  // ---------------------------------------------------------------- properties of the result

  /** The ETCL window is always known: it is the bucket's hours, so the
      insufficient-data sentence is never chosen. */
  lemma EtclHoursAlwaysKnown(ctx: EtclContext, options: EtclOptions, f: Formats)
    ensures Etcl(ctx, options, f).etclHours == Some(EtclHoursOf(Etcl(ctx, options, f).riskLevel))
    ensures Etcl(ctx, options, f).riskLevel == RiskLevelOf(MaxStress(ctx))
  {
  }

  /** Each language of the summary ends with the ETCL sentence stating the hours. */
  lemma SummaryEndsWithEtclSentence(ctx: EtclContext, options: EtclOptions, f: Formats, lang: Lang)
    ensures var r := Etcl(ctx, options, f);
      && r.summary.Get(lang).Some?
      && EndsWith(r.summary.Get(lang).value, EtclSentence(lang, r.etclHours))
      && r.etclHours.Some?
  {
    var r := Etcl(ctx, options, f);
    var hm := RenderedTemplate(options.highHumidityTemplate, HumidityVars(ctx, f));
    var tm := RenderedTemplate(options.highTemperatureTemplate, TemperatureVars(ctx, f));
    var messages := MessagePart(hm, lang) + MessagePart(tm, lang);
    var front := if messages == [] then [FallbackSentence(lang, r.riskLevel)] else messages;
    assert SummaryParts(hm, tm, r.riskLevel, r.etclHours, lang) == front + [EtclSentence(lang, r.etclHours)];
    JoinSnoc(front, EtclSentence(lang, r.etclHours), " ");
  }

  /** The rendered messages appear whatever the risk level; only when there is
      no message does the level choose the fallback sentence. */
  lemma SummaryPartsByLevel(hm: Option<LocalizedString>, tm: Option<LocalizedString>,
                            level1: RiskLevel, level2: RiskLevel, hours: Option<int>, lang: Lang)
    ensures MessagePart(hm, lang) + MessagePart(tm, lang) != [] ==>
      SummaryParts(hm, tm, level1, hours, lang) == SummaryParts(hm, tm, level2, hours, lang)
    ensures MessagePart(hm, lang) + MessagePart(tm, lang) == [] ==>
      SummaryParts(hm, tm, level1, hours, lang) == [FallbackSentence(lang, level1), EtclSentence(lang, hours)]
  {
  }

  /** The low-risk fallback sentence is chosen exactly when the level is low. */
  lemma FallbackDistinguishesLow(lang: Lang, level: RiskLevel)
    ensures FallbackSentence(lang, level) == FallbackSentence(lang, Low) <==> level == Low
  {
    if level != Low {
      assert |FallbackSentence(lang, level)| != |FallbackSentence(lang, Low)|;
    }
  }

  /** Higher humidity, temperature or rain probability never lowers the risk level. */
  lemma {:induction false} EtclLevelMonotone(ctx: EtclContext, h2: real, t2: real, r2: real,
                                             options: EtclOptions, f: Formats)
    requires ctx.humidityPercent.Some? && ctx.humidityPercent.value <= h2
    requires ctx.temperatureC.Some? && ctx.temperatureC.value <= t2
    requires ctx.rainProbabilityPercent.Some? && ctx.rainProbabilityPercent.value <= r2
    ensures var ctx2 := ctx.(humidityPercent := Some(h2), temperatureC := Some(t2), rainProbabilityPercent := Some(r2));
      Etcl(ctx, options, f).riskLevel.Severity() <= Etcl(ctx2, options, f).riskLevel.Severity()
  {
    var ctx2 := ctx.(humidityPercent := Some(h2), temperatureC := Some(t2), rainProbabilityPercent := Some(r2));
    RampMonotone(ctx.humidityPercent.value, h2, ctx.idealHumidity, ctx.badHumidity);
    RampMonotone(ctx.temperatureC.value, t2, ctx.idealTemperature, ctx.badTemperature);
    if ctx.sensitiveToRain {
      DivMonotone(ctx.rainProbabilityPercent.value, r2, 100.0);
      Clamp01Monotone(ctx.rainProbabilityPercent.value / 100.0, r2 / 100.0);
    }
    assert MaxStress(ctx) <= MaxStress(ctx2);
    RiskLevelMonotone(MaxStress(ctx), MaxStress(ctx2));
  }
}
