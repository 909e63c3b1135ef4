/** The stage rule evaluator (src/services/etcl/stageWeatherRules.ts): the
    cycle's lifecycle stage selects a logical phase, the phase and the days
    since planting select the active stage of the crop definition, and that
    stage's weather rules whose bounds the current weather satisfies
    contribute their advice. */
module StageWeatherRules {
  import opened Common
  import opened Models

  datatype StageAdviceResult = StageAdviceResult(
    stage: Option<StageDefinition>,
    matchedRules: seq<WeatherRule>,
    combinedAdvice: Option<LocalizedString>)

  /** `mapStageToLogicalPhase` */
  function PhaseOf(stage: LifecycleStage): (p: Option<LogicalPhase>)
    ensures p.None? <==> stage == Planned
    ensures p == Some(GrowingPhase) <==> stage == Planted || stage == Growing
    ensures p == Some(PreHarvestPhase) <==> stage == PreHarvest
    ensures p == Some(HarvestWindow) <==> stage == Harvested
    ensures p == Some(PostHarvest) <==> stage == Stored || stage == Completed
  {
    match stage
    case Planted | Growing => Some(GrowingPhase)
    case PreHarvest => Some(PreHarvestPhase)
    case Harvested => Some(HarvestWindow)
    case Stored | Completed => Some(PostHarvest)
    case Planned => None
  }

  // ---------------------------------------------------------------- active stage

  const MsPerDay: int := 1000 * 60 * 60 * 24

  /** `plantedAt || plannedPlantingAt` */
  function PlantingAnchor(dates: Dates): (a: Option<Millis>)
    ensures a.None? <==> dates.plantedAt.None? && dates.plannedPlantingAt.None?
    ensures dates.plantedAt.Some? ==> a == dates.plantedAt
  {
    if dates.plantedAt.Some? then dates.plantedAt else dates.plannedPlantingAt
  }

  /** Whole days elapsed since the anchor date, rounded down (so negative
      before the anchor); unknown when neither date is set. */
  function DaysFromPlanting(dates: Dates, now: Millis): (d: Option<int>)
    ensures d.None? <==> PlantingAnchor(dates).None?
    ensures d.Some? ==>
      var elapsed := now - PlantingAnchor(dates).value;
      d.value * MsPerDay <= elapsed < (d.value + 1) * MsPerDay
  {
    var anchor := PlantingAnchor(dates);
    if anchor.Some? then Some((now - anchor.value) / MsPerDay) else None
  }

  /** The stages of one logical phase, in list order. */
  function Candidates(stages: seq<StageDefinition>, phase: LogicalPhase): (c: seq<StageDefinition>)
    ensures |c| <= |stages|
    ensures forall s :: s in c <==> s in stages && s.logicalPhase == phase
  {
    if stages == [] then []
    else (if stages[0].logicalPhase == phase then [stages[0]] else []) + Candidates(stages[1..], phase)
  }

  predicate InRange(s: StageDefinition, day: int) {
    s.minDayFromPlanting <= day <= s.maxDayFromPlanting
  }

  /** `candidates.find(...)`: the index of the first stage whose inclusive day
      range contains `day`. */
  function FirstInRange(cands: seq<StageDefinition>, day: int): (k: Option<nat>)
    ensures k.None? <==> forall i :: 0 <= i < |cands| ==> !InRange(cands[i], day)
    ensures k.Some? ==> k.value < |cands| && InRange(cands[k.value], day)
    ensures k.Some? ==> forall i :: 0 <= i < k.value ==> !InRange(cands[i], day)
  {
    if cands == [] then None
    else if InRange(cands[0], day) then Some(0)
    else
      var rest := FirstInRange(cands[1..], day);
      if rest.Some? then Some(1 + rest.value) else None
  }

  /** The head of the candidates after the stable sort by `order`: the first
      index holding the smallest order. */
  function LowestOrder(cands: seq<StageDefinition>): (k: nat)
    requires cands != []
    ensures k < |cands|
    ensures forall i :: 0 <= i < |cands| ==> cands[k].order <= cands[i].order
    ensures forall i :: 0 <= i < k ==> cands[i].order > cands[k].order
  {
    if |cands| == 1 then 0
    else
      var k' := LowestOrder(cands[1..]);
      if cands[0].order <= cands[1 + k'].order then 0 else 1 + k'
  }

  /** `findActiveStage(cropDef, cropCycle)` at time `now`. */
  function FindActiveStage(def: CropDefinition, cycle: CropCycle, now: Millis): (r: Option<StageDefinition>)
    ensures r.None? <==>
      PhaseOf(cycle.stage).None? ||
      forall s :: s in def.stages ==> s.logicalPhase != PhaseOf(cycle.stage).value
    ensures r.Some? ==> r.value in def.stages && Some(r.value.logicalPhase) == PhaseOf(cycle.stage)
  {
    var phase := PhaseOf(cycle.stage);
    if phase.None? then None
    else
      var cands := Candidates(def.stages, phase.value);
      if cands == [] then None
      else
        var days := DaysFromPlanting(cycle.dates, now);
        var hit := if days.Some? then FirstInRange(cands, days.value) else None;
        if hit.Some? then Some(cands[hit.value])
        else Some(cands[LowestOrder(cands)])
  }

  /** With a known day count inside some candidate's range, the active stage
      is the first such candidate in list order. */
  lemma ActiveStageByDay(def: CropDefinition, cycle: CropCycle, now: Millis)
    requires PhaseOf(cycle.stage).Some?
    requires DaysFromPlanting(cycle.dates, now).Some?
    ensures var cands := Candidates(def.stages, PhaseOf(cycle.stage).value);
      var k := FirstInRange(cands, DaysFromPlanting(cycle.dates, now).value);
      k.Some? ==> FindActiveStage(def, cycle, now) == Some(cands[k.value])
  {
  }

  /** Without a day count, or when no candidate's range holds it, the active
      stage is a candidate of least order, the first such in list order. */
  lemma ActiveStageFallback(def: CropDefinition, cycle: CropCycle, now: Millis)
    requires PhaseOf(cycle.stage).Some?
    requires Candidates(def.stages, PhaseOf(cycle.stage).value) != []
    ensures var cands := Candidates(def.stages, PhaseOf(cycle.stage).value);
      var days := DaysFromPlanting(cycle.dates, now);
      days.None? || FirstInRange(cands, days.value).None? ==>
        && FindActiveStage(def, cycle, now) == Some(cands[LowestOrder(cands)])
        && forall s :: s in cands ==> FindActiveStage(def, cycle, now).value.order <= s.order
  {
  }

  /** A cycle that is only planned has no active stage. */
  lemma PlannedHasNoActiveStage(def: CropDefinition, cycle: CropCycle, now: Millis)
    requires cycle.stage == Planned
    ensures FindActiveStage(def, cycle, now).None?
  {
  }

  // ---------------------------------------------------------------- weather rules

  /** `matchesWeatherRule`, check by check: a bound is applied only when it
      and the matching weather value are both present. */
  function MatchesWeatherRule(rule: WeatherRule, w: Weather): bool {
    var c := rule.condition;
    if c.minTempC.Some? && w.temperatureC.Some? && w.temperatureC.value < c.minTempC.value then false
    else if c.maxTempC.Some? && w.temperatureC.Some? && w.temperatureC.value > c.maxTempC.value then false
    else if c.minHumidity.Some? && w.humidityPercent.Some? && w.humidityPercent.value < c.minHumidity.value then false
    else if c.maxHumidity.Some? && w.humidityPercent.Some? && w.humidityPercent.value > c.maxHumidity.value then false
    else if c.minRainProb.Some? && w.rainProbabilityPercent.Some? && w.rainProbabilityPercent.value < c.minRainProb.value then false
    else if c.maxRainProb.Some? && w.rainProbabilityPercent.Some? && w.rainProbabilityPercent.value > c.maxRainProb.value then false
    else true
  }

  /** A lower bound that holds or does not apply. */
  predicate AtLeast(v: Option<real>, bound: Option<real>) {
    v.None? || bound.None? || v.value >= bound.value
  }

  /** An upper bound that holds or does not apply. */
  predicate AtMost(v: Option<real>, bound: Option<real>) {
    v.None? || bound.None? || v.value <= bound.value
  }

  /** Every bound holds or does not apply. */
  predicate WithinBounds(c: WeatherCondition, w: Weather) {
    && AtLeast(w.temperatureC, c.minTempC) && AtMost(w.temperatureC, c.maxTempC)
    && AtLeast(w.humidityPercent, c.minHumidity) && AtMost(w.humidityPercent, c.maxHumidity)
    && AtLeast(w.rainProbabilityPercent, c.minRainProb) && AtMost(w.rainProbabilityPercent, c.maxRainProb)
  }

  /** The check chain accepts exactly when every applicable bound holds. */
  lemma MatchesIffWithinBounds(rule: WeatherRule, w: Weather)
    ensures MatchesWeatherRule(rule, w) <==> WithinBounds(rule.condition, w)
  {
  }

  /** A rule without bounds, or weather with every value unknown, always matches. */
  lemma UnconstrainedMatches(rule: WeatherRule, w: Weather)
    ensures rule.condition == WeatherCondition(None, None, None, None, None, None) ==> MatchesWeatherRule(rule, w)
    ensures w == Weather(None, None, None) ==> MatchesWeatherRule(rule, w)
  {
  }

  /** `rules.filter(rule => matchesWeatherRule(rule, weather))` */
  function MatchedRules(rules: seq<WeatherRule>, w: Weather): (m: seq<WeatherRule>)
    ensures |m| <= |rules|
    ensures forall r :: r in m <==> r in rules && MatchesWeatherRule(r, w)
  {
    if rules == [] then []
    else (if MatchesWeatherRule(rules[0], w) then [rules[0]] else []) + MatchedRules(rules[1..], w)
  }

  /** The filter keeps the rules' order: a rule list that all matches comes
      back whole, and filtering distributes over concatenation. */
  lemma {:induction false} MatchedRulesAppend(a: seq<WeatherRule>, b: seq<WeatherRule>, w: Weather)
    ensures MatchedRules(a + b, w) == MatchedRules(a, w) + MatchedRules(b, w)
    decreases |a|
  {
    if a == [] {
      assert a + b == b;
    } else {
      assert (a + b)[0] == a[0];
      assert (a + b)[1..] == a[1..] + b;
      MatchedRulesAppend(a[1..], b, w);
    }
  }

  lemma {:induction false} MatchedRulesAllMatch(rules: seq<WeatherRule>, w: Weather)
    requires forall i :: 0 <= i < |rules| ==> MatchesWeatherRule(rules[i], w)
    ensures MatchedRules(rules, w) == rules
    decreases |rules|
  {
    if rules != [] {
      MatchedRulesAllMatch(rules[1..], w);
    }
  }

  // ---------------------------------------------------------------- advice

  /** The non-empty advice texts of one language, in rule order. */
  function AdviceTexts(rules: seq<WeatherRule>, lang: Lang): (texts: seq<string>)
    ensures |texts| <= |rules|
    ensures forall i :: 0 <= i < |texts| ==> texts[i] != ""
    ensures texts == [] <==> forall i :: 0 <= i < |rules| ==> !Truthy(rules[i].advice.Get(lang))
  {
    if rules == [] then []
    else
      var last := rules[|rules| - 1].advice.Get(lang);
      AdviceTexts(rules[..|rules| - 1], lang) + (if Truthy(last) then [last.value] else [])
  }

  /** A single rule contributes its advice text when it has a non-empty one. */
  lemma AdviceTextsOfOneRule(r: WeatherRule, lang: Lang)
    ensures AdviceTexts([r], lang) == (if Truthy(r.advice.Get(lang)) then [r.advice.Get(lang).value] else [])
  {
    assert [r][..0] == [];
  }

  /** The texts of a concatenation are the texts of each part in order, so with
      `AdviceTextsOfOneRule` the result is each rule's advice, in rule order. */
  lemma {:induction false} AdviceTextsAppend(a: seq<WeatherRule>, b: seq<WeatherRule>, lang: Lang)
    ensures AdviceTexts(a + b, lang) == AdviceTexts(a, lang) + AdviceTexts(b, lang)
    decreases |b|
  {
    if b == [] {
      assert a + b == a;
    } else {
      var b' := b[..|b| - 1];
      assert (a + b)[..|a + b| - 1] == a + b';
      assert (a + b)[|a + b| - 1] == b[|b| - 1];
      AdviceTextsAppend(a, b', lang);
    }
  }

  /** The specification of `combineLocalizedAdvices`. */
  function CombinedAdvice(rules: seq<WeatherRule>): (r: Option<LocalizedString>)
    ensures r.None? <==>
      forall i :: 0 <= i < |rules| ==> !Truthy(rules[i].advice.bn) && !Truthy(rules[i].advice.en)
    ensures r.Some? ==>
      r.value == LocalizedString(Some(Join(AdviceTexts(rules, Bn), " ")), Some(Join(AdviceTexts(rules, En), " ")))
  {
    if rules == [] then None
    else
      var bn := AdviceTexts(rules, Bn);
      var en := AdviceTexts(rules, En);
      if bn == [] && en == [] then None
      else Some(LocalizedString(Some(Join(bn, " ")), Some(Join(en, " "))))
  }

  /** `combineLocalizedAdvices(rules)`: collects the non-empty advice of each
      language in one pass and joins each language with " ". */
  method CombineLocalizedAdvices(rules: seq<WeatherRule>) returns (r: Option<LocalizedString>)
    ensures r == CombinedAdvice(rules)
  {
    if |rules| == 0 {
      return None;
    }
    var bnParts: seq<string> := [];
    var enParts: seq<string> := [];
    for i := 0 to |rules|
      invariant bnParts == AdviceTexts(rules[..i], Bn)
      invariant enParts == AdviceTexts(rules[..i], En)
    {
      assert rules[..i + 1][..i] == rules[..i];
      if Truthy(rules[i].advice.bn) {
        bnParts := bnParts + [rules[i].advice.bn.value];
      }
      if Truthy(rules[i].advice.en) {
        enParts := enParts + [rules[i].advice.en.value];
      }
    }
    assert rules[..|rules|] == rules;
    if |bnParts| == 0 && |enParts| == 0 {
      return None;
    }
    r := Some(LocalizedString(Some(Join(bnParts, " ")), Some(Join(enParts, " "))));
  }

  // ---------------------------------------------------------------- evaluation

  /** The specification of `evaluateStageWeatherRules`. */
  function StageAdvice(def: CropDefinition, cycle: CropCycle, w: Weather, now: Millis): (r: StageAdviceResult)
    ensures r.stage.None? ==> r.matchedRules == [] && r.combinedAdvice.None?
    ensures r.stage.None? <==>
      FindActiveStage(def, cycle, now).None? || FindActiveStage(def, cycle, now).value.weatherRules == []
    ensures r.stage.Some? ==>
      && r.stage == FindActiveStage(def, cycle, now)
      && r.matchedRules == MatchedRules(r.stage.value.weatherRules, w)
      && r.combinedAdvice == CombinedAdvice(r.matchedRules)
  {
    var stage := FindActiveStage(def, cycle, now);
    if stage.None? || stage.value.weatherRules == [] then StageAdviceResult(None, [], None)
    else
      var matched := MatchedRules(stage.value.weatherRules, w);
      StageAdviceResult(stage, matched, CombinedAdvice(matched))
  }

  /** `evaluateStageWeatherRules(cropDef, cropCycle, weather)` at time `now`. */
  method EvaluateStageWeatherRules(def: CropDefinition, cycle: CropCycle, w: Weather, now: Millis)
    returns (r: StageAdviceResult)
    ensures r == StageAdvice(def, cycle, w, now)
  {
    var stage := FindActiveStage(def, cycle, now);
    if stage.None? || |stage.value.weatherRules| == 0 {
      return StageAdviceResult(None, [], None);
    }
    var matched := MatchedRules(stage.value.weatherRules, w);
    var combined := CombineLocalizedAdvices(matched);
    r := StageAdviceResult(stage, matched, combined);
  }
}
