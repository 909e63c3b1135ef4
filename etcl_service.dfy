/** The risk orchestrator (`EtclService.computeForCropCycle` in
    src/services/etcl/etcl.service.ts): it checks the request, scores the
    cycle's storage risk, adds the active stage's weather advice, records a
    snapshot, caches the result on the cycle and raises an alert for high or
    critical risk. The current weather and the time are passed in. */
module EtclService {
  import opened Common
  import opened Models
  import opened EtclLogic
  import opened StageWeatherRules
  import opened Store

  datatype ComputeInput = ComputeInput(
    farmerId: Id,
    cropCycleId: Id,
    source: RiskSource,
    currentMoisturePercent: Option<real>)

  datatype EtclResponse = EtclResponse(
    snapshotId: nat,
    riskLevel: RiskLevel,
    riskType: RiskType,
    etclHours: Option<int>,
    summary: LocalizedString)

  /** The checks made before anything is written, in the source's order; on
      success, the cycle's crop definition and its storage profile. */
  function Precheck(farmers: map<Id, Farmer>, cycles: map<Id, CropCycle>, definitions: seq<CropDefinition>,
                    farmerId: Id, cycleId: Id): (r: Result<(CropDefinition, StorageProfile)>)
    ensures farmerId !in farmers ==> r == Failure(ApiError(BadRequest, "Farmer not found"))
    ensures farmerId in farmers && !Owns(cycles, cycleId, farmerId) ==>
      r == Failure(ApiError(NotFound, "Crop not found for this farmer"))
    ensures r.Success? <==>
      && farmerId in farmers && Owns(cycles, cycleId, farmerId)
      && cycles[cycleId].cropDefinition < |definitions|
      && definitions[cycles[cycleId].cropDefinition].storageProfile.Some?
    ensures r.Success? ==>
      var def := definitions[cycles[cycleId].cropDefinition];
      r.value == (def, def.storageProfile.value)
    ensures r.Failure? && farmerId in farmers && Owns(cycles, cycleId, farmerId) ==>
      r.error == ApiError(BadRequest, "Storage profile missing for this crop")
  {
    if farmerId !in farmers then Failure(ApiError(BadRequest, "Farmer not found"))
    else if !Owns(cycles, cycleId, farmerId) then Failure(ApiError(NotFound, "Crop not found for this farmer"))
    else
      var defId := cycles[cycleId].cropDefinition;
      if defId >= |definitions| || definitions[defId].storageProfile.None? then
        Failure(ApiError(BadRequest, "Storage profile missing for this crop"))
      else Success((definitions[defId], definitions[defId].storageProfile.value))
  }

  /** The explicit moisture reading when one is supplied, else the batch's. */
  function EffectiveMoisture(explicit: Option<real>, batch: BatchInfo): (m: Option<real>)
    ensures explicit.Some? ==> m == explicit
    ensures explicit.None? ==> m == batch.currentMoisturePercent
  {
    if explicit.Some? then explicit else batch.currentMoisturePercent
  }

  /** `s || ""` */
  function OrEmpty(s: Option<string>): string {
    if Truthy(s) then s.value else ""
  }

  /** The scoring context: the definition's name, the profile's thresholds,
      the effective moisture and the three weather values. */
  function ContextOf(def: CropDefinition, profile: StorageProfile, cycle: CropCycle,
                     explicitMoisture: Option<real>, w: Weather): EtclContext
  {
    EtclContext(
      LocalizedString(Some(OrEmpty(def.name.bn)), Some(OrEmpty(def.name.en))),
      profile.idealHumidity, profile.badHumidity, profile.idealTemperature, profile.badTemperature,
      profile.sensitiveToRain,
      EffectiveMoisture(explicitMoisture, cycle.batchInfo),
      w.temperatureC, w.humidityPercent, w.rainProbabilityPercent)
  }

  function OptionsOf(profile: StorageProfile): EtclOptions {
    EtclOptions(profile.highHumidityMessageTemplate, profile.highTemperatureMessageTemplate)
  }

  /** One language of the final summary: the computed summary (or ""),
      followed by " " and the stage advice only when that advice is non-empty. */
  function MergedLanguage(summary: Option<string>, advice: Option<LocalizedString>, lang: Lang): (s: string)
    ensures !(advice.Some? && Truthy(advice.value.Get(lang))) ==> s == summary.GetOr("")
    ensures advice.Some? && Truthy(advice.value.Get(lang)) ==>
      s == summary.GetOr("") + " " + advice.value.Get(lang).value
  {
    var base := summary.GetOr("");
    if advice.Some? && Truthy(advice.value.Get(lang)) then
      var parts := [base, advice.value.Get(lang).value];
      assert parts[1..] == [advice.value.Get(lang).value];
      assert Join(parts[1..], " ") == advice.value.Get(lang).value;
      Join(parts, " ")
    else Join([base], " ")
  }

  /** Both languages of the final summary, built part list by part list. */
  method MergeSummaries(summary: LocalizedString, advice: Option<LocalizedString>) returns (final: LocalizedString)
    ensures final == FinalSummary(summary, advice)
  {
    var summaryBnParts := [summary.bn.GetOr("")];
    var summaryEnParts := [summary.en.GetOr("")];
    if advice.Some? && Truthy(advice.value.bn) {
      summaryBnParts := summaryBnParts + [advice.value.bn.value];
    }
    if advice.Some? && Truthy(advice.value.en) {
      summaryEnParts := summaryEnParts + [advice.value.en.value];
    }
    final := LocalizedString(Some(Join(summaryBnParts, " ")), Some(Join(summaryEnParts, " ")));
  }

  function FinalSummary(summary: LocalizedString, advice: Option<LocalizedString>): LocalizedString {
    LocalizedString(Some(MergedLanguage(summary.bn, advice, Bn)), Some(MergedLanguage(summary.en, advice, En)))
  }

  /** The computed summary is never lost: each language of the final
      summary starts with it. */
  lemma FinalSummaryKeepsComputed(summary: LocalizedString, advice: Option<LocalizedString>, lang: Lang)
    ensures StartsWith(FinalSummary(summary, advice).Get(lang).value, summary.Get(lang).GetOr(""))
  {
    var s := summary.Get(lang).GetOr("");
    var m := FinalSummary(summary, advice).Get(lang).value;
    assert m == MergedLanguage(summary.Get(lang), advice, lang);
    assert m[..|s|] == s;
  }

  /** Only high and critical risk raise an alert. */
  predicate NeedsAlert(level: RiskLevel) {
    level == High || level == Critical
  }

  /** The alert guard is a severity threshold: with `EtclLevelMonotone`,
      more stress never withdraws an alert. */
  lemma NeedsAlertIffSevere(level: RiskLevel)
    ensures NeedsAlert(level) <==> level.Severity() >= 2
    ensures forall other: RiskLevel :: NeedsAlert(level) && level.Severity() <= other.Severity() ==> NeedsAlert(other)
  {
  }

  const CriticalTitle: LocalizedString :=
    LocalizedString(Some("জরুরি ঝুঁকি: ফসল দ্রুত নষ্ট হওয়ার সম্ভাবনা"), Some("Critical risk: high chance of rapid spoilage"))
  const HighTitle: LocalizedString :=
    LocalizedString(Some("উচ্চ ঝুঁকি: সংরক্ষণ অবস্থা দ্রুত পরীক্ষা করুন"), Some("High risk: check storage conditions soon"))

  /** The alert raised for a high or critical level: an unread risk alert
      about the cycle, titled by the level, whose body is the final summary. */
  function AlertFor(farmerId: Id, cycleId: Id, level: RiskLevel, body: LocalizedString): (n: Notification)
    requires NeedsAlert(level)
    ensures n.kind == RiskAlert && !n.isRead && n.farmer == farmerId && n.cropCycle == Some(cycleId)
    ensures n.body == body
    ensures n.title == (if level == Critical then CriticalTitle else HighTitle)
  {
    Notification(farmerId, Some(cycleId), RiskAlert, if level == Critical then CriticalTitle else HighTitle, body, false)
  }

  /** `EtclService.computeForCropCycle(input)` with the current weather `w`
      and the time `now`. */
  method ComputeForCropCycle(db: Db, input: ComputeInput, w: Weather, now: Millis, f: Formats)
    returns (res: Result<EtclResponse>)
    requires db.Valid()
    modifies db
    ensures db.Valid()
    ensures var pre := Precheck(old(db.farmers), old(db.cycles), old(db.definitions), input.farmerId, input.cropCycleId);
      pre.Failure? ==> res == Failure(pre.error) && unchanged(db)
    ensures var pre := Precheck(old(db.farmers), old(db.cycles), old(db.definitions), input.farmerId, input.cropCycleId);
      pre.Success? ==>
        var cycle := old(db.cycles)[input.cropCycleId];
        var comp := Etcl(ContextOf(pre.value.0, pre.value.1, cycle, input.currentMoisturePercent, w), OptionsOf(pre.value.1), f);
        var advice := StageAdvice(pre.value.0, cycle, w, now);
        var final := FinalSummary(comp.summary, advice.combinedAdvice);
        var moisture := EffectiveMoisture(input.currentMoisturePercent, cycle.batchInfo);
        && res == Success(EtclResponse(|old(db.snapshots)|, comp.riskLevel, comp.riskType, comp.etclHours, final))
        && db.snapshots == old(db.snapshots) + [RiskSnapshot(
             input.cropCycleId, input.farmerId, input.source, comp.etclHours, comp.riskLevel, comp.riskType, final,
             RiskInputs(w.temperatureC, w.humidityPercent, w.rainProbabilityPercent, cycle.batchInfo.storageType, moisture))]
        && db.cycles == old(db.cycles)[input.cropCycleId := cycle.(riskSummary := RiskSummary(
             Some(comp.riskLevel), comp.etclHours,
             final.Get(old(db.farmers)[input.farmerId].preferredLanguage), Some(now)))]
        && db.notifications == old(db.notifications) +
             (if NeedsAlert(comp.riskLevel) then [AlertFor(input.farmerId, input.cropCycleId, comp.riskLevel, final)] else [])
        && db.farmers == old(db.farmers) && db.sessions == old(db.sessions)
        && db.definitions == old(db.definitions) && db.nextId == old(db.nextId)
  {
    var pre := Precheck(db.farmers, db.cycles, db.definitions, input.farmerId, input.cropCycleId);
    if pre.Failure? {
      return Failure(pre.error);
    }
    var farmer := db.farmers[input.farmerId];
    var cycle := db.cycles[input.cropCycleId];
    var def := pre.value.0;
    var profile := pre.value.1;

    var ctx := ContextOf(def, profile, cycle, input.currentMoisturePercent, w);
    var comp := ComputeEtcl(ctx, OptionsOf(profile), f);
    var stageAdvice := EvaluateStageWeatherRules(def, cycle, w, now);

    var finalSummary := MergeSummaries(comp.summary, stageAdvice.combinedAdvice);

    var snapshotId := |db.snapshots|;
    db.snapshots := db.snapshots + [RiskSnapshot(
      input.cropCycleId, cycle.farmer, input.source, comp.etclHours, comp.riskLevel, comp.riskType, finalSummary,
      RiskInputs(w.temperatureC, w.humidityPercent, w.rainProbabilityPercent, cycle.batchInfo.storageType, ctx.currentMoisturePercent))];

    var reason := if farmer.preferredLanguage == En then finalSummary.en else finalSummary.bn;
    db.cycles := db.cycles[input.cropCycleId := cycle.(riskSummary := RiskSummary(
      Some(comp.riskLevel), comp.etclHours, reason, Some(now)))];

    if comp.riskLevel == High || comp.riskLevel == Critical {
      var title := if comp.riskLevel == Critical then CriticalTitle else HighTitle;
      db.notifications := db.notifications + [Notification(
        input.farmerId, Some(input.cropCycleId), RiskAlert, title, finalSummary, false)];
    }

    res := Success(EtclResponse(snapshotId, comp.riskLevel, comp.riskType, comp.etclHours, finalSummary));
  }
}
