/** Worked examples on the seeded crop catalogue
    (src/seed/cropDefinitions.data.ts): the scoring of boro paddy's storage
    profile, the reversed humidity ramps of potato and tomato, the active
    stage of a two-stage crop, and the rain bounds of stage weather rules. */
module SeedExamples {
  import opened Common
  import opened Models
  import opened EtclLogic
  import opened StageWeatherRules

  // ---------------------------------------------------------------- scoring

  /** Boro paddy's storage thresholds (humidity 13 to 16, temperature 25 to 32,
      sensitive to rain) under the given weather, without a moisture reading. */
  function BoroContext(temperature: Option<real>, humidity: Option<real>, rain: Option<real>): EtclContext {
    EtclContext(LocalizedString(Some("Boro"), Some("Boro paddy")), 13.0, 16.0, 25.0, 32.0, true, None,
                temperature, humidity, rain)
  }

  /** At 30 °C, 15 % humidity and a 70 % chance of rain, temperature is the
      largest stress (5/7, ahead of rain's 0.7 and humidity's 2/3): high risk,
      a 24-hour window, dominated by temperature. */
  lemma BoroHotHumidDay()
    ensures var ctx := BoroContext(Some(30.0), Some(15.0), Some(70.0));
      && HumidityStress(ctx) == 2.0 / 3.0
      && TemperatureStress(ctx) == 5.0 / 7.0
      && RainStressOf(ctx) == 0.7
      && MaxStress(ctx) == 5.0 / 7.0
      && RiskLevelOf(MaxStress(ctx)) == High
      && EtclHoursOf(RiskLevelOf(MaxStress(ctx))) == 24
      && Dominant(HumidityStress(ctx), TemperatureStress(ctx), RainStressOf(ctx)) == HighTemperature
  {
    RampLinearInside(15.0, 13.0, 16.0);
    RampLinearInside(30.0, 25.0, 32.0);
  }

  /** The same day scored end to end, whatever the templates and formatting. */
  lemma BoroHotHumidDayScored(options: EtclOptions, f: Formats)
    ensures var r := Etcl(BoroContext(Some(30.0), Some(15.0), Some(70.0)), options, f);
      r.riskLevel == High && r.etclHours == Some(24) && r.riskType == HighTemperature
  {
    BoroHotHumidDay();
  }

  /** Low risk does not mean "Normal": a slight humidity stress of 0.1 is low
      risk with a 96-hour window, yet its dominant cause is humidity. */
  lemma LowRiskWithNamedCause()
    ensures var ctx := BoroContext(Some(25.0), Some(13.3), Some(0.0));
      && MaxStress(ctx) == 0.1
      && RiskLevelOf(MaxStress(ctx)) == Low
      && EtclHoursOf(RiskLevelOf(MaxStress(ctx))) == 96
      && Dominant(HumidityStress(ctx), TemperatureStress(ctx), RainStressOf(ctx)) == HighHumidity
  {
    RampLinearInside(13.3, 13.0, 16.0);
    RampZeroAtOrBelowIdeal(25.0, 25.0, 32.0);
  }

  /** Potato (ideal 90, bad 70) and tomato (ideal 85, bad 60) list a bad
      humidity below the ideal one, so their humidity stress is always zero. */
  lemma ReversedHumidityRampsNeverStress(humidity: Option<real>)
    ensures RampStress(humidity, 90.0, 70.0) == 0.0
    ensures RampStress(humidity, 85.0, 60.0) == 0.0
  {
  }

  // ---------------------------------------------------------------- active stage

  const NoName := LocalizedString(None, None)
  const Seedling := StageDefinition("seedling", 1, GrowingPhase, 0, 30, NoName, [])
  const Tillering := StageDefinition("tillering", 2, GrowingPhase, 31, 60, NoName, [])

  function CropWithStages(stages: seq<StageDefinition>): CropDefinition {
    CropDefinition("example", NoName, [], true, stages, None)
  }

  /** A growing cycle planted at time 0. */
  const GrowingCycle := CropCycle(0, 0, None, Growing, FieldInfo(None, None),
    Dates(None, Some(0), None, None, None, None),
    BatchInfo(None, None, None, StorageLocation(None, None, None, None), None),
    RiskSummary(None, None, None, None))

  /** Day 45 lies in the tillering range. */
  lemma Day45IsTillering()
    ensures FindActiveStage(CropWithStages([Seedling, Tillering]), GrowingCycle, 45 * MsPerDay) == Some(Tillering)
  {
    var cands := Candidates([Seedling, Tillering], GrowingPhase);
    assert cands == [Seedling, Tillering];
    assert DaysFromPlanting(GrowingCycle.dates, 45 * MsPerDay) == Some(45);
    assert FirstInRange(cands, 45) == Some(1);
  }

  /** Day 200 lies in no range: the stage of least order is chosen, wherever
      it is listed. */
  lemma Day200FallsBackToFirstOrder()
    ensures FindActiveStage(CropWithStages([Seedling, Tillering]), GrowingCycle, 200 * MsPerDay) == Some(Seedling)
    ensures FindActiveStage(CropWithStages([Tillering, Seedling]), GrowingCycle, 200 * MsPerDay) == Some(Seedling)
  {
    assert Candidates([Seedling, Tillering], GrowingPhase) == [Seedling, Tillering];
    assert Candidates([Tillering, Seedling], GrowingPhase) == [Tillering, Seedling];
    assert DaysFromPlanting(GrowingCycle.dates, 200 * MsPerDay) == Some(200);
    assert FirstInRange([Seedling, Tillering], 200).None?;
    assert FirstInRange([Tillering, Seedling], 200).None?;
  }

  // ---------------------------------------------------------------- weather rules

  function RuleWith(c: WeatherCondition): WeatherRule {
    WeatherRule(c, NoName)
  }

  /** A rule asking for at least a 60 % chance of rain. */
  const RainAtLeast60 := RuleWith(WeatherCondition(None, None, None, None, Some(60.0), None))

  /** 75 % matches, 40 % does not, and an unknown chance skips the bound. */
  lemma RainBoundExamples()
    ensures MatchesWeatherRule(RainAtLeast60, Weather(None, None, Some(75.0)))
    ensures !MatchesWeatherRule(RainAtLeast60, Weather(None, None, Some(40.0)))
    ensures MatchesWeatherRule(RainAtLeast60, Weather(None, None, None))
  {
  }

  /** Boro paddy's tillering blast warning: at most 22 °C, at most 95 %
      humidity, at least a 60 % chance of rain. */
  const BlastWarning := RuleWith(WeatherCondition(None, Some(22.0), None, Some(95.0), Some(60.0), None))

  /** Cool wet weather raises the warning; a warmer day, a more humid one or a
      drier one does not; an unknown temperature is not held against it. */
  lemma BlastWarningExamples()
    ensures MatchesWeatherRule(BlastWarning, Weather(Some(20.0), Some(90.0), Some(70.0)))
    ensures !MatchesWeatherRule(BlastWarning, Weather(Some(25.0), Some(90.0), Some(70.0)))
    ensures !MatchesWeatherRule(BlastWarning, Weather(Some(20.0), Some(97.0), Some(70.0)))
    ensures !MatchesWeatherRule(BlastWarning, Weather(Some(20.0), Some(90.0), Some(50.0)))
    ensures MatchesWeatherRule(BlastWarning, Weather(None, Some(90.0), Some(70.0)))
    ensures MatchedRules([BlastWarning, RainAtLeast60], Weather(Some(25.0), Some(90.0), Some(70.0))) == [RainAtLeast60]
  {
  }
}
