/** The persisted entities the services read and write: crop definitions
    (with their stages, weather rules and storage profile), crop cycles,
    farmers, auth sessions, risk snapshots and notifications. Dates are
    milliseconds since the epoch; record identifiers are natural numbers. */
module Models {
  import opened Common

  type Id = nat
  type Millis = int

  // ---------------------------------------------------------------- crop definitions

  datatype LogicalPhase = GrowingPhase | PreHarvestPhase | HarvestWindow | PostHarvest

  /** Optional bounds on the current weather; an absent bound is unconstrained.
      A rule stored without a condition is the condition with every bound absent. */
  datatype WeatherCondition = WeatherCondition(
    minTempC: Option<real>,
    maxTempC: Option<real>,
    minHumidity: Option<real>,
    maxHumidity: Option<real>,
    minRainProb: Option<real>,
    maxRainProb: Option<real>)

  /** A rule stored without advice has advice with both languages absent. */
  datatype WeatherRule = WeatherRule(condition: WeatherCondition, advice: LocalizedString)

  /** One stage of a crop's life; a stage stored without weather rules has `weatherRules == []`. */
  datatype StageDefinition = StageDefinition(
    key: string,
    order: int,
    logicalPhase: LogicalPhase,
    minDayFromPlanting: int,
    maxDayFromPlanting: int,
    name: LocalizedString,
    weatherRules: seq<WeatherRule>)

  datatype StorageProfile = StorageProfile(
    idealHumidity: real,
    badHumidity: real,
    idealTemperature: real,
    badTemperature: real,
    sensitiveToRain: bool,
    recommendedStorageTypes: seq<string>,
    highHumidityMessageTemplate: Option<LocalizedString>,
    highTemperatureMessageTemplate: Option<LocalizedString>)

  datatype CropDefinition = CropDefinition(
    code: string,
    name: LocalizedString,
    varieties: seq<LocalizedString>,
    isActive: bool,
    stages: seq<StageDefinition>,
    storageProfile: Option<StorageProfile>)

  // ---------------------------------------------------------------- crop cycles

  datatype LifecycleStage = Planned | Planted | Growing | PreHarvest | Harvested | Stored | Completed

  datatype RiskLevel = Low | Medium | High | Critical {
    /** Position in the order low < medium < high < critical. */
    function Severity(): (n: nat)
      ensures n <= 3
    {
      match this
      case Low => 0
      case Medium => 1
      case High => 2
      case Critical => 3
    }
  }

  /** Every field absent is the empty location `{}`. */
  datatype StorageLocation = StorageLocation(
    division: Option<string>,
    district: Option<string>,
    upazila: Option<string>,
    description: Option<string>)

  /** Every field absent (and an empty location) is the empty batch `{}`. */
  datatype BatchInfo = BatchInfo(
    estimatedWeightKg: Option<real>,
    finalWeightKg: Option<real>,
    storageType: Option<string>,
    storageLocation: StorageLocation,
    currentMoisturePercent: Option<real>)

  datatype RiskSummary = RiskSummary(
    currentRiskLevel: Option<RiskLevel>,
    lastEtclHours: Option<int>,
    lastRiskReason: Option<string>,
    lastUpdatedAt: Option<Millis>)

  datatype Dates = Dates(
    plannedPlantingAt: Option<Millis>,
    plantedAt: Option<Millis>,
    expectedHarvestAt: Option<Millis>,
    harvestedAt: Option<Millis>,
    storageStartedAt: Option<Millis>,
    storageEndAt: Option<Millis>)

  datatype FieldInfo = FieldInfo(name: Option<string>, areaDecimal: Option<real>)

  datatype CropCycle = CropCycle(
    farmer: Id,
    cropDefinition: Id,
    variety: Option<LocalizedString>,
    stage: LifecycleStage,
    fieldInfo: FieldInfo,
    dates: Dates,
    batchInfo: BatchInfo,
    riskSummary: RiskSummary)

  // ---------------------------------------------------------------- farmers and sessions

  datatype Location = Location(division: string, district: string, upazila: string, village: string)

  datatype Farmer = Farmer(
    name: string,
    email: string,
    passwordHash: string,
    phone: string,
    preferredLanguage: Lang,
    location: Location,
    totalCropsTracked: Option<int>,
    totalBatchesStored: Option<int>)

  datatype Session = Session(
    farmer: Id,
    userAgent: string,
    ipAddress: string,
    isActive: bool,
    revokedAt: Option<Millis>,
    expiresAt: Millis)

  // ---------------------------------------------------------------- risk output

  /** The dominant cause of risk, with the label the summary records. */
  datatype RiskType = Normal | HighHumidity | HighTemperature | HighRainProbability | CombinedRisk {
    function Label(): string {
      match this
      case Normal => "Normal"
      case HighHumidity => "High humidity"
      case HighTemperature => "High temperature"
      case HighRainProbability => "High rain probability"
      case CombinedRisk => "Combined risk"
    }
  }

  /** The weather values the risk engine consumes; `None` is "unknown". */
  datatype Weather = Weather(
    temperatureC: Option<real>,
    humidityPercent: Option<real>,
    rainProbabilityPercent: Option<real>)

  datatype RiskSource = ScheduledJob | OnDemand | WeatherUpdate

  datatype RiskInputs = RiskInputs(
    temperatureC: Option<real>,
    humidityPercent: Option<real>,
    rainProbabilityPercent: Option<real>,
    storageType: Option<string>,
    currentMoisturePercent: Option<real>)

  datatype RiskSnapshot = RiskSnapshot(
    cropCycle: Id,
    farmer: Id,
    source: RiskSource,
    etclHours: Option<int>,
    riskLevel: RiskLevel,
    riskType: RiskType,
    summary: LocalizedString,
    inputs: RiskInputs)

  datatype NotificationType = WeatherAdvisory | RiskAlert | TaskSuggestion | BadgeEarned | System

  datatype Notification = Notification(
    farmer: Id,
    cropCycle: Option<Id>,
    kind: NotificationType,
    title: LocalizedString,
    body: LocalizedString,
    isRead: bool)
}
