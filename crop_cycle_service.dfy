/** Crop-cycle creation, listing and stage updates (`CropCycleService` in
    src/services/cropCycle.service.ts). The start mode and the requested new
    stage are the raw strings the HTTP layer passes through. */
module CropCycleService {
  import opened Common
  import opened Models
  import opened Store

  datatype CreateCropCycleInput = CreateCropCycleInput(
    farmerId: Id,
    cropDefinitionCode: Option<string>,
    varietyName: Option<string>,
    fieldName: Option<string>,
    fieldAreaDecimal: Option<real>,
    startMode: string,
    startDate: Option<Millis>)

  datatype UpdateStageInput = UpdateStageInput(
    farmerId: Id,
    cropCycleId: Id,
    newStage: string,
    date: Option<Millis>)

  const CodeRequired := ApiError(BadRequest, "cropDefinitionCode is required")
  const InvalidCode := ApiError(BadRequest, "Invalid cropDefinitionCode")
  const FarmerMissing := ApiError(BadRequest, "Farmer not found!")
  const InvalidStartMode := ApiError(BadRequest, "Invalid startMode")
  const CropNotFound := ApiError(NotFound, "Crop not found")
  const UnsupportedTransition := ApiError(BadRequest, "Unsupported stage transition")

  // ---------------------------------------------------------------- creation

  /** `CropDefinition.findOne({ code, isActive: true })`: the first active
      definition with the code (codes are unique, so it is the only one). */
  function FindActiveDefinition(defs: seq<CropDefinition>, code: string): (k: Option<nat>)
    ensures k.None? <==> forall i :: 0 <= i < |defs| ==> !(defs[i].code == code && defs[i].isActive)
    ensures k.Some? ==> k.value < |defs| && defs[k.value].code == code && defs[k.value].isActive
    ensures k.Some? ==> forall i :: 0 <= i < k.value ==> !(defs[i].code == code && defs[i].isActive)
  {
    if defs == [] then None
    else if defs[0].code == code && defs[0].isActive then Some(0)
    else
      var rest := FindActiveDefinition(defs[1..], code);
      if rest.Some? then Some(1 + rest.value) else None
  }

  /** The stage a start mode begins in; other modes are refused. */
  function StartModeStage(mode: string): (s: Option<LifecycleStage>)
    ensures s.Some? ==> s.value in {Planned, Planted, Harvested, Stored}
    ensures s == Some(Planned) <==> mode == "planned"
    ensures s == Some(Planted) <==> mode == "planted"
    ensures s == Some(Harvested) <==> mode == "harvested"
    ensures s == Some(Stored) <==> mode == "stored"
  {
    if mode == "planned" then Some(Planned)
    else if mode == "planted" then Some(Planted)
    else if mode == "harvested" then Some(Harvested)
    else if mode == "stored" then Some(Stored)
    else None
  }

  const NoDates := Dates(None, None, None, None, None, None)

  /** The dates of a new cycle: exactly the one date field of its start stage. */
  function InitialDates(stage: LifecycleStage, at: Millis): (d: Dates)
    requires stage in {Planned, Planted, Harvested, Stored}
    ensures stage == Planned ==> d == NoDates.(plannedPlantingAt := Some(at))
    ensures stage == Planted ==> d == NoDates.(plantedAt := Some(at))
    ensures stage == Harvested ==> d == NoDates.(harvestedAt := Some(at))
    ensures stage == Stored ==> d == NoDates.(storageStartedAt := Some(at))
    ensures d.expectedHarvestAt.None? && d.storageEndAt.None?
  {
    match stage
    case Planned => NoDates.(plannedPlantingAt := Some(at))
    case Planted => NoDates.(plantedAt := Some(at))
    case Harvested => NoDates.(harvestedAt := Some(at))
    case Stored => NoDates.(storageStartedAt := Some(at))
  }

  /** Whether a variety carries the given name in either language (`==`). */
  predicate NamedAs(v: LocalizedString, name: string) {
    v.bn == Some(name) || v.en == Some(name)
  }

  /** `varieties.filter(v => v.bn == name || v.en == name)[0]`, tried only for
      a non-empty name: the first variety carrying the name. */
  function FindVariety(varieties: seq<LocalizedString>, name: Option<string>): (v: Option<LocalizedString>)
    ensures !Truthy(name) ==> v.None?
    ensures v.Some? ==> v.value in varieties && NamedAs(v.value, name.value)
    ensures Truthy(name) && (exists i :: 0 <= i < |varieties| && NamedAs(varieties[i], name.value)) ==> v.Some?
    ensures v.Some? ==> exists i :: (0 <= i < |varieties| && varieties[i] == v.value &&
      forall j :: 0 <= j < i ==> !NamedAs(varieties[j], name.value))
  {
    if !Truthy(name) || varieties == [] then None
    else if NamedAs(varieties[0], name.value) then Some(varieties[0])
    else
      var rest := FindVariety(varieties[1..], name);
      assert rest.Some? ==> exists i :: (1 <= i < |varieties| && varieties[i] == rest.value &&
        forall j :: 0 <= j < i ==> !NamedAs(varieties[j], name.value)) by {
        if rest.Some? {
          var i :| (0 <= i < |varieties[1..]| && varieties[1..][i] == rest.value &&
            forall j :: 0 <= j < i ==> !NamedAs(varieties[1..][j], name.value));
          assert varieties[i + 1] == rest.value;
          forall j | 0 <= j < i + 1 ensures !NamedAs(varieties[j], name.value) {
            if j > 0 { assert varieties[j] == varieties[1..][j - 1]; }
          }
        }
      }
      rest
  }

  /** The cycle `createCropCycle` inserts. */
  function NewCycle(input: CreateCropCycleInput, defId: Id, def: CropDefinition, stage: LifecycleStage, now: Millis): (c: CropCycle)
    requires stage in {Planned, Planted, Harvested, Stored}
    ensures c.farmer == input.farmerId && c.cropDefinition == defId && c.stage == stage
    ensures c.dates == InitialDates(stage, input.startDate.GetOr(now))
    ensures c.variety == FindVariety(def.varieties, input.varietyName)
    ensures c.riskSummary == RiskSummary(Some(Low), None, None, None)
    ensures c.batchInfo == BatchInfo(None, None, None, StorageLocation(None, None, None, None), None)
  {
    CropCycle(input.farmerId, defId, FindVariety(def.varieties, input.varietyName), stage,
              FieldInfo(input.fieldName, input.fieldAreaDecimal),
              InitialDates(stage, input.startDate.GetOr(now)),
              BatchInfo(None, None, None, StorageLocation(None, None, None, None), None),
              RiskSummary(Some(Low), None, None, None))
  }

  /** The specification of `createCropCycle`: the code check, the definition
      lookup, the farmer check and the start mode, in that order. */
  function CreateOutcome(defs: seq<CropDefinition>, farmers: map<Id, Farmer>,
                         input: CreateCropCycleInput, now: Millis): (r: Result<CropCycle>)
    ensures !Truthy(input.cropDefinitionCode) ==> r == Failure(CodeRequired)
    ensures Truthy(input.cropDefinitionCode) && FindActiveDefinition(defs, input.cropDefinitionCode.value).None? ==>
      r == Failure(InvalidCode)
    ensures (Truthy(input.cropDefinitionCode) && FindActiveDefinition(defs, input.cropDefinitionCode.value).Some? &&
             input.farmerId !in farmers) ==> r == Failure(FarmerMissing)
    ensures (Truthy(input.cropDefinitionCode) && FindActiveDefinition(defs, input.cropDefinitionCode.value).Some? &&
             input.farmerId in farmers && StartModeStage(input.startMode).None?) ==> r == Failure(InvalidStartMode)
    ensures r.Success? <==>
      && Truthy(input.cropDefinitionCode)
      && FindActiveDefinition(defs, input.cropDefinitionCode.value).Some?
      && input.farmerId in farmers
      && StartModeStage(input.startMode).Some?
    ensures r.Success? ==>
      var k := FindActiveDefinition(defs, input.cropDefinitionCode.value).value;
      r.value == NewCycle(input, k, defs[k], StartModeStage(input.startMode).value, now)
  {
    if !Truthy(input.cropDefinitionCode) then Failure(CodeRequired)
    else
      var k := FindActiveDefinition(defs, input.cropDefinitionCode.value);
      if k.None? then Failure(InvalidCode)
      else if input.farmerId !in farmers then Failure(FarmerMissing)
      else
        var stage := StartModeStage(input.startMode);
        if stage.None? then Failure(InvalidStartMode)
        else Success(NewCycle(input, k.value, defs[k.value], stage.value, now))
  }

  /** `createCropCycle(input)` at time `now`: on success the new cycle is
      stored under a fresh identifier. */
  method CreateCropCycle(db: Db, input: CreateCropCycleInput, now: Millis) returns (res: Result<(Id, CropCycle)>)
    requires db.Valid()
    modifies db`cycles, db`nextId
    ensures db.Valid()
    ensures var out := CreateOutcome(old(db.definitions), old(db.farmers), input, now);
      && (out.Failure? ==> res == Failure(out.error) && db.cycles == old(db.cycles) && db.nextId == old(db.nextId))
      && (out.Success? ==> res.Success? && res.value.1 == out.value && res.value.0 !in old(db.cycles)
                           && db.cycles == old(db.cycles)[res.value.0 := out.value])
  {
    if !Truthy(input.cropDefinitionCode) {
      return Failure(CodeRequired);
    }
    var k := FindActiveDefinition(db.definitions, input.cropDefinitionCode.value);
    if k.None? {
      return Failure(InvalidCode);
    }
    var def := db.definitions[k.value];
    if input.farmerId !in db.farmers {
      return Failure(FarmerMissing);
    }
    var parsedStartDate := if input.startDate.Some? then input.startDate.value else now;

    var stage := Planned;
    var dates := NoDates;
    if input.startMode == "planned" {
      stage := Planned;
      dates := dates.(plannedPlantingAt := Some(parsedStartDate));
    } else if input.startMode == "planted" {
      stage := Planted;
      dates := dates.(plantedAt := Some(parsedStartDate));
    } else if input.startMode == "harvested" {
      stage := Harvested;
      dates := dates.(harvestedAt := Some(parsedStartDate));
    } else if input.startMode == "stored" {
      stage := Stored;
      dates := dates.(storageStartedAt := Some(parsedStartDate));
    } else {
      return Failure(InvalidStartMode);
    }

    var variety: Option<LocalizedString> := None;
    if Truthy(input.varietyName) && |def.varieties| > 0 {
      variety := FindVariety(def.varieties, input.varietyName);
    }

    var cycle := CropCycle(input.farmerId, k.value, variety, stage,
                           FieldInfo(input.fieldName, input.fieldAreaDecimal), dates,
                           BatchInfo(None, None, None, StorageLocation(None, None, None, None), None),
                           RiskSummary(Some(Low), None, None, None));
    var id := db.FreshId();
    db.cycles := db.cycles[id := cycle];
    res := Success((id, cycle));
  }

  /** The start modes the HTTP layer lets through. */
  predicate ControllerAcceptsStartMode(mode: string) {
    mode == "planning" || mode == "planted" || mode == "harvested"
  }

  /** Of the modes the HTTP layer accepts, "planning" is the one
      `createCropCycle` refuses: a planned cycle cannot be created over HTTP. */
  lemma PlanningModeRejected(defs: seq<CropDefinition>, farmers: map<Id, Farmer>,
                             input: CreateCropCycleInput, now: Millis)
    requires ControllerAcceptsStartMode(input.startMode)
    requires Truthy(input.cropDefinitionCode)
    requires FindActiveDefinition(defs, input.cropDefinitionCode.value).Some?
    requires input.farmerId in farmers
    ensures CreateOutcome(defs, farmers, input, now).Failure? <==> input.startMode == "planning"
    ensures input.startMode == "planning" ==> CreateOutcome(defs, farmers, input, now) == Failure(InvalidStartMode)
    ensures CreateOutcome(defs, farmers, input, now).Success? ==> CreateOutcome(defs, farmers, input, now).value.stage != Planned
  {
    assert input.startMode == "planning" ==> input.startMode != "planned";
  }

  // ---------------------------------------------------------------- listing

  /** The cycles `listFarmerCrops` returns (as a set of identifiers): the
      farmer's cycles, without the completed ones unless they are asked for. */
  function ListFarmerCrops(cycles: map<Id, CropCycle>, farmerId: Id, includeCompleted: bool): (ids: set<Id>)
    ensures ids <= cycles.Keys
    ensures forall id :: id in ids ==> cycles[id].farmer == farmerId
    ensures !includeCompleted ==> forall id :: id in ids ==> cycles[id].stage != Completed
  {
    set id | id in cycles && cycles[id].farmer == farmerId && (includeCompleted || cycles[id].stage != Completed)
  }

  /** Asking for completed cycles adds exactly the farmer's completed cycles. */
  lemma ListingsDifferByCompleted(cycles: map<Id, CropCycle>, farmerId: Id)
    ensures ListFarmerCrops(cycles, farmerId, false) <= ListFarmerCrops(cycles, farmerId, true)
    ensures forall id :: id in ListFarmerCrops(cycles, farmerId, true) - ListFarmerCrops(cycles, farmerId, false) <==>
      id in cycles && cycles[id].farmer == farmerId && cycles[id].stage == Completed
  {
  }

  const CycleNotOwned := ApiError(NotFound, "Crop not found for this farmer")

  /** `getCropCycleById`: the cycle when the farmer owns it, otherwise not found. */
  function GetCropCycleById(cycles: map<Id, CropCycle>, farmerId: Id, cycleId: Id): (r: Result<CropCycle>)
    ensures r.Success? <==> cycleId in cycles && cycles[cycleId].farmer == farmerId
    ensures r.Success? ==> r.value == cycles[cycleId]
    ensures r.Failure? ==> r.error == CycleNotOwned && r.error.kind.StatusCode() == 404
  {
    if Owns(cycles, cycleId, farmerId) then Success(cycles[cycleId]) else Failure(CycleNotOwned)
  }

  /** A farmer can open exactly the cycles the full listing shows them. */
  lemma OpenableIffListed(cycles: map<Id, CropCycle>, farmerId: Id, cycleId: Id)
    ensures GetCropCycleById(cycles, farmerId, cycleId).Success? <==> cycleId in ListFarmerCrops(cycles, farmerId, true)
  {
  }

  // ---------------------------------------------------------------- stage updates

  /** The stage a requested new stage names; other values are refused. */
  function TargetStage(newStage: string): (s: Option<LifecycleStage>)
    ensures s.Some? ==> s.value in {Planted, Harvested, Stored, Completed}
    ensures s == Some(Planted) <==> newStage == "planted"
    ensures s == Some(Harvested) <==> newStage == "harvested"
    ensures s == Some(Stored) <==> newStage == "stored"
    ensures s == Some(Completed) <==> newStage == "completed"
  {
    if newStage == "planted" then Some(Planted)
    else if newStage == "harvested" then Some(Harvested)
    else if newStage == "stored" then Some(Stored)
    else if newStage == "completed" then Some(Completed)
    else None
  }

  /** The cycle moved to `stage` at `at`: the stage and its one date field
      change, nothing else does. */
  function MovedTo(c: CropCycle, stage: LifecycleStage, at: Millis): (r: CropCycle)
    requires stage in {Planted, Harvested, Stored, Completed}
    ensures r.stage == stage
    ensures stage == Planted ==> r.dates == c.dates.(plantedAt := Some(at))
    ensures stage == Harvested ==> r.dates == c.dates.(harvestedAt := Some(at))
    ensures stage == Stored ==> r.dates == c.dates.(storageStartedAt := Some(at))
    ensures stage == Completed ==> r.dates == c.dates.(storageEndAt := Some(at))
    ensures r == c.(stage := stage, dates := r.dates)
  {
    match stage
    case Planted => c.(stage := Planted, dates := c.dates.(plantedAt := Some(at)))
    case Harvested => c.(stage := Harvested, dates := c.dates.(harvestedAt := Some(at)))
    case Stored => c.(stage := Stored, dates := c.dates.(storageStartedAt := Some(at)))
    case Completed => c.(stage := Completed, dates := c.dates.(storageEndAt := Some(at)))
  }

  /** The specification of `updateStage`: the ownership check, then the
      requested stage; the current stage is not consulted. */
  function UpdateStageOutcome(cycles: map<Id, CropCycle>, input: UpdateStageInput, now: Millis): (r: Result<CropCycle>)
    ensures !Owns(cycles, input.cropCycleId, input.farmerId) ==> r == Failure(CropNotFound)
    ensures r.Success? <==> Owns(cycles, input.cropCycleId, input.farmerId) && TargetStage(input.newStage).Some?
    ensures r.Failure? && Owns(cycles, input.cropCycleId, input.farmerId) ==> r == Failure(UnsupportedTransition)
    ensures r.Success? ==>
      r.value == MovedTo(cycles[input.cropCycleId], TargetStage(input.newStage).value, input.date.GetOr(now))
  {
    if !Owns(cycles, input.cropCycleId, input.farmerId) then Failure(CropNotFound)
    else
      var target := TargetStage(input.newStage);
      if target.None? then Failure(UnsupportedTransition)
      else Success(MovedTo(cycles[input.cropCycleId], target.value, input.date.GetOr(now)))
  }

  /** `updateStage(input)` at time `now`. */
  method UpdateStage(db: Db, input: UpdateStageInput, now: Millis) returns (res: Result<CropCycle>)
    requires db.Valid()
    modifies db`cycles
    ensures db.Valid()
    ensures res == UpdateStageOutcome(old(db.cycles), input, now)
    ensures res.Success? ==> db.cycles == old(db.cycles)[input.cropCycleId := res.value]
    ensures res.Failure? ==> db.cycles == old(db.cycles)
  {
    if input.cropCycleId !in db.cycles || db.cycles[input.cropCycleId].farmer != input.farmerId {
      return Failure(CropNotFound);
    }
    var cycle := db.cycles[input.cropCycleId];
    var effectiveDate := if input.date.Some? then input.date.value else now;
    if input.newStage == "planted" {
      cycle := cycle.(stage := Planted);
      cycle := cycle.(dates := cycle.dates.(plantedAt := Some(effectiveDate)));
    } else if input.newStage == "harvested" {
      cycle := cycle.(stage := Harvested);
      cycle := cycle.(dates := cycle.dates.(harvestedAt := Some(effectiveDate)));
    } else if input.newStage == "stored" {
      cycle := cycle.(stage := Stored);
      cycle := cycle.(dates := cycle.dates.(storageStartedAt := Some(effectiveDate)));
    } else if input.newStage == "completed" {
      cycle := cycle.(stage := Completed);
      cycle := cycle.(dates := cycle.dates.(storageEndAt := Some(effectiveDate)));
    } else {
      return Failure(UnsupportedTransition);
    }
    db.cycles := db.cycles[input.cropCycleId := cycle];
    res := Success(cycle);
  }

  /** No transition is guarded by the current stage: every supported target
      is reached from every stage, a completed cycle back to planted included. */
  lemma EveryTargetReachable(cycles: map<Id, CropCycle>, input: UpdateStageInput, now: Millis)
    requires Owns(cycles, input.cropCycleId, input.farmerId)
    requires TargetStage(input.newStage).Some?
    ensures UpdateStageOutcome(cycles, input, now).Success?
    ensures UpdateStageOutcome(cycles, input, now).value.stage == TargetStage(input.newStage).value
  {
  }

  lemma CompletedBackToPlanted(cycles: map<Id, CropCycle>, farmerId: Id, cycleId: Id, at: Millis, now: Millis)
    requires Owns(cycles, cycleId, farmerId) && cycles[cycleId].stage == Completed
    ensures var r := UpdateStageOutcome(cycles, UpdateStageInput(farmerId, cycleId, "planted", Some(at)), now);
      r.Success? && r.value.stage == Planted && r.value.dates.plantedAt == Some(at)
      && r.value.dates.storageEndAt == cycles[cycleId].dates.storageEndAt
  {
    assert TargetStage("planted") == Some(Planted);
  }
}
