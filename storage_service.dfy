/** The storage state machine (`StorageService` in
    src/services/storage.service.ts): a harvested (or pre-harvest, or
    already stored) crop cycle enters storage, its batch details are updated
    while stored, and storage is completed, which credits the farmer with one
    more stored batch. */
module StorageService {
  import opened Common
  import opened Models
  import opened Store

  datatype StartStorageInput = StartStorageInput(
    farmerId: Id,
    cropCycleId: Id,
    storageType: Option<string>,
    storageLocation: Option<StorageLocation>,
    estimatedWeightKg: Option<real>,
    currentMoisturePercent: Option<real>,
    storageStartedAt: Option<Millis>)

  datatype UpdateStorageInput = UpdateStorageInput(
    farmerId: Id,
    cropCycleId: Id,
    storageType: Option<string>,
    storageLocation: Option<StorageLocation>,
    estimatedWeightKg: Option<real>,
    currentMoisturePercent: Option<real>)

  datatype CompleteStorageInput = CompleteStorageInput(
    farmerId: Id,
    cropCycleId: Id,
    finalWeightKg: Option<real>,
    storageEndAt: Option<Millis>)

  const FarmerNotFound := ApiError(BadRequest, "Farmer not found")
  const CycleNotFound := ApiError(NotFound, "Crop not found for this farmer")
  const CannotStart := ApiError(BadRequest, "Storage can only be started from harvested or pre-harvest stage")
  const CannotUpdate := ApiError(BadRequest, "Storage details can only be updated in stored stage")
  const CannotComplete := ApiError(BadRequest, "Storage can only be completed from stored stage")

  // ---------------------------------------------------------------- field-wise merges

  /** A supplied value replaces the old one; nothing supplied keeps it. */
  function Pick<T>(supplied: Option<T>, current: Option<T>): (r: Option<T>)
    ensures supplied.Some? ==> r == supplied
    ensures supplied.None? ==> r == current
  {
    if supplied.Some? then supplied else current
  }

  /** `{ ...current, ...(supplied || {}) }`: every supplied field overrides,
      every other field is kept. */
  function MergeLocation(current: StorageLocation, supplied: Option<StorageLocation>): (m: StorageLocation)
    ensures supplied.None? ==> m == current
  {
    if supplied.None? then current
    else
      var s := supplied.value;
      StorageLocation(Pick(s.division, current.division), Pick(s.district, current.district),
                      Pick(s.upazila, current.upazila), Pick(s.description, current.description))
  }

  /** Merging the same supplied location twice is merging it once. */
  lemma MergeLocationIdempotent(current: StorageLocation, supplied: Option<StorageLocation>)
    ensures MergeLocation(MergeLocation(current, supplied), supplied) == MergeLocation(current, supplied)
  {
  }

  /** A field left out of the supplied location keeps its old value, and a
      supplied field always wins. */
  lemma MergeLocationFieldwise(current: StorageLocation, supplied: StorageLocation)
    ensures var m := MergeLocation(current, Some(supplied));
      && (supplied.division.None? ==> m.division == current.division)
      && (supplied.division.Some? ==> m.division == supplied.division)
      && (supplied.district.None? ==> m.district == current.district)
      && (supplied.district.Some? ==> m.district == supplied.district)
      && (supplied.upazila.None? ==> m.upazila == current.upazila)
      && (supplied.upazila.Some? ==> m.upazila == supplied.upazila)
      && (supplied.description.None? ==> m.description == current.description)
      && (supplied.description.Some? ==> m.description == supplied.description)
  {
  }

  /** The batch after `startStorage`: the storage type is replaced (even by
      nothing), the location merged, weight and moisture replaced only when
      supplied; the final weight is kept. */
  function StartedBatch(b: BatchInfo, input: StartStorageInput): (r: BatchInfo)
    ensures r.storageType == input.storageType
    ensures r.storageLocation == MergeLocation(b.storageLocation, input.storageLocation)
    ensures r.estimatedWeightKg == Pick(input.estimatedWeightKg, b.estimatedWeightKg)
    ensures r.currentMoisturePercent == Pick(input.currentMoisturePercent, b.currentMoisturePercent)
    ensures r.finalWeightKg == b.finalWeightKg
  {
    BatchInfo(Pick(input.estimatedWeightKg, b.estimatedWeightKg), b.finalWeightKg, input.storageType,
              MergeLocation(b.storageLocation, input.storageLocation),
              Pick(input.currentMoisturePercent, b.currentMoisturePercent))
  }

  /** The batch after `updateStorage`: like `StartedBatch`, except that an
      absent storage type keeps the old one. */
  function UpdatedBatch(b: BatchInfo, input: UpdateStorageInput): (r: BatchInfo)
    ensures r.storageType == Pick(input.storageType, b.storageType)
    ensures r.storageLocation == MergeLocation(b.storageLocation, input.storageLocation)
    ensures r.estimatedWeightKg == Pick(input.estimatedWeightKg, b.estimatedWeightKg)
    ensures r.currentMoisturePercent == Pick(input.currentMoisturePercent, b.currentMoisturePercent)
    ensures r.finalWeightKg == b.finalWeightKg
  {
    BatchInfo(Pick(input.estimatedWeightKg, b.estimatedWeightKg), b.finalWeightKg,
              Pick(input.storageType, b.storageType),
              MergeLocation(b.storageLocation, input.storageLocation),
              Pick(input.currentMoisturePercent, b.currentMoisturePercent))
  }

  /** An update that supplies nothing leaves the batch as it was. */
  lemma EmptyUpdateKeepsBatch(b: BatchInfo, farmerId: Id, cycleId: Id)
    ensures UpdatedBatch(b, UpdateStorageInput(farmerId, cycleId, None, None, None, None)) == b
  {
  }

  // ---------------------------------------------------------------- transitions

  /** The stages storage may be started from. */
  predicate CanStartStorage(stage: LifecycleStage) {
    stage == Harvested || stage == PreHarvest || stage == Stored
  }

  /** The cycle after `startStorage`: stored since the given date (or now),
      with the started batch; every other field and date is kept. */
  function StartedCycle(c: CropCycle, input: StartStorageInput, now: Millis): (r: CropCycle)
    ensures r.stage == Stored
    ensures r.dates == c.dates.(storageStartedAt := Some(input.storageStartedAt.GetOr(now)))
    ensures r.batchInfo == StartedBatch(c.batchInfo, input)
    ensures r.farmer == c.farmer && r.cropDefinition == c.cropDefinition && r.variety == c.variety
    ensures r.fieldInfo == c.fieldInfo && r.riskSummary == c.riskSummary
  {
    c.(stage := Stored,
       dates := c.dates.(storageStartedAt := Some(input.storageStartedAt.GetOr(now))),
       batchInfo := StartedBatch(c.batchInfo, input))
  }

  /** The specification of `startStorage`: the farmer check, then the
      ownership check, then the stage guard. */
  function StartStorageOutcome(farmers: map<Id, Farmer>, cycles: map<Id, CropCycle>,
                               input: StartStorageInput, now: Millis): (r: Result<CropCycle>)
    ensures input.farmerId !in farmers ==> r == Failure(FarmerNotFound)
    ensures input.farmerId in farmers && !Owns(cycles, input.cropCycleId, input.farmerId) ==> r == Failure(CycleNotFound)
    ensures r.Success? <==>
      input.farmerId in farmers && Owns(cycles, input.cropCycleId, input.farmerId) &&
      CanStartStorage(cycles[input.cropCycleId].stage)
    ensures r.Failure? && input.farmerId in farmers && Owns(cycles, input.cropCycleId, input.farmerId) ==>
      r == Failure(CannotStart)
    ensures r.Success? ==> r.value == StartedCycle(cycles[input.cropCycleId], input, now)
  {
    if input.farmerId !in farmers then Failure(FarmerNotFound)
    else if !Owns(cycles, input.cropCycleId, input.farmerId) then Failure(CycleNotFound)
    else if !CanStartStorage(cycles[input.cropCycleId].stage) then Failure(CannotStart)
    else Success(StartedCycle(cycles[input.cropCycleId], input, now))
  }

  /** Starting storage again with the same request changes nothing more. */
  lemma StartStorageIdempotent(c: CropCycle, input: StartStorageInput, now: Millis)
    ensures StartedCycle(StartedCycle(c, input, now), input, now) == StartedCycle(c, input, now)
  {
    MergeLocationIdempotent(c.batchInfo.storageLocation, input.storageLocation);
  }

  /** `startStorage(input)` at time `now`. */
  method StartStorage(db: Db, input: StartStorageInput, now: Millis) returns (res: Result<CropCycle>)
    requires db.Valid()
    modifies db`cycles
    ensures db.Valid()
    ensures res == StartStorageOutcome(old(db.farmers), old(db.cycles), input, now)
    ensures res.Success? ==> db.cycles == old(db.cycles)[input.cropCycleId := res.value]
    ensures res.Failure? ==> db.cycles == old(db.cycles)
  {
    if input.farmerId !in db.farmers {
      return Failure(FarmerNotFound);
    }
    if input.cropCycleId !in db.cycles || db.cycles[input.cropCycleId].farmer != input.farmerId {
      return Failure(CycleNotFound);
    }
    var cycle := db.cycles[input.cropCycleId];
    if cycle.stage != Harvested && cycle.stage != PreHarvest && cycle.stage != Stored {
      return Failure(CannotStart);
    }
    var startDate := if input.storageStartedAt.Some? then input.storageStartedAt.value else now;
    cycle := cycle.(stage := Stored);
    cycle := cycle.(dates := cycle.dates.(storageStartedAt := Some(startDate)));
    var b := cycle.batchInfo;
    cycle := cycle.(batchInfo := BatchInfo(
      if input.estimatedWeightKg.Some? then input.estimatedWeightKg else b.estimatedWeightKg,
      b.finalWeightKg,
      input.storageType,
      MergeLocation(b.storageLocation, input.storageLocation),
      if input.currentMoisturePercent.Some? then input.currentMoisturePercent else b.currentMoisturePercent));
    db.cycles := db.cycles[input.cropCycleId := cycle];
    res := Success(cycle);
  }

  /** The specification of `updateStorage`: no farmer check, then the
      ownership check and the stored-stage guard; the stage is kept. */
  function UpdateStorageOutcome(cycles: map<Id, CropCycle>, input: UpdateStorageInput): (r: Result<CropCycle>)
    ensures !Owns(cycles, input.cropCycleId, input.farmerId) ==> r == Failure(CycleNotFound)
    ensures r.Success? <==> Owns(cycles, input.cropCycleId, input.farmerId) && cycles[input.cropCycleId].stage == Stored
    ensures r.Failure? && Owns(cycles, input.cropCycleId, input.farmerId) ==> r == Failure(CannotUpdate)
    ensures r.Success? ==>
      var c := cycles[input.cropCycleId];
      r.value == c.(batchInfo := UpdatedBatch(c.batchInfo, input)) && r.value.stage == Stored
  {
    if !Owns(cycles, input.cropCycleId, input.farmerId) then Failure(CycleNotFound)
    else if cycles[input.cropCycleId].stage != Stored then Failure(CannotUpdate)
    else
      var c := cycles[input.cropCycleId];
      Success(c.(batchInfo := UpdatedBatch(c.batchInfo, input)))
  }

  /** `updateStorage(input)` */
  method UpdateStorage(db: Db, input: UpdateStorageInput) returns (res: Result<CropCycle>)
    requires db.Valid()
    modifies db`cycles
    ensures db.Valid()
    ensures res == UpdateStorageOutcome(old(db.cycles), input)
    ensures res.Success? ==> db.cycles == old(db.cycles)[input.cropCycleId := res.value]
    ensures res.Failure? ==> db.cycles == old(db.cycles)
  {
    if input.cropCycleId !in db.cycles || db.cycles[input.cropCycleId].farmer != input.farmerId {
      return Failure(CycleNotFound);
    }
    var cycle := db.cycles[input.cropCycleId];
    if cycle.stage != Stored {
      return Failure(CannotUpdate);
    }
    var b := cycle.batchInfo;
    cycle := cycle.(batchInfo := BatchInfo(
      if input.estimatedWeightKg.Some? then input.estimatedWeightKg else b.estimatedWeightKg,
      b.finalWeightKg,
      if input.storageType.Some? then input.storageType else b.storageType,
      MergeLocation(b.storageLocation, input.storageLocation),
      if input.currentMoisturePercent.Some? then input.currentMoisturePercent else b.currentMoisturePercent));
    db.cycles := db.cycles[input.cropCycleId := cycle];
    res := Success(cycle);
  }

  /** The cycle after `completeStorage`: completed at the given date (or now),
      the final weight replaced only when supplied; everything else kept. */
  function CompletedCycle(c: CropCycle, input: CompleteStorageInput, now: Millis): (r: CropCycle)
    ensures r.stage == Completed
    ensures r.dates == c.dates.(storageEndAt := Some(input.storageEndAt.GetOr(now)))
    ensures r.batchInfo == c.batchInfo.(finalWeightKg := Pick(input.finalWeightKg, c.batchInfo.finalWeightKg))
    ensures r.farmer == c.farmer && r.cropDefinition == c.cropDefinition && r.variety == c.variety
    ensures r.fieldInfo == c.fieldInfo && r.riskSummary == c.riskSummary
  {
    c.(stage := Completed,
       dates := c.dates.(storageEndAt := Some(input.storageEndAt.GetOr(now))),
       batchInfo := c.batchInfo.(finalWeightKg := Pick(input.finalWeightKg, c.batchInfo.finalWeightKg)))
  }

  /** `(totalBatchesStored || 0) + 1` */
  function WithOneMoreBatch(f: Farmer): (r: Farmer)
    ensures r.totalBatchesStored == Some(f.totalBatchesStored.GetOr(0) + 1)
    ensures r == f.(totalBatchesStored := r.totalBatchesStored)
  {
    f.(totalBatchesStored := Some(f.totalBatchesStored.GetOr(0) + 1))
  }

  /** The specification of `completeStorage`: the farmer check, the ownership
      check and the stored-stage guard. */
  function CompleteStorageOutcome(farmers: map<Id, Farmer>, cycles: map<Id, CropCycle>,
                                  input: CompleteStorageInput, now: Millis): (r: Result<CropCycle>)
    ensures input.farmerId !in farmers ==> r == Failure(FarmerNotFound)
    ensures input.farmerId in farmers && !Owns(cycles, input.cropCycleId, input.farmerId) ==> r == Failure(CycleNotFound)
    ensures r.Success? <==>
      input.farmerId in farmers && Owns(cycles, input.cropCycleId, input.farmerId) &&
      cycles[input.cropCycleId].stage == Stored
    ensures r.Failure? && input.farmerId in farmers && Owns(cycles, input.cropCycleId, input.farmerId) ==>
      r == Failure(CannotComplete)
    ensures r.Success? ==> r.value == CompletedCycle(cycles[input.cropCycleId], input, now)
  {
    if input.farmerId !in farmers then Failure(FarmerNotFound)
    else if !Owns(cycles, input.cropCycleId, input.farmerId) then Failure(CycleNotFound)
    else if cycles[input.cropCycleId].stage != Stored then Failure(CannotComplete)
    else Success(CompletedCycle(cycles[input.cropCycleId], input, now))
  }

  /** `completeStorage(input)` at time `now`. */
  method CompleteStorage(db: Db, input: CompleteStorageInput, now: Millis) returns (res: Result<CropCycle>)
    requires db.Valid()
    modifies db`cycles, db`farmers
    ensures db.Valid()
    ensures res == CompleteStorageOutcome(old(db.farmers), old(db.cycles), input, now)
    ensures res.Success? ==> db.cycles == old(db.cycles)[input.cropCycleId := res.value]
    ensures res.Success? ==> db.farmers == old(db.farmers)[input.farmerId := WithOneMoreBatch(old(db.farmers)[input.farmerId])]
    ensures res.Failure? ==> db.cycles == old(db.cycles) && db.farmers == old(db.farmers)
  {
    if input.farmerId !in db.farmers {
      return Failure(FarmerNotFound);
    }
    var farmer := db.farmers[input.farmerId];
    if input.cropCycleId !in db.cycles || db.cycles[input.cropCycleId].farmer != input.farmerId {
      return Failure(CycleNotFound);
    }
    var cycle := db.cycles[input.cropCycleId];
    if cycle.stage != Stored {
      return Failure(CannotComplete);
    }
    var endDate := if input.storageEndAt.Some? then input.storageEndAt.value else now;
    cycle := cycle.(stage := Completed);
    cycle := cycle.(dates := cycle.dates.(storageEndAt := Some(endDate)));
    cycle := cycle.(batchInfo := cycle.batchInfo.(finalWeightKg :=
      if input.finalWeightKg.Some? then input.finalWeightKg else cycle.batchInfo.finalWeightKg));
    db.cycles := db.cycles[input.cropCycleId := cycle];

    var count := if farmer.totalBatchesStored.Some? then farmer.totalBatchesStored.value else 0;
    farmer := farmer.(totalBatchesStored := Some(count + 1));
    db.farmers := db.farmers[input.farmerId := farmer];
    res := Success(cycle);
  }

  // ---------------------------------------------------------------- the life cycle

  /** A completed cycle can neither re-enter storage nor be updated or
      completed again; a stored one accepts all three operations. */
  lemma StorageGuards(stage: LifecycleStage)
    ensures stage == Completed ==> !CanStartStorage(stage) && stage != Stored
    ensures stage == Stored ==> CanStartStorage(stage)
    ensures CanStartStorage(stage) <==> stage in {Harvested, PreHarvest, Stored}
  {
  }

  /** Start then complete: the cycle ends completed, with both storage dates
      set and the location given at the start. */
  lemma {:induction false} StartThenComplete(farmers: map<Id, Farmer>, cycles: map<Id, CropCycle>,
                                             start: StartStorageInput, complete: CompleteStorageInput, t1: Millis, t2: Millis)
    requires start.farmerId == complete.farmerId && start.cropCycleId == complete.cropCycleId
    requires StartStorageOutcome(farmers, cycles, start, t1).Success?
    ensures var started := StartStorageOutcome(farmers, cycles, start, t1).value;
      var cycles' := cycles[start.cropCycleId := started];
      var done := CompleteStorageOutcome(farmers, cycles', complete, t2);
      && done.Success?
      && done.value.stage == Completed
      && done.value.dates.storageStartedAt == Some(start.storageStartedAt.GetOr(t1))
      && done.value.dates.storageEndAt == Some(complete.storageEndAt.GetOr(t2))
      && done.value.batchInfo.storageLocation == MergeLocation(cycles[start.cropCycleId].batchInfo.storageLocation, start.storageLocation)
  {
    var started := StartStorageOutcome(farmers, cycles, start, t1).value;
    var cycles' := cycles[start.cropCycleId := started];
    assert Owns(cycles', complete.cropCycleId, complete.farmerId);
    assert cycles'[complete.cropCycleId].stage == Stored;
  }
}
