# Harvest Guard server core, modelled in Dafny

Harvest Guard tracks a farmer's crop cycles from planting to storage. Its core
scores the storage risk of a cycle. Three stresses in [0, 1] (humidity,
temperature, rain) are taken from the crop's storage profile and the current
weather. Their maximum selects a risk level and an ETCL window (estimated
time to crop loss, in hours); the largest stress names the dominant cause. A
bilingual (Bangla/English) summary is built from message templates. The
active growth stage's weather rules add advice. The result is recorded as a
risk snapshot, cached on the cycle, and raised as an alert when the risk is
high or critical. Around that sit the crop-cycle and storage services (stage
changes, batch details), the session table (registration, login, token
refresh, logout), the Open-Meteo averaging and the file-store key/URL
helpers.

The model has one module per source file:

- `LocalizedTemplate` (`localized_template.dfy`): placeholder substitution.
- `EtclLogic` (`etcl_logic.dfy`): the scoring function.
- `StageWeatherRules` (`stage_weather_rules.dfy`): active stage and weather rules.
- `EtclService` (`etcl_service.dfy`): the orchestrator.
- `StorageService` (`storage_service.dfy`).
- `CropCycleService` (`crop_cycle_service.dfy`).
- `AuthService` (`auth_service.dfy`).
- `OpenMeteoClient` (`open_meteo_client.dfy`).
- `R2Client` (`r2_client.dfy`).

Shared pieces:

- `Common`: options, results, API errors, bilingual strings, `trim`, `toLowerCase`, `join`.
- `Models`: the records of the database.
- `Store`: one mutable database object, `Store.Db`. Its maps and sequences stand for the collections the services read and write. Its `Valid()` invariant says every reference to a farmer resolves and e-mail addresses are unique.
- `SeedExamples`: worked examples on the seeded crop catalogue.

Code that changes state step by step is written as methods over `Store.Db`
or with loops. Each method is proved equal to a pure specification function,
such as `StartStorageOutcome` or `Etcl`. The properties are then proved
about those functions.

The clock, the weather fetch, random identifiers, password hashing, token
signing and number formatting are parameters:

- `now: Millis` is the current time.
- A `Weather` value or a parsed `Response` stands for the fetched weather.
- `freshId` is the random identifier for an unnamed upload.
- `Crypto` holds the hashing, comparison, signing and verification functions.
- `Formats` holds `toFixed(1)` and `Math.round` rendered as text.

## Model

| member | source | states |
|---|---|---|
| `Common.ErrorKind.StatusCode` | src/utils/ApiError.ts:20-38 | every error kind maps to an HTTP status between 400 and 500 |
| `Common.TrimEmptyIff` | src/services/auth.service.ts:35-39 | a trimmed text is empty iff every character is white space, which is what the blank-field checks test |
| `Common.TrimHasNoOuterSpace` | src/services/auth.service.ts:57 | a trimmed name neither starts nor ends with white space |
| `Common.Lower` | src/services/auth.service.ts:47-58 | the lower-cased address has the same length, each capital replaced by its small letter |
| `Common.LowerIdempotent` | src/services/auth.service.ts:47-58 | lower-casing an already lower-cased address changes nothing |
| `LocalizedTemplate.ReplaceAllWithoutOccurrence` | src/utils/localizedTemplate.ts:13-14 | a global replace leaves text without the pattern unchanged |
| `LocalizedTemplate.ReplaceAllPlainPrefix` | src/utils/localizedTemplate.ts:13-14 | no match starts inside a prefix lacking the pattern's first character, so the prefix is kept verbatim |
| `LocalizedTemplate.ReplaceAllEveryOccurrence` | src/utils/localizedTemplate.ts:13-14 | the replace is global: pattern-separated segments come back joined by the replacement instead |
| `LocalizedTemplate.SubstituteWithoutTokens` | src/utils/localizedTemplate.ts:11-16 | text holding no `{key}` token of any variable is returned unchanged |
| `LocalizedTemplate.SubstituteSingleVariable` | src/utils/localizedTemplate.ts:12-15 | every occurrence of a variable's token is replaced by its value |
| `LocalizedTemplate.Render` | src/utils/localizedTemplate.ts:9-17 | the loop over the variables yields the left-to-right substitution; an absent or empty text yields nothing |
| `LocalizedTemplate.RenderedTemplate` | src/utils/localizedTemplate.ts:3-23 | the result is absent exactly when the template is absent |
| `LocalizedTemplate.RenderLocalizedTemplate` | src/utils/localizedTemplate.ts:3-23 | the method computes the specification `RenderedTemplate` |
| `LocalizedTemplate.EmptyLanguageUnchanged` | src/utils/localizedTemplate.ts:19-22 | a language whose text is absent or empty comes back as it was |
| `LocalizedTemplate.LanguagesIndependent` | src/utils/localizedTemplate.ts:19-22 | each language's output depends only on that language's text |
| `LocalizedTemplate.SubstitutionOrderMatters` | src/utils/localizedTemplate.ts:12-15 | the order of the variables matters: `"{{a}b}"` gives "X" or "{b}" depending on it |
| `EtclLogic.Clamp01` | src/services/etcl/etclLogic.ts:7-9 | the result is in [0, 1], equals x inside it and the nearer bound outside |
| `EtclLogic.Clamp01Monotone` | src/services/etcl/etclLogic.ts:7-9 | clamping preserves order |
| `EtclLogic.RampStress` | src/services/etcl/etclLogic.ts:31-51 | a stress lies in [0, 1] and is zero for an unknown value or a ramp with bad <= ideal |
| `EtclLogic.DivMonotone` | src/services/etcl/etclLogic.ts:37-39 | dividing by a positive span preserves order |
| `EtclLogic.RampMonotone` | src/services/etcl/etclLogic.ts:31-51 | stress is non-decreasing in the weather value |
| `EtclLogic.RampZeroAtOrBelowIdeal` | src/services/etcl/etclLogic.ts:31-51 | no stress at or below the ideal value |
| `EtclLogic.RampOneAtOrAboveBad` | src/services/etcl/etclLogic.ts:31-51 | full stress at or beyond the bad value on a proper ramp |
| `EtclLogic.RampLinearInside` | src/services/etcl/etclLogic.ts:31-51 | between ideal and bad the stress is (v - ideal) / (bad - ideal) |
| `EtclLogic.RainStress` | src/services/etcl/etclLogic.ts:53-57 | rain stress is in [0, 1], zero unless rain-sensitive and known, and the probability / 100 for 0..100 |
| `EtclLogic.Max3` | src/services/etcl/etclLogic.ts:59 | the maximum is one of the three and bounds all three |
| `EtclLogic.MaxStress` | src/services/etcl/etclLogic.ts:59 | the maximal stress lies in [0, 1] |
| `EtclLogic.RiskBuckets` | src/services/etcl/etclLogic.ts:61-77 | each level is exactly its interval (upper bounds 0.2/0.5/0.8 go to the lower bucket); hours are 96, 48, 24 or 6 |
| `EtclLogic.RiskLevelMonotone` | src/services/etcl/etclLogic.ts:61-77 | more stress never lowers the level nor lengthens the ETCL window |
| `EtclLogic.FirstMaximal` | src/services/etcl/etclLogic.ts:79-92 | the reference: the first position holding the maximum |
| `EtclLogic.DominantIsFirstMaximal` | src/services/etcl/etclLogic.ts:79-92 | the comparison chain equals "Normal" without stress, else the first maximal cause in the order humidity, temperature, rain |
| `EtclLogic.CombinedRiskUnreachable` | src/services/etcl/etclLogic.ts:90-92 | "Combined risk" is never produced |
| `EtclLogic.DominantCause` | src/services/etcl/etclLogic.ts:79-92 | "Normal" iff the maximal stress is 0; a named cause holds the maximum and no higher-priority cause does |
| `EtclLogic.CropLabel` | src/services/etcl/etclLogic.ts:110 | the crop label is the Bangla name, else the English name, else the fallback, and never empty |
| `EtclLogic.CollectSummaryParts` | src/services/etcl/etclLogic.ts:131-180 | the pushes build the specified parts: the non-empty messages, else the level's fallback sentence, then the ETCL sentence |
| `EtclLogic.ComputeEtcl` | src/services/etcl/etclLogic.ts:11-193 | the step-by-step computation equals the specification `Etcl` |
| `EtclLogic.EtclHoursAlwaysKnown` | src/services/etcl/etclLogic.ts:62-77 | the ETCL window is always present and equals the level's hours |
| `EtclLogic.SummaryEndsWithEtclSentence` | src/services/etcl/etclLogic.ts:165-185 | each language's summary ends with its ETCL sentence |
| `EtclLogic.SummaryPartsByLevel` | src/services/etcl/etclLogic.ts:140-163 | without messages the summary is the fallback for the level, then the ETCL sentence; with messages no fallback is added |
| `EtclLogic.FallbackDistinguishesLow` | src/services/etcl/etclLogic.ts:140-163 | the low-risk fallback sentence differs from the raised-risk one in both languages |
| `EtclLogic.EtclLevelMonotone` | src/services/etcl/etclLogic.ts:31-77 | raising humidity, temperature or rain never lowers the computed level |
| `StageWeatherRules.PhaseOf` | src/services/etcl/stageWeatherRules.ts:17-33 | the lifecycle-stage to phase table, each direction; planned has no phase |
| `StageWeatherRules.PlantingAnchor` | src/services/etcl/stageWeatherRules.ts:42 | the planting date, else the planned planting date |
| `StageWeatherRules.DaysFromPlanting` | src/services/etcl/stageWeatherRules.ts:42-48 | unknown iff no anchor; otherwise the floor of elapsed days, d * day <= elapsed < (d + 1) * day |
| `StageWeatherRules.Candidates` | src/services/etcl/stageWeatherRules.ts:50-52 | exactly the stages of the phase |
| `StageWeatherRules.FirstInRange` | src/services/etcl/stageWeatherRules.ts:56-63 | the first candidate whose inclusive day range holds the day, none iff no range does |
| `StageWeatherRules.LowestOrder` | src/services/etcl/stageWeatherRules.ts:65-66 | the head after the stable sort: a least order, the first such |
| `StageWeatherRules.FindActiveStage` | src/services/etcl/stageWeatherRules.ts:35-67 | no stage iff no phase or no stage of the phase; otherwise a stage of the cycle's phase |
| `StageWeatherRules.ActiveStageByDay` | src/services/etcl/stageWeatherRules.ts:56-63 | with a day in some range, the first candidate in list order containing it |
| `StageWeatherRules.ActiveStageFallback` | src/services/etcl/stageWeatherRules.ts:65-66 | otherwise the first candidate of least order, whatever its position |
| `StageWeatherRules.PlannedHasNoActiveStage` | src/services/etcl/stageWeatherRules.ts:29-40 | a planned cycle has no active stage |
| `StageWeatherRules.MatchesIffWithinBounds` | src/services/etcl/stageWeatherRules.ts:70-107 | the early-return chain accepts iff every bound that applies holds |
| `StageWeatherRules.UnconstrainedMatches` | src/services/etcl/stageWeatherRules.ts:105-106 | a rule without bounds, or all-unknown weather, always matches |
| `StageWeatherRules.MatchedRules` | src/services/etcl/stageWeatherRules.ts:142-144 | membership: exactly the rules that match |
| `StageWeatherRules.MatchedRulesAppend` | src/services/etcl/stageWeatherRules.ts:142-144 | the filter distributes over concatenation, so it keeps order |
| `StageWeatherRules.MatchedRulesAllMatch` | src/services/etcl/stageWeatherRules.ts:142-144 | a list whose rules all match is kept whole |
| `StageWeatherRules.AdviceTexts` | src/services/etcl/stageWeatherRules.ts:118-121 | only non-empty texts, none iff no rule has advice in that language |
| `StageWeatherRules.AdviceTextsOfOneRule` | src/services/etcl/stageWeatherRules.ts:119-120 | one rule contributes its advice text exactly when that text is non-empty |
| `StageWeatherRules.AdviceTextsAppend` | src/services/etcl/stageWeatherRules.ts:118-121 | the texts of a concatenation are each part's texts in order, so the texts follow rule order |
| `StageWeatherRules.CombinedAdvice` | src/services/etcl/stageWeatherRules.ts:110-129 | absent iff no rule has advice in either language |
| `StageWeatherRules.CombineLocalizedAdvices` | src/services/etcl/stageWeatherRules.ts:110-129 | the loop computes `CombinedAdvice` |
| `StageWeatherRules.StageAdvice` | src/services/etcl/stageWeatherRules.ts:132-153 | no stage or no rules gives the empty result; otherwise the matched rules and their combined advice |
| `StageWeatherRules.EvaluateStageWeatherRules` | src/services/etcl/stageWeatherRules.ts:132-153 | the method computes `StageAdvice` |
| `EtclService.Precheck` | src/services/etcl/etcl.service.ts:49-68 | the farmer, ownership and storage-profile checks, in order, with their error kinds and messages |
| `EtclService.EffectiveMoisture` | src/services/etcl/etcl.service.ts:78-81 | the explicit moisture when given, else the batch's |
| `EtclService.MergedLanguage` | src/services/etcl/etcl.service.ts:115-128 | the summary, followed by " " and the advice only when that advice is non-empty |
| `EtclService.MergeSummaries` | src/services/etcl/etcl.service.ts:114-128 | the part lists give the specified final summary |
| `EtclService.FinalSummaryKeepsComputed` | src/services/etcl/etcl.service.ts:115-128 | each language of the final summary starts with the computed summary |
| `EtclService.NeedsAlertIffSevere` | src/services/etcl/etcl.service.ts:163 | an alert is raised exactly for the two most severe levels, so a more severe level never loses it |
| `EtclService.AlertFor` | src/services/etcl/etcl.service.ts:163-181 | an unread risk alert about the cycle, titled by level, with the final summary as body |
| `EtclService.ComputeForCropCycle` | src/services/etcl/etcl.service.ts:37-194 | failure writes nothing; success appends one snapshot, overwrites only the cycle's risk summary, adds an alert iff high/critical, returns the scored result |
| `StorageService.Pick` | src/services/storage.service.ts:62-69 | a supplied value replaces the old one, an absent one keeps it |
| `StorageService.MergeLocation` | src/services/storage.service.ts:57-61 | no supplied location keeps the old one |
| `StorageService.MergeLocationIdempotent` | src/services/storage.service.ts:57-61 | merging the same location twice is merging it once |
| `StorageService.MergeLocationFieldwise` | src/services/storage.service.ts:57-61 | each supplied field wins, each missing field is kept |
| `StorageService.StartedBatch` | src/services/storage.service.ts:55-70 | storage type replaced even by nothing, location merged, weight and moisture replaced only when given, final weight kept |
| `StorageService.UpdatedBatch` | src/services/storage.service.ts:101-116 | as at the start, except that an absent storage type keeps the old one |
| `StorageService.EmptyUpdateKeepsBatch` | src/services/storage.service.ts:101-116 | an update that supplies nothing changes nothing |
| `StorageService.StartedCycle` | src/services/storage.service.ts:49-70 | stored, start date given or now, new batch, everything else kept |
| `StorageService.StartStorageOutcome` | src/services/storage.service.ts:24-47 | farmer, ownership and stage checks in order; success iff the stage is harvested, pre-harvest or stored |
| `StorageService.StartStorageIdempotent` | src/services/storage.service.ts:49-70 | repeating the same start changes nothing further |
| `StorageService.StartStorage` | src/services/storage.service.ts:13-76 | the method computes the outcome and writes exactly the one cycle on success |
| `StorageService.UpdateStorageOutcome` | src/services/storage.service.ts:88-116 | no farmer check; ownership then the stored-stage guard; the stage is kept |
| `StorageService.UpdateStorage` | src/services/storage.service.ts:78-122 | the method computes the outcome and writes exactly the one cycle on success |
| `StorageService.CompletedCycle` | src/services/storage.service.ts:149-160 | completed, end date given or now, final weight replaced only when given |
| `StorageService.WithOneMoreBatch` | src/services/storage.service.ts:166 | the stored-batch count goes up by one from its value or 0 |
| `StorageService.CompleteStorageOutcome` | src/services/storage.service.ts:129-147 | farmer, ownership and stored-stage checks in order |
| `StorageService.CompleteStorage` | src/services/storage.service.ts:124-170 | the method computes the outcome; on success the cycle and the farmer's count change, nothing else |
| `StorageService.StorageGuards` | src/services/storage.service.ts:39-47 | a completed cycle cannot re-enter storage; the start guard is exactly harvested/pre-harvest/stored |
| `StorageService.StartThenComplete` | src/services/storage.service.ts:13-170 | a successful start followed by completion succeeds, ending completed with the start date kept |
| `CropCycleService.FindActiveDefinition` | src/services/cropCycle.service.ts:26-29 | the first active definition with the code, none iff there is none |
| `CropCycleService.StartModeStage` | src/services/cropCycle.service.ts:46-60 | the four start modes and their stages, each direction; other modes are refused |
| `CropCycleService.InitialDates` | src/services/cropCycle.service.ts:43-60 | exactly the start stage's one date field is set |
| `CropCycleService.FindVariety` | src/services/cropCycle.service.ts:62-66 | the first variety named in either language, tried only for a non-empty name |
| `CropCycleService.NewCycle` | src/services/cropCycle.service.ts:68-81 | the inserted record: owner, definition, stage, dates, variety, low risk, empty batch |
| `CropCycleService.CreateOutcome` | src/services/cropCycle.service.ts:22-81 | code, definition, farmer and start-mode checks in order, with their messages |
| `CropCycleService.CreateCropCycle` | src/services/cropCycle.service.ts:11-84 | the method computes the outcome and inserts the new cycle under a fresh identifier |
| `CropCycleService.PlanningModeRejected` | src/controllers/cropCycle.controller.ts:20-22 | of the modes the controller admits, "planning" is the one the service refuses |
| `CropCycleService.ListFarmerCrops` | src/services/cropCycle.service.ts:87-104 | only the farmer's cycles, without completed ones unless asked |
| `CropCycleService.ListingsDifferByCompleted` | src/services/cropCycle.service.ts:95-98 | including completed cycles adds exactly the farmer's completed cycles |
| `CropCycleService.GetCropCycleById` | src/services/cropCycle.service.ts:106-120 | the cycle exactly when the farmer owns it, otherwise a 404 "Crop not found for this farmer" |
| `CropCycleService.OpenableIffListed` | src/services/cropCycle.service.ts:87-120 | a farmer can open exactly the cycles their full listing shows |
| `CropCycleService.TargetStage` | src/services/cropCycle.service.ts:137-156 | the four accepted new stages, each direction |
| `CropCycleService.MovedTo` | src/services/cropCycle.service.ts:137-153 | the stage and its one date field change, nothing else |
| `CropCycleService.UpdateStageOutcome` | src/services/cropCycle.service.ts:125-156 | ownership check then supported-target check, with their messages |
| `CropCycleService.UpdateStage` | src/services/cropCycle.service.ts:122-162 | the method computes the outcome and writes exactly the one cycle on success |
| `CropCycleService.EveryTargetReachable` | src/services/cropCycle.service.ts:137-156 | no transition depends on the current stage |
| `CropCycleService.CompletedBackToPlanted` | src/services/cropCycle.service.ts:137-141 | a completed cycle can be moved back to planted |
| `Store.Db.FreshId` | src/services/cropCycle.service.ts:68 | a new identifier is used by no farmer, cycle or session |
| `Store.Db.AddFarmer` | src/services/auth.service.ts:56-68 | inserting a farmer with an unused address keeps the invariant |
| `Store.Db.AddSession` | src/services/auth.service.ts:71-77 | inserting a session of an existing farmer keeps the invariant |
| `AuthService.RefreshExpiry` | src/services/auth.service.ts:15-19 | a session expires exactly 30 days (2 592 000 000 ms) after it opens |
| `AuthService.StoredEmailBlankIff` | src/models/Farmer.ts:58-64 | an address normalises (lower-cased and trimmed) to "" exactly when it is blank |
| `AuthService.SameStoredAddress` | src/models/Farmer.ts:58-64 | surrounding spaces and letter case do not change the stored address |
| `AuthService.FarmerWithEmail` | src/services/auth.service.ts:47 | the farmer stored under an address, none iff none is |
| `AuthService.FarmerWithEmailIsUnique` | src/services/auth.service.ts:108 | with unique addresses, the lookup finds the one farmer using it |
| `AuthService.NewSession` | src/services/auth.service.ts:71-77 | an active, unrevoked session of the farmer, expiring in 30 days, with agent and address or "" |
| `AuthService.RegisterCheck` | src/services/auth.service.ts:35-52 | name, e-mail, password-length and taken-address checks, in order, all bad requests |
| `AuthService.NewFarmer` | src/services/auth.service.ts:56-68 | trimmed name, lower-cased and trimmed address, hashed password, defaults for phone, language, location and counters |
| `AuthService.RegisterFarmer` | src/services/auth.service.ts:22-96 | refusal writes nothing; success adds exactly one farmer and one session and returns their tokens |
| `AuthService.SecondRegistrationRejected` | src/services/auth.service.ts:47-52 | after a registration, the same address in any letter case and with any padding is refused |
| `AuthService.SameAddressNotBlank` | src/services/auth.service.ts:38-50 | two addresses that store alike are blank together |
| `AuthService.TakenAfterInsert` | src/services/auth.service.ts:56-68 | a created farmer's address is taken from then on |
| `AuthService.TakenEmailRejected` | src/services/auth.service.ts:47-52 | otherwise valid input whose normalised address is taken is refused with "Email already registered" |
| `AuthService.NewAddressKeepsUnique` | src/models/Farmer.ts:58-64 | creating a farmer under an unused address keeps addresses unique |
| `AuthService.LoginOutcome` | src/services/auth.service.ts:102-116 | success iff some farmer with the lower-cased, trimmed address accepts the password |
| `AuthService.LoginFarmer` | src/services/auth.service.ts:98-143 | refusal writes nothing; success adds exactly one session for that farmer |
| `AuthService.LoginHidesWhichCredentialFailed` | src/services/auth.service.ts:108-116 | an unknown address and a wrong password give the same error |
| `AuthService.LoginAfterRegister` | src/services/auth.service.ts:47-116 | logging in after registering, with the address in any case and padding, finds the new farmer |
| `AuthService.RefreshOutcome` | src/services/auth.service.ts:149-171 | token, verification, stored-and-active session and farmer checks in order, all unauthorized; an expired session counts as removed |
| `AuthService.RefreshWithinThirtyDays` | src/models/AuthSession.ts:31-32 | a newly opened session refreshes exactly until its 30 days are up, and is refused from then on |
| `AuthService.Refreshed` | src/services/auth.service.ts:183-187 | agent and address change only when reported and non-empty; nothing else changes |
| `AuthService.RefreshTokens` | src/services/auth.service.ts:145-197 | refusal writes nothing; success keeps the same session and updates only its agent and address |
| `AuthService.RefreshKeepsExpiry` | src/services/auth.service.ts:183-187 | a refresh never extends or revives a session |
| `AuthService.Revoked` | src/services/auth.service.ts:203-204 | inactive, revoked at now, otherwise the same session |
| `AuthService.LogoutCurrentSession` | src/services/auth.service.ts:199-206 | an unknown session is a no-op; otherwise only that session is revoked |
| `AuthService.RevokeAllOf` | src/services/auth.service.ts:208-213 | every session of the farmer ends inactive; others, and already inactive ones, are unchanged |
| `AuthService.LogoutAllSessionsForFarmer` | src/services/auth.service.ts:208-213 | the table becomes `RevokeAllOf` of the old one |
| `AuthService.RefreshAfterLogoutAllFails` | src/services/auth.service.ts:163-166 | after logging out everywhere, no token naming one of the farmer's sessions refreshes |
| `AuthService.RefreshAfterLogoutFails` | src/services/auth.service.ts:163-166 | after logging out a session, its tokens no longer refresh |
| `OpenMeteoClient.SumBounds` | src/services/weather/openMeteoClient.ts:42 | a sum of n samples in [lo, hi] lies in [n lo, n hi] |
| `OpenMeteoClient.WindowSize` | src/services/weather/openMeteoClient.ts:36 | the window is min(6, number of temperature samples) |
| `OpenMeteoClient.Taken` | src/services/weather/openMeteoClient.ts:40 | min(window, length) |
| `OpenMeteoClient.Avg` | src/services/weather/openMeteoClient.ts:38-44 | null iff the array is empty or the window is 0; otherwise the average times the count is the sum |
| `OpenMeteoClient.AvgWithinSamples` | src/services/weather/openMeteoClient.ts:38-44 | the average lies between the least and greatest averaged sample |
| `OpenMeteoClient.AvgOfConstant` | src/services/weather/openMeteoClient.ts:38-44 | equal samples average to their value |
| `OpenMeteoClient.CurrentWeather` | src/services/weather/openMeteoClient.ts:17-56 | a failed request gives three undefined values and the HTTP error |
| `OpenMeteoClient.NoTemperatureNoWeather` | src/services/weather/openMeteoClient.ts:30-48 | without temperature samples humidity and rain are undefined too |
| `OpenMeteoClient.SixHourMeans` | src/services/weather/openMeteoClient.ts:35-48 | with six hours of every series, each value is the mean of its first six |
| `OpenMeteoClient.FullWindowMean` | src/services/weather/openMeteoClient.ts:38-44 | a series at least as long as the window is averaged over the window |
| `OpenMeteoClient.ShortSeriesAveragedWhole` | src/services/weather/openMeteoClient.ts:38-44 | a series shorter than the window is averaged whole |
| `R2Client.ObjectKey` | src/services/storage/r2.client.ts:33-35 | folder (default "other") + "/" + file name, or the fresh id when the name is empty |
| `R2Client.PublicUrlFor` | src/services/storage/r2.client.ts:46 | the public URL, "/", then the key |
| `R2Client.KeyToDelete` | src/services/storage/r2.client.ts:53-60 | none iff the URL lacks the public prefix; otherwise the rest after one more character |
| `R2Client.DeleteFindsUploadedKey` | src/services/storage/r2.client.ts:35-60 | deleting by an uploaded URL deletes the uploaded key |
| `R2Client.SeparatorNotChecked` | src/services/storage/r2.client.ts:54-60 | the character after the prefix is dropped unchecked |
| `R2Client.UrlsDistinguishKeys` | src/services/storage/r2.client.ts:46 | distinct keys give distinct URLs |
| `SeedExamples.BoroHotHumidDay` | src/seed/cropDefinitions.data.ts:140-144 | boro paddy at 30 °C, 15 %, 70 %: stresses 2/3, 5/7, 0.7; high, 24 h, high temperature |
| `SeedExamples.BoroHotHumidDayScored` | src/services/etcl/etclLogic.ts:59-92 | the same day through `Etcl`, for any templates and formats |
| `SeedExamples.LowRiskWithNamedCause` | src/services/etcl/etclLogic.ts:65-85 | a stress of 0.1 is low risk (96 h) yet dominated by humidity, not "Normal" |
| `SeedExamples.ReversedHumidityRampsNeverStress` | src/seed/cropDefinitions.data.ts:396-397 | potato's (and tomato's) reversed humidity ramp never stresses |
| `SeedExamples.Day45IsTillering` | src/services/etcl/stageWeatherRules.ts:56-62 | day 45 selects the 31-60 stage |
| `SeedExamples.Day200FallsBackToFirstOrder` | src/services/etcl/stageWeatherRules.ts:65-66 | day 200 selects the least order, whatever the listing order |
| `SeedExamples.RainBoundExamples` | src/services/etcl/stageWeatherRules.ts:92-97 | 75 % matches a 60 % minimum, 40 % does not, unknown skips the bound |
| `SeedExamples.BlastWarningExamples` | src/seed/cropDefinitions.data.ts:67-76 | the tillering blast rule: cool wet weather matches; warmer, more humid or drier does not |

## Left out

- HTTP transport (controllers, routes, middlewares) is not modelled. The controller's start-mode list is used only to state `PlanningModeRejected`.
- Network and storage I/O are left out: the weather fetch, the object-store uploads and deletes, and database round trips. Each operation is one atomic update of `Store.Db`, so concurrent requests and lost updates are not modelled.
- `Common.Lower` lowers ASCII A–Z only. Every other character, including accented and non-Latin capitals, is left unchanged, so `toLowerCase`'s full case mapping is not modelled.
- `Common.Trim` uses the white space and line terminators of `String.prototype.trim`. Password length is counted in characters, not UTF-16 code units.
- `LocalizedTemplate.Substitute` treats each `{key}` as a literal pattern. A key with regular-expression metacharacters, and `$` patterns in values, are not modelled.
- The formatting of numbers (`toFixed`, `Math.round`, `String`) is a parameter. `Common.IntToString` renders integers, which is all the ETCL sentence needs.
- Dates are integers (milliseconds); an unparsable date string is not modelled. A date of 0 counts as present, whereas JavaScript treats 0 as falsy.
- Identifiers are natural numbers. A malformed ObjectId, and the exception its construction raises, are not modelled.
- `CropCycleService.ListFarmerCrops` returns a set, so the order by planting date and creation time is not modelled.
- The dominant cause is modelled by its comparison chain. "Combined risk" is unreachable (`CombinedRiskUnreachable`).
- A crop definition is referenced by its index; a cycle whose definition is missing fails the storage-profile check, as `populate` returning null does.
- EtclLogic.RampStress: stresses, thresholds and weather values are exact reals, not IEEE doubles. A score that double rounding puts just past a 0.2/0.5/0.8 boundary is exactly on it here. For example, a temperature of 30.6 on a 25–32 ramp scores 0.8 (high, 24 h), where the source computes 0.8000000000000002 (critical, 6 h).
- EtclLogic.ComputeEtcl: inherits the exact-real arithmetic of `RampStress`, so its level and ETCL hours can differ from the source's where a double-rounded score crosses a bucket boundary.
- AuthService.RefreshOutcome: the TTL index's background deletion is modelled as instantaneous. A session counts as removed as soon as its expiry has passed, though MongoDB's monitor may delete it up to a minute later, so a refresh just after expiry may still succeed in the source. Expired sessions stay in `Store.Db`'s map as dead entries. Refresh treats them as removed. The logout operations may mark them revoked, which no operation can observe.
- `AuthService.RefreshTokens` uses the token's `sub` and `sessionId` as the verifier returns them. It does not check that the session belongs to `sub`, and neither does the source.
- `AuthService` token payloads omit the constant role "farmer". Cookie handling and the access-token middleware are not modelled.
- The seed catalogue is used only for concrete examples, and the bulk upsert of crop definitions is not modelled.
