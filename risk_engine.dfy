/**
 * The disease-risk scorer: an additive rule system over one feature
 * snapshot, clamped to [0, 100], from which the level, the likely disease,
 * the outbreak ETA, a four-point forecast and a tiered action plan follow.
 * One piece of state, the last level, makes the alert fire only on the
 * rising edge into HIGH.
 *
 * Sensor readings are Python floats; here they are exact reals. The
 * constants 0.85, 1.15 and 0.22 are exact rationals, and `int(...)` of a
 * product is truncation toward zero (`TruncDiv`).
 */
module RiskEngine {
  import opened Wrappers
  import opened Python

  datatype Level = Low | Medium | High

  /** The level as it appears in payloads ("LOW", "MEDIUM", "HIGH"). */
  function LevelName(l: Level): (s: string)
    ensures s == "HIGH" <==> l == High
  {
    match l
    case Low => "LOW"
    case Medium => "MEDIUM"
    case High => "HIGH"
  }

  /** The keys of a feature dictionary that the scorer reads. */
  datatype Features = Features(
    humidity: real,
    temperature: real,
    rainForecast: real,
    soilMoisture: real,
    windSpeed: real,
    leafWetness: real,
    soilTemperature: real,
    soilPh: real,
    solarRadiation: real,
    cropType: string,
    anomalyScore: real)

  /**
   * `float(features.get(key, default))` for every key the scorer reads, with
   * the scorer's defaults (pH 7, solar radiation 500, crop "unknown", all
   * others 0); None when some `float(...)` raises.
   */
  function FeaturesFromDict(d: map<string, Value>): (r: Option<Features>)
    ensures r.Some? ==> r.value.cropType == Render(Get(d, "crop_type", Str("unknown")))
    ensures r.Some? && "soil_ph" !in d ==> r.value.soilPh == 7.0
    ensures r.Some? && "solar_radiation" !in d ==> r.value.solarRadiation == 500.0
    ensures r.Some? && "humidity" in d ==> ToFloat(d["humidity"]) == Some(r.value.humidity)
    ensures ToFloat(Get(d, "humidity", Int(0))).None? ==> r.None?
  {
    var h := ToFloat(Get(d, "humidity", Int(0)));
    var t := ToFloat(Get(d, "temperature", Int(0)));
    var rf := ToFloat(Get(d, "rain_forecast", Int(0)));
    var sm := ToFloat(Get(d, "soil_moisture", Int(0)));
    var ws := ToFloat(Get(d, "wind_speed", Int(0)));
    var lw := ToFloat(Get(d, "leaf_wetness", Int(0)));
    var st := ToFloat(Get(d, "soil_temperature", Int(0)));
    var ph := ToFloat(Get(d, "soil_ph", Int(7)));
    var sr := ToFloat(Get(d, "solar_radiation", Int(500)));
    var an := ToFloat(Get(d, "anomaly_score", Int(0)));
    if h.Some? && t.Some? && rf.Some? && sm.Some? && ws.Some? && lw.Some? && st.Some?
       && ph.Some? && sr.Some? && an.Some?
    then
      Some(Features(h.value, t.value, rf.value, sm.value, ws.value, lw.value, st.value,
                    ph.value, sr.value, Render(Get(d, "crop_type", Str("unknown"))), an.value))
    else
      None
  }

  // ---------------------------------------------------------------------
  // The score: ten weather rules in a fixed order plus a crop adjustment

  datatype Rule =
    | HumidAir | WarmAir | RainAhead | WetLeaves | WetSoil
    | CalmAir | WarmSoil | PhOutside | DimAndHumid | Anomalous

  /** The position of each rule in the order the scorer checks them. */
  function RuleIndex(r: Rule): nat {
    match r
    case HumidAir => 0
    case WarmAir => 1
    case RainAhead => 2
    case WetLeaves => 3
    case WetSoil => 4
    case CalmAir => 5
    case WarmSoil => 6
    case PhOutside => 7
    case DimAndHumid => 8
    case Anomalous => 9
  }

  predicate Fires(r: Rule, f: Features) {
    match r
    case HumidAir => f.humidity > 80.0
    case WarmAir => 20.0 <= f.temperature <= 30.0
    case RainAhead => f.rainForecast >= 0.6
    case WetLeaves => f.leafWetness > 70.0
    case WetSoil => f.soilMoisture > 70.0
    case CalmAir => f.windSpeed < 2.0
    case WarmSoil => 18.0 <= f.soilTemperature <= 28.0
    case PhOutside => !(5.8 <= f.soilPh <= 7.2)
    case DimAndHumid => f.humidity > 80.0 && f.solarRadiation < 280.0
    case Anomalous => f.anomalyScore >= 1.0
  }

  function Weight(r: Rule): nat {
    match r
    case HumidAir => 25
    case WarmAir => 20
    case RainAhead => 20
    case WetLeaves => 12
    case WetSoil => 10
    case CalmAir => 10
    case WarmSoil => 8
    case PhOutside => 6
    case DimAndHumid => 6
    case Anomalous => 10
  }

  /** The reason text a firing rule contributes. */
  function ReasonText(r: Rule): string {
    match r
    case HumidAir => "Humidity is above 80%, creating fungal-friendly conditions."
    case WarmAir => "Temperature is in the 20\U{2013}30\U{00B0}C fungal growth range."
    case RainAhead => "Rain is forecasted, increasing leaf wetness duration."
    case WetLeaves => "Leaf wetness is elevated, increasing fungal germination likelihood."
    case WetSoil => "Soil moisture is high, supporting pathogen persistence."
    case CalmAir => "Low wind speed can reduce canopy drying."
    case WarmSoil => "Soil temperature supports disease development dynamics."
    case PhOutside => "Soil pH is outside the preferred range, increasing plant stress."
    case DimAndHumid => "Low solar radiation with high humidity may prolong canopy wetness."
    case Anomalous => "Recent sensor pattern deviates from rolling baseline."
  }

  /** What one rule adds to the score. */
  function Share(r: Rule, f: Features): nat {
    if Fires(r, f) then Weight(r) else 0
  }

  /** What one rule adds to the reasons. */
  function Fired(r: Rule, f: Features): seq<Rule> {
    if Fires(r, f) then [r] else []
  }

  /** The sum of the weights of the rules that fire. */
  function RuleSum(f: Features): nat {
    Share(HumidAir, f) + Share(WarmAir, f) + Share(RainAhead, f) + Share(WetLeaves, f)
    + Share(WetSoil, f) + Share(CalmAir, f) + Share(WarmSoil, f) + Share(PhOutside, f)
    + Share(DimAndHumid, f) + Share(Anomalous, f)
  }

  /** The rules that fire, in the order they are checked; each one stands for its reason text. */
  function FiredRules(f: Features): seq<Rule> {
    Fired(HumidAir, f) + Fired(WarmAir, f) + Fired(RainAhead, f) + Fired(WetLeaves, f)
    + Fired(WetSoil, f) + Fired(CalmAir, f) + Fired(WarmSoil, f) + Fired(PhOutside, f)
    + Fired(DimAndHumid, f) + Fired(Anomalous, f)
  }

  /** The crop adjustment, looked up on the lower-cased crop name. */
  function CropBonus(crop: string): (b: nat)
    ensures 2 <= b <= 8
    ensures CropOf(crop) == OtherCrop ==> b == 2
  {
    match CropOf(crop)
    case Rice => 8
    case Tomato => 8
    case Potato => 6
    case Wheat => 4
    case Maize => 3
    case Cotton => 4
    case OtherCrop => 2
  }

  /** The clamped score; never below 2, because the crop adjustment is at least 2. */
  function ScoreOf(f: Features): (s: int)
    ensures 2 <= s <= 100
    ensures RuleSum(f) + CropBonus(f.cropType) <= 100 ==> s == RuleSum(f) + CropBonus(f.cropType)
  {
    Clamp(0, 100, RuleSum(f) + CropBonus(f.cropType))
  }

  function LevelOf(score: int): (l: Level)
    ensures l == High <==> score >= 75
    ensures l == Medium <==> 45 <= score < 75
    ensures l == Low <==> score < 45
  {
    if score >= 75 then High else if score >= 45 then Medium else Low
  }

  /**
   * Every fixed line of advice the scorer can emit: generic actions, disease
   * suggestions and action-plan lines. `AdviceText` gives the text.
   */
  datatype Advice =
    // generic actions
    | ScoutTwiceDaily | ImproveAirCirculation | PrepareFungicidePlan
    | MonitorRainWindows | InspectShadedZones | MorningWatering
    | RoutineMonitoring | KeepDrainage
    // disease suggestions
    | InspectLowerCanopy | ReduceLeafWetness
    | RemoveInfectedLeaves | RotateFungicide | AvoidEveningIrrigation
    | BlightSpraySchedule | ImproveFieldDrainage | ScoutAfterRain
    | LimitNitrogen | SpacingAndWater | ConfirmedThresholdFungicide
    | ScoutDenseSections | ResistantVarieties | AvoidLateIrrigation
    | ScoutGrayLesions | ResidueManagement | EscalationFungicide
    // action-plan lines
    | TriggerProtocol | GeoTaggedPhotos | ReviewProgression | ValidateRotation
    | IncreaseScouting | CheckIrrigationTiming | TrackTrend | ReviewCanopyPractices
    | MaintainMonitoring | InspectPlots | ReassessThresholds | TrainStaff

  function AdviceText(a: Advice): string {
    match a
    case ScoutTwiceDaily => "Increase field scouting frequency to twice daily."
    case ImproveAirCirculation => "Improve air circulation and avoid overhead irrigation."
    case PrepareFungicidePlan => "Prepare targeted fungicide plan based on local agronomy guidance."
    case MonitorRainWindows => "Monitor humidity and rainfall windows closely."
    case InspectShadedZones => "Inspect lower canopy and shaded zones for early signs."
    case MorningWatering => "Optimize irrigation timing for morning-only watering."
    case RoutineMonitoring => "Continue routine monitoring and maintain hygiene practices."
    case KeepDrainage => "Keep drainage and ventilation in good condition."
    case InspectLowerCanopy => "Inspect the lower canopy for early lesions and discoloration."
    case ReduceLeafWetness => "Reduce prolonged leaf wetness by improving airflow and irrigation timing."
    case RemoveInfectedLeaves => "Remove infected lower leaves and sanitize tools after handling plants."
    case RotateFungicide => "Use preventive fungicide strategy with active ingredient rotation."
    case AvoidEveningIrrigation => "Avoid overhead irrigation in late afternoon and evening."
    case BlightSpraySchedule => "Start preventive blight spray schedule based on local advisory guidance."
    case ImproveFieldDrainage => "Improve field drainage and avoid dense canopy humidity pockets."
    case ScoutAfterRain => "Scout high-risk zones twice daily after rainfall windows."
    case LimitNitrogen => "Avoid excess nitrogen applications during high-risk humid windows."
    case SpacingAndWater => "Maintain optimal spacing and water management to limit prolonged wetness."
    case ConfirmedThresholdFungicide => "Apply targeted fungicide only when threshold is confirmed by local guidelines."
    case ScoutDenseSections => "Increase scouting around dense and shaded sections of the field."
    case ResistantVarieties => "Prioritize resistant varieties and timely foliar protection if thresholds are met."
    case AvoidLateIrrigation => "Avoid unnecessary late irrigation that increases canopy humidity."
    case ScoutGrayLesions => "Scout for elongated gray-green lesions in lower to mid canopy."
    case ResidueManagement => "Improve residue management and maintain field airflow."
    case EscalationFungicide => "Use targeted fungicide only if disease pressure escalates and thresholds are met."
    case TriggerProtocol => "Trigger high-risk protocol and notify field supervisor."
    case GeoTaggedPhotos => "Capture geo-tagged photos and lesion notes from scouting zones."
    case ReviewProgression => "Review disease progression trend and recalibrate intervention thresholds."
    case ValidateRotation => "Validate fungicide rotation and compliance with local advisory rules."
    case IncreaseScouting => "Increase scouting frequency in shaded and low-airflow zones."
    case CheckIrrigationTiming => "Check irrigation timing and avoid late-evening canopy wetness."
    case TrackTrend => "Track trend consistency before escalating to chemical controls."
    case ReviewCanopyPractices => "Review drainage and canopy management practices for hotspots."
    case MaintainMonitoring => "Maintain routine monitoring and verify sensor calibration."
    case InspectPlots => "Inspect representative plots and document baseline crop health."
    case ReassessThresholds => "Reassess risk thresholds using recent weather and disease observations."
    case TrainStaff => "Train field staff on early symptom spotting checklist."
  }

  /** The generic suggested actions of each level. */
  function GenericActions(l: Level): (a: seq<Advice>)
    ensures |a| == if l == Low then 2 else 3
  {
    match l
    case High => [ScoutTwiceDaily, ImproveAirCirculation, PrepareFungicidePlan]
    case Medium => [MonitorRainWindows, InspectShadedZones, MorningWatering]
    case Low => [RoutineMonitoring, KeepDrainage]
  }

  // ---------------------------------------------------------------------
  // Disease prediction

  /** The crops the scorer and the disease table know, after lower-casing. */
  datatype Crop = Rice | Tomato | Potato | Wheat | Maize | Cotton | OtherCrop

  /** Lower-cases the crop name and looks it up. */
  function CropOf(crop: string): Crop {
    var c := Lower(crop);
    if c == "rice" then Rice
    else if c == "tomato" then Tomato
    else if c == "potato" then Potato
    else if c == "wheat" then Wheat
    else if c == "maize" then Maize
    else if c == "cotton" then Cotton
    else OtherCrop
  }

  datatype Disease =
    | MoistureStress | EarlyBlight | LateBlight | RiceBlast | LeafRust
    | NorthernLeafBlight | FungalComplex

  /** The label each disease carries in payloads. */
  function DiseaseName(d: Disease): string {
    match d
    case MoistureStress => "General moisture stress"
    case EarlyBlight => "Early blight (Alternaria) risk"
    case LateBlight => "Late blight risk"
    case RiceBlast => "Rice blast risk"
    case LeafRust => "Leaf rust risk"
    case NorthernLeafBlight => "Northern leaf blight risk"
    case FungalComplex => "Fungal disease complex risk"
  }

  datatype Diagnosis = Diagnosis(disease: Disease, confidence: int, suggestions: seq<Advice>)

  const GeneralSuggestions: seq<Advice> := [InspectLowerCanopy, ReduceLeafWetness]

  /** The "fungal window" gate. */
  predicate FungalWindow(f: Features, score: int) {
    (f.humidity > 78.0 && f.leafWetness > 65.0)
    || (f.rainForecast > 0.55 && f.leafWetness > 60.0)
    || (score >= 75 && 18.0 <= f.temperature <= 32.0)
  }

  /** The crop-specific diagnosis used inside the fungal window. */
  function CropDiagnosis(crop: Crop): Option<Diagnosis> {
    match crop
    case Tomato => Some(Diagnosis(EarlyBlight, 72, [RemoveInfectedLeaves, RotateFungicide, AvoidEveningIrrigation]))
    case Potato => Some(Diagnosis(LateBlight, 76, [BlightSpraySchedule, ImproveFieldDrainage, ScoutAfterRain]))
    case Rice => Some(Diagnosis(RiceBlast, 74, [LimitNitrogen, SpacingAndWater, ConfirmedThresholdFungicide]))
    case Wheat => Some(Diagnosis(LeafRust, 68, [ScoutDenseSections, ResistantVarieties, AvoidLateIrrigation]))
    case Maize => Some(Diagnosis(NorthernLeafBlight, 64, [ScoutGrayLesions, ResidueManagement, EscalationFungicide]))
    case _ => None
  }

  /** The secondary lookup used when the score is HIGH but no crop-specific diagnosis was made. */
  function FallbackDisease(crop: Crop): (d: Disease)
    ensures d != MoistureStress
    ensures CropDiagnosis(crop).Some? ==> d == CropDiagnosis(crop).value.disease
    ensures CropDiagnosis(crop).None? ==> d == FungalComplex
  {
    match crop
    case Tomato => EarlyBlight
    case Potato => LateBlight
    case Rice => RiceBlast
    case Wheat => LeafRust
    case Maize => NorthernLeafBlight
    case _ => FungalComplex
  }

  /** The diagnosis before the HIGH-score fallback: crop-specific inside the fungal window, else the generic one. */
  function GatedDiagnosis(f: Features, score: int): (d: Diagnosis)
    ensures d.confidence >= 45 && 2 <= |d.suggestions| <= 3
    ensures d.disease == MoistureStress ==> d.confidence == 45
    ensures FungalWindow(f, score) && CropDiagnosis(CropOf(f.cropType)).Some? ==>
              d == CropDiagnosis(CropOf(f.cropType)).value
    ensures !(FungalWindow(f, score) && CropDiagnosis(CropOf(f.cropType)).Some?) ==>
              d == Diagnosis(MoistureStress, 45, GeneralSuggestions)
  {
    var crop := CropOf(f.cropType);
    if FungalWindow(f, score) && CropDiagnosis(crop).Some? then CropDiagnosis(crop).value
    else Diagnosis(MoistureStress, 45, GeneralSuggestions)
  }

  /** With a HIGH score the generic disease is replaced by the crop's fallback, at confidence at least 68. */
  function HighScoreFallback(d: Diagnosis, crop: Crop, score: int): (e: Diagnosis)
    ensures e.suggestions == d.suggestions && e.confidence >= d.confidence
    ensures score >= 75 ==> e.disease != MoistureStress
    ensures d.disease != MoistureStress || score < 75 ==> e == d
  {
    if score >= 75 && d.disease == MoistureStress then
      Diagnosis(FallbackDisease(crop), if d.confidence > 68 then d.confidence else 68, d.suggestions)
    else d
  }

  /** `min(95, max(confidence, int(score * 0.85)))` */
  function ScaledConfidence(confidence: int, score: int): (c: int)
    ensures c <= 95
    ensures c >= (if confidence < 95 then confidence else 95)
    ensures c >= (if TruncDiv(score * 85, 100) < 95 then TruncDiv(score * 85, 100) else 95)
  {
    var scaled := TruncDiv(score * 85, 100);
    var raised := if confidence > scaled then confidence else scaled;
    if raised < 95 then raised else 95
  }

  /** `_predict_disease(features, score)` */
  function PredictDisease(f: Features, score: int): (d: Diagnosis)
    ensures 45 <= d.confidence <= 95
    ensures d.confidence >= (if TruncDiv(score * 85, 100) < 95 then TruncDiv(score * 85, 100) else 95)
    ensures score >= 75 ==> d.disease != MoistureStress
    ensures 2 <= |d.suggestions| <= 3
    ensures FungalWindow(f, score) && CropDiagnosis(CropOf(f.cropType)).Some? ==>
              d.disease == CropDiagnosis(CropOf(f.cropType)).value.disease
              && d.suggestions == CropDiagnosis(CropOf(f.cropType)).value.suggestions
    ensures !FungalWindow(f, score) && score < 75 ==>
              d.disease == MoistureStress && d.suggestions == GeneralSuggestions
    ensures score >= 75 && !(FungalWindow(f, score) && CropDiagnosis(CropOf(f.cropType)).Some?) ==>
              d.disease == FallbackDisease(CropOf(f.cropType)) && d.suggestions == GeneralSuggestions
              && d.confidence == ScaledConfidence(68, score)
    ensures FungalWindow(f, score) && CropDiagnosis(CropOf(f.cropType)).Some? ==>
              d.confidence == ScaledConfidence(CropDiagnosis(CropOf(f.cropType)).value.confidence, score)
  {
    var second := HighScoreFallback(GatedDiagnosis(f, score), CropOf(f.cropType), score);
    Diagnosis(second.disease, ScaledConfidence(second.confidence, score), second.suggestions)
  }

  // ---------------------------------------------------------------------
  // Outbreak ETA and forecast

  /** `int(72 - max(0, score - 35) * 1.15)` */
  function BaseEta(score: int): int {
    TruncDiv(7200 - 115 * (if score > 35 then score - 35 else 0), 100)
  }

  /** Hours taken off the ETA by the weather. */
  function EtaPenalty(f: Features): nat {
    (if f.humidity > 80.0 then 8 else 0)
    + (if f.leafWetness > 70.0 then 10 else 0)
    + (if f.rainForecast > 0.65 then 8 else 0)
    + (if f.anomalyScore > 1.2 then 6 else 0)
  }

  function OutbreakEta(f: Features, score: int): (eta: int)
    ensures 6 <= eta <= 72
  {
    Clamp(6, 72, BaseEta(score) - EtaPenalty(f))
  }

  datatype OutbreakWindow = Critical | HighProbability | ModerateProbability | Watch

  function WindowText(w: OutbreakWindow): string {
    match w
    case Critical => "Critical window: within 12 hours"
    case HighProbability => "High probability window: within 24 hours"
    case ModerateProbability => "Moderate probability window: within 48 hours"
    case Watch => "Watch window: within 72 hours"
  }

  /** The window label of an ETA: thresholds at 12, 24 and 48 hours. */
  function WindowOf(eta: int): (w: OutbreakWindow)
    ensures w == Critical <==> eta <= 12
    ensures w == HighProbability <==> 12 < eta <= 24
    ensures w == ModerateProbability <==> 24 < eta <= 48
    ensures w == Watch <==> eta > 48
  {
    if eta <= 12 then Critical
    else if eta <= 24 then HighProbability
    else if eta <= 48 then ModerateProbability
    else Watch
  }

  datatype ForecastPoint = ForecastPoint(hours: int, riskScore: int)

  const Horizons: seq<int> := [12, 24, 48, 72]

  /** The weather-pressure term of the forecast. */
  function WeatherPush(f: Features): nat {
    (if f.humidity > 80.0 then 5 else 0)
    + (if f.rainForecast > 0.6 then 6 else 0)
    + (if f.leafWetness > 70.0 then 5 else 0)
    + (if f.windSpeed < 2.0 then 3 else 0)
  }

  /** `int(horizon * 0.22)` */
  function Decay(hours: int): int {
    TruncDiv(hours * 22, 100)
  }

  function Projected(score: int, push: int, hours: int): (p: int)
    ensures 5 <= p <= 100
  {
    Clamp(5, 100, score + push - Decay(hours))
  }

  /** The four forecast points, one per horizon. */
  function Forecast(f: Features, score: int): seq<ForecastPoint> {
    seq(4, k requires 0 <= k < 4 => ForecastPoint(Horizons[k], Projected(score, WeatherPush(f), Horizons[k])))
  }

  /** Four points at 12, 24, 48 and 72 hours, each within 5..100, never rising with the horizon. */
  lemma ForecastShape(f: Features, score: int)
    ensures |Forecast(f, score)| == 4
    ensures forall k :: 0 <= k < 4 ==> Forecast(f, score)[k].hours == Horizons[k]
    ensures forall k :: 0 <= k < 4 ==> 5 <= Forecast(f, score)[k].riskScore <= 100
    ensures forall j, k :: 0 <= j < k < 4 ==> Forecast(f, score)[j].riskScore >= Forecast(f, score)[k].riskScore
  {
    var p := Forecast(f, score);
    var push := WeatherPush(f);
    assert Decay(12) == 2 && Decay(24) == 5 && Decay(48) == 10 && Decay(72) == 15;
    assert p[0].riskScore >= p[1].riskScore >= p[2].riskScore >= p[3].riskScore;
  }

  // ---------------------------------------------------------------------
  // Action plan

  datatype ActionPlan = ActionPlan(doNow: seq<Advice>, today: seq<Advice>, thisWeek: seq<Advice>)

  /** `_build_action_plan(level, suggested_actions, disease_suggestions)` */
  function BuildActionPlan(level: Level, actions: seq<Advice>, diseaseSuggestions: seq<Advice>): (p: ActionPlan)
    ensures 1 <= |p.doNow| <= 3 && 1 <= |p.today| <= 3 && |p.thisWeek| == 2
    ensures level == High ==> p.doNow == [TriggerProtocol] + Prefix(diseaseSuggestions, 2)
    ensures level == High ==> p.today == Prefix(actions, 2) + [GeoTaggedPhotos]
    ensures level == Medium ==> p.doNow == [IncreaseScouting] + Prefix(actions, 1)
    ensures level == Medium ==> p.today == Prefix(diseaseSuggestions, 2) + [CheckIrrigationTiming]
  {
    match level
    case High =>
      ActionPlan([TriggerProtocol] + Prefix(diseaseSuggestions, 2),
                 Prefix(actions, 2) + [GeoTaggedPhotos],
                 [ReviewProgression, ValidateRotation])
    case Medium =>
      ActionPlan([IncreaseScouting] + Prefix(actions, 1),
                 Prefix(diseaseSuggestions, 2) + [CheckIrrigationTiming],
                 [TrackTrend, ReviewCanopyPractices])
    case Low =>
      ActionPlan([MaintainMonitoring], [InspectPlots], [ReassessThresholds, TrainStaff])
  }

  /** The LOW plan does not depend on the actions or the disease suggestions. */
  lemma LowPlanIsFixed(a1: seq<Advice>, s1: seq<Advice>, a2: seq<Advice>, s2: seq<Advice>)
    ensures BuildActionPlan(Low, a1, s1) == BuildActionPlan(Low, a2, s2)
  {
  }

  // ---------------------------------------------------------------------
  // The whole assessment

  datatype RiskResult = RiskResult(
    riskScore: int,
    riskLevel: Level,
    reasons: seq<Rule>,
    suggestedActions: seq<Advice>,
    predictedDisease: Disease,
    diseaseConfidence: int,
    diseaseSuggestions: seq<Advice>,
    outbreakEtaHours: int,
    outbreakWindow: OutbreakWindow,
    forecastTrajectory: seq<ForecastPoint>,
    actionPlan: ActionPlan,
    alertTriggered: bool)

  /** What `score(features)` returns when the previous level was `last`. */
  function Assess(f: Features, last: Level): RiskResult {
    var s := ScoreOf(f);
    var level := LevelOf(s);
    var d := PredictDisease(f, s);
    var eta := OutbreakEta(f, s);
    RiskResult(s, level, FiredRules(f), GenericActions(level),
               d.disease, d.confidence, d.suggestions, eta, WindowOf(eta),
               Forecast(f, s), BuildActionPlan(level, GenericActions(level), d.suggestions),
               level == High && last != High)
  }

  // ---------------------------------------------------------------------
  // Properties of the assessment

  /** Rule indices strictly increase along `s`. */
  predicate InRuleOrder(s: seq<Rule>) {
    forall i, j :: 0 <= i < j < |s| ==> RuleIndex(s[i]) < RuleIndex(s[j])
  }

  /** Appending the reason of a later rule keeps the reasons in rule order. */
  lemma AppendLater(s: seq<Rule>, r: Rule, f: Features)
    requires InRuleOrder(s)
    requires forall i :: 0 <= i < |s| ==> RuleIndex(s[i]) < RuleIndex(r)
    ensures InRuleOrder(s + Fired(r, f))
    ensures forall i :: 0 <= i < |s + Fired(r, f)| ==> RuleIndex((s + Fired(r, f))[i]) <= RuleIndex(r)
  {
  }

  /** The reason of rule `q` lists `r` only when `q` is `r` and fires. */
  lemma InFired(r: Rule, q: Rule, f: Features)
    ensures r in Fired(q, f) <==> r == q && Fires(q, f)
  {
  }

  /** A rule contributes a reason exactly when it fires. */
  lemma ReasonIffFires(f: Features, r: Rule)
    ensures r in FiredRules(f) <==> Fires(r, f)
  {
    InFired(r, HumidAir, f);
    InFired(r, WarmAir, f);
    InFired(r, RainAhead, f);
    InFired(r, WetLeaves, f);
    InFired(r, WetSoil, f);
    InFired(r, CalmAir, f);
    InFired(r, WarmSoil, f);
    InFired(r, PhOutside, f);
    InFired(r, DimAndHumid, f);
    InFired(r, Anomalous, f);
  }

  /** The reasons are in rule order, hence each rule contributes at most one reason. */
  lemma ReasonsInRuleOrder(f: Features)
    ensures InRuleOrder(FiredRules(f))
  {
    var s0 := Fired(HumidAir, f);
    var s1 := s0 + Fired(WarmAir, f);
    AppendLater(s0, WarmAir, f);
    var s2 := s1 + Fired(RainAhead, f);
    AppendLater(s1, RainAhead, f);
    var s3 := s2 + Fired(WetLeaves, f);
    AppendLater(s2, WetLeaves, f);
    var s4 := s3 + Fired(WetSoil, f);
    AppendLater(s3, WetSoil, f);
    var s5 := s4 + Fired(CalmAir, f);
    AppendLater(s4, CalmAir, f);
    var s6 := s5 + Fired(WarmSoil, f);
    AppendLater(s5, WarmSoil, f);
    var s7 := s6 + Fired(PhOutside, f);
    AppendLater(s6, PhOutside, f);
    var s8 := s7 + Fired(DimAndHumid, f);
    AppendLater(s7, DimAndHumid, f);
    AppendLater(s8, Anomalous, f);
    assert FiredRules(f) == s8 + Fired(Anomalous, f);
  }

  /** The score, as the sum of the weights of exactly the reasons listed. */
  function WeightSum(rs: seq<Rule>): nat {
    if rs == [] then 0 else WeightSum(rs[..|rs| - 1]) + Weight(rs[|rs| - 1])
  }

  lemma {:induction false} WeightSumAppend(a: seq<Rule>, b: seq<Rule>)
    ensures WeightSum(a + b) == WeightSum(a) + WeightSum(b)
  {
    if b != [] {
      assert (a + b)[..|a + b| - 1] == a + b[..|b| - 1];
      WeightSumAppend(a, b[..|b| - 1]);
    } else {
      assert a + b == a;
    }
  }

  lemma FiredWeight(r: Rule, f: Features)
    ensures WeightSum(Fired(r, f)) == Share(r, f)
  {
    if Fires(r, f) {
      assert Fired(r, f)[..0] == [];
    }
  }

  /** Before the crop adjustment, the score is the total weight of the reasons given. */
  lemma ScoreIsWeightOfReasons(f: Features)
    ensures RuleSum(f) == WeightSum(FiredRules(f))
    ensures ScoreOf(f) == Clamp(0, 100, WeightSum(FiredRules(f)) + CropBonus(f.cropType))
  {
    var s := Fired(HumidAir, f);
    FiredWeight(HumidAir, f);
    FiredWeight(WarmAir, f);
    WeightSumAppend(s, Fired(WarmAir, f));
    s := s + Fired(WarmAir, f);
    FiredWeight(RainAhead, f);
    WeightSumAppend(s, Fired(RainAhead, f));
    s := s + Fired(RainAhead, f);
    FiredWeight(WetLeaves, f);
    WeightSumAppend(s, Fired(WetLeaves, f));
    s := s + Fired(WetLeaves, f);
    FiredWeight(WetSoil, f);
    WeightSumAppend(s, Fired(WetSoil, f));
    s := s + Fired(WetSoil, f);
    FiredWeight(CalmAir, f);
    WeightSumAppend(s, Fired(CalmAir, f));
    s := s + Fired(CalmAir, f);
    FiredWeight(WarmSoil, f);
    WeightSumAppend(s, Fired(WarmSoil, f));
    s := s + Fired(WarmSoil, f);
    FiredWeight(PhOutside, f);
    WeightSumAppend(s, Fired(PhOutside, f));
    s := s + Fired(PhOutside, f);
    FiredWeight(DimAndHumid, f);
    WeightSumAppend(s, Fired(DimAndHumid, f));
    s := s + Fired(DimAndHumid, f);
    FiredWeight(Anomalous, f);
    WeightSumAppend(s, Fired(Anomalous, f));
    s := s + Fired(Anomalous, f);
    assert s == FiredRules(f);
  }

  /** The alert fires on the rising edge into HIGH, and only there. */
  lemma AlertOnRisingEdge(f: Features, last: Level)
    ensures Assess(f, last).alertTriggered <==> ScoreOf(f) >= 75 && last != High
    ensures Assess(f, last).riskLevel == High <==> ScoreOf(f) >= 75
  {
  }

  /** The level `score()` stores for a snapshot. */
  function LevelAfter(f: Features): Level {
    LevelOf(ScoreOf(f))
  }

  /** The results of scoring `fs` in turn on one engine whose last level was `last`. */
  function Run(fs: seq<Features>, last: Level): (rs: seq<RiskResult>)
    ensures |rs| == |fs|
  {
    if fs == [] then [] else [Assess(fs[0], last)] + Run(fs[1..], LevelAfter(fs[0]))
  }

  /** Each assessment of a run sees the level stored by the one before it. */
  lemma {:induction false} RunStep(fs: seq<Features>, last: Level, i: nat)
    requires i < |fs|
    ensures Run(fs, last)[i] == Assess(fs[i], if i == 0 then last else LevelAfter(fs[i - 1]))
  {
    if i > 0 {
      var rest := Run(fs[1..], LevelAfter(fs[0]));
      assert Run(fs, last)[1..] == rest;
      RunStep(fs[1..], LevelAfter(fs[0]), i - 1);
      assert fs[1..][i - 1] == fs[i];
      assert i - 1 > 0 ==> fs[1..][i - 2] == fs[i - 1];
    }
  }

  /**
   * Over a run, an assessment alerts exactly when its score is HIGH and the
   * one before it (or the engine's starting level) was not: a second HIGH in
   * a row stays silent, and a drop below HIGH re-arms the alert.
   */
  lemma RunAlerts(fs: seq<Features>, last: Level, i: nat)
    requires i < |fs|
    ensures Run(fs, last)[i].riskLevel == LevelOf(ScoreOf(fs[i]))
    ensures Run(fs, last)[i].alertTriggered <==>
              ScoreOf(fs[i]) >= 75 && (if i == 0 then last != High else ScoreOf(fs[i - 1]) < 75)
  {
    RunStep(fs, last, i);
    AlertOnRisingEdge(fs[i], if i == 0 then last else LevelAfter(fs[i - 1]));
  }

  /** Two HIGH snapshots in a row from a non-HIGH start alert on the first only. */
  lemma TwoHighAlertOnce(f1: Features, f2: Features, last: Level)
    requires ScoreOf(f1) >= 75 && ScoreOf(f2) >= 75 && last != High
    ensures Run([f1, f2], last)[0].alertTriggered
    ensures !Run([f1, f2], last)[1].alertTriggered
  {
    RunAlerts([f1, f2], last, 0);
    RunAlerts([f1, f2], last, 1);
  }

  /** HIGH, then a non-HIGH snapshot, then HIGH again: the third alerts as well. */
  lemma DropRearmsAlert(f1: Features, f2: Features, f3: Features, last: Level)
    requires ScoreOf(f1) >= 75 && ScoreOf(f2) < 75 && ScoreOf(f3) >= 75
    ensures Run([f1, f2, f3], last)[2].alertTriggered
  {
    RunAlerts([f1, f2, f3], last, 2);
  }

  /** A higher score never gives a later outbreak ETA. */
  lemma EtaMonotone(f: Features, s1: int, s2: int)
    requires s1 <= s2
    ensures OutbreakEta(f, s2) <= OutbreakEta(f, s1)
  {
    var m1 := if s1 > 35 then s1 - 35 else 0;
    var m2 := if s2 > 35 then s2 - 35 else 0;
    TruncDivMonotone(7200 - 115 * m2, 7200 - 115 * m1, 100);
  }

  /** The crop lookup ignores case. */
  lemma CropOfLower(crop: string)
    ensures CropOf(Lower(crop)) == CropOf(crop)
  {
    LowerIdempotent(crop);
  }

  /** The weather rules do not read the crop. */
  lemma RulesIgnoreCrop(f: Features, crop: string)
    ensures RuleSum(f.(cropType := crop)) == RuleSum(f)
    ensures FiredRules(f.(cropType := crop)) == FiredRules(f)
  {
    var g := f.(cropType := crop);
    assert g.humidity == f.humidity && g.temperature == f.temperature && g.rainForecast == f.rainForecast
      && g.soilMoisture == f.soilMoisture && g.windSpeed == f.windSpeed && g.leafWetness == f.leafWetness
      && g.soilTemperature == f.soilTemperature && g.soilPh == f.soilPh
      && g.solarRadiation == f.solarRadiation && g.anomalyScore == f.anomalyScore;
    forall r
      ensures Share(r, g) == Share(r, f) && Fired(r, g) == Fired(r, f)
    {
    }
  }

  /** Crop names are matched case-insensitively, in the score adjustment and in the disease lookup. */
  lemma CropCaseInsensitive(f: Features, score: int)
    ensures ScoreOf(f.(cropType := Lower(f.cropType))) == ScoreOf(f)
    ensures PredictDisease(f.(cropType := Lower(f.cropType)), score) == PredictDisease(f, score)
  {
    CropOfLower(f.cropType);
    RulesIgnoreCrop(f, Lower(f.cropType));
  }

  /** So lowering the crop's case changes no part of the assessment. */
  lemma AssessCaseInsensitive(f: Features, last: Level)
    ensures Assess(f.(cropType := Lower(f.cropType)), last) == Assess(f, last)
  {
    var g := f.(cropType := Lower(f.cropType));
    var score := ScoreOf(f);
    CropCaseInsensitive(f, score);
    RulesIgnoreCrop(f, Lower(f.cropType));
    assert OutbreakEta(g, score) == OutbreakEta(f, score) by {
      assert EtaPenalty(g) == EtaPenalty(f);
    }
    assert Forecast(g, score) == Forecast(f, score) by {
      assert WeatherPush(g) == WeatherPush(f);
    }
    SameInputsSameAssessment(g, f, last);
  }

  /** An assessment reads a snapshot only through its score, its reasons, its disease, its ETA and its forecast. */
  lemma SameInputsSameAssessment(f: Features, g: Features, last: Level)
    requires ScoreOf(f) == ScoreOf(g) && FiredRules(f) == FiredRules(g)
    requires PredictDisease(f, ScoreOf(f)) == PredictDisease(g, ScoreOf(g))
    requires OutbreakEta(f, ScoreOf(f)) == OutbreakEta(g, ScoreOf(g))
    requires Forecast(f, ScoreOf(f)) == Forecast(g, ScoreOf(g))
    ensures Assess(f, last) == Assess(g, last)
  {
  }

  /** The action plan of an assessment, level by level. */
  lemma AssessedPlan(f: Features, last: Level)
    ensures var r := Assess(f, last);
      r.riskLevel == High ==>
        r.actionPlan.doNow == [TriggerProtocol] + r.diseaseSuggestions[..2]
        && r.actionPlan.today == [ScoutTwiceDaily, ImproveAirCirculation, GeoTaggedPhotos]
        && r.actionPlan.thisWeek == [ReviewProgression, ValidateRotation]
    ensures var r := Assess(f, last);
      r.riskLevel == Medium ==>
        r.actionPlan.doNow == [IncreaseScouting, MonitorRainWindows]
        && r.actionPlan.today == r.diseaseSuggestions[..2] + [CheckIrrigationTiming]
        && r.actionPlan.thisWeek == [TrackTrend, ReviewCanopyPractices]
    ensures var r := Assess(f, last);
      r.riskLevel == Low ==>
        r.actionPlan == ActionPlan([MaintainMonitoring], [InspectPlots], [ReassessThresholds, TrainStaff])
  {
    var r := Assess(f, last);
    var level := LevelOf(ScoreOf(f));
    var d := PredictDisease(f, ScoreOf(f));
    assert r.riskLevel == level && r.diseaseSuggestions == d.suggestions;
    assert r.actionPlan == BuildActionPlan(level, GenericActions(level), d.suggestions);
    assert Prefix(d.suggestions, 2) == d.suggestions[..2];
  }

  /** One weighted check of `score()`: when the rule fires, add its weight and its reason. */
  method Check(rule: Rule, f: Features, score: int, reasons: seq<Rule>)
    returns (score': int, reasons': seq<Rule>)
    ensures score' == score + Share(rule, f)
    ensures reasons' == reasons + Fired(rule, f)
  {
    score', reasons' := score, reasons;
    if Fires(rule, f) {
      score' := score' + Weight(rule);
      reasons' := reasons' + [rule];
    }
  }

  /**
   * The ten weighted checks at the top of `score()`, made in order: the
   * running total and the reasons collected.
   */
  method ApplyRules(f: Features) returns (score: int, reasons: seq<Rule>)
    ensures score == RuleSum(f)
    ensures reasons == FiredRules(f)
  {
    score, reasons := 0, [];
    score, reasons := Check(HumidAir, f, score, reasons);
    assert reasons == Fired(HumidAir, f);
    score, reasons := Check(WarmAir, f, score, reasons);
    score, reasons := Check(RainAhead, f, score, reasons);
    score, reasons := Check(WetLeaves, f, score, reasons);
    score, reasons := Check(WetSoil, f, score, reasons);
    score, reasons := Check(CalmAir, f, score, reasons);
    score, reasons := Check(WarmSoil, f, score, reasons);
    score, reasons := Check(PhOutside, f, score, reasons);
    score, reasons := Check(DimAndHumid, f, score, reasons);
    score, reasons := Check(Anomalous, f, score, reasons);
  }

  class DiseaseRiskEngine {
    /** The level of the previous assessment. */
    var lastLevel: Level

    constructor ()
      ensures lastLevel == Low
    {
      lastLevel := Low;
    }

    /** `_estimate_outbreak_eta(features, score)` */
    method EstimateOutbreakEta(f: Features, score: int) returns (eta: int, window: OutbreakWindow)
      ensures 6 <= eta <= 72
      ensures eta == OutbreakEta(f, score)
      ensures window == WindowOf(eta)
    {
      eta := TruncDiv(7200 - 115 * (if score > 35 then score - 35 else 0), 100);
      if f.humidity > 80.0 {
        eta := eta - 8;
      }
      if f.leafWetness > 70.0 {
        eta := eta - 10;
      }
      if f.rainForecast > 0.65 {
        eta := eta - 8;
      }
      if f.anomalyScore > 1.2 {
        eta := eta - 6;
      }
      eta := if eta < 6 then 6 else if eta > 72 then 72 else eta;
      if eta <= 12 {
        window := Critical;
      } else if eta <= 24 {
        window := HighProbability;
      } else if eta <= 48 {
        window := ModerateProbability;
      } else {
        window := Watch;
      }
    }

    /** `_forecast_trajectory(features, score)` */
    method ForecastTrajectory(f: Features, score: int) returns (points: seq<ForecastPoint>)
      ensures |points| == 4
      ensures forall k :: 0 <= k < 4 ==> points[k].hours == Horizons[k]
      ensures forall k :: 0 <= k < 4 ==> 5 <= points[k].riskScore <= 100
      ensures forall j, k :: 0 <= j < k < 4 ==> points[j].riskScore >= points[k].riskScore
      ensures points == Forecast(f, score)
    {
      var push := 0;
      if f.humidity > 80.0 {
        push := push + 5;
      }
      if f.rainForecast > 0.6 {
        push := push + 6;
      }
      if f.leafWetness > 70.0 {
        push := push + 5;
      }
      if f.windSpeed < 2.0 {
        push := push + 3;
      }
      points := [];
      var i := 0;
      while i < |Horizons|
        invariant 0 <= i <= |Horizons|
        invariant |points| == i
        invariant forall k :: 0 <= k < i ==> points[k] == ForecastPoint(Horizons[k], Projected(score, push, Horizons[k]))
      {
        var horizon := Horizons[i];
        var decay := TruncDiv(horizon * 22, 100);
        var projected := score + push - decay;
        projected := if projected < 5 then 5 else if projected > 100 then 100 else projected;
        points := points + [ForecastPoint(horizon, projected)];
        i := i + 1;
      }
      assert push == WeatherPush(f);
      ForecastShape(f, score);
    }

    /** `score(features)`: assesses one snapshot and remembers its level. */
    method Score(f: Features) returns (r: RiskResult)
      modifies this
      ensures r == Assess(f, old(lastLevel))
      ensures lastLevel == r.riskLevel
    {
      var score, reasons := ApplyRules(f);
      score := score + CropBonus(f.cropType);
      score := if score < 0 then 0 else if score > 100 then 100 else score;

      var level: Level;
      var actions: seq<Advice>;
      if score >= 75 {
        level := High;
        actions := GenericActions(High);
      } else if score >= 45 {
        level := Medium;
        actions := GenericActions(Medium);
      } else {
        level := Low;
        actions := GenericActions(Low);
      }

      var alertTriggered := level == High && lastLevel != High;
      lastLevel := level;
      var diagnosis := PredictDisease(f, score);
      var eta, window := EstimateOutbreakEta(f, score);
      var trajectory := ForecastTrajectory(f, score);
      var plan := BuildActionPlan(level, actions, diagnosis.suggestions);
      r := RiskResult(score, level, reasons, actions, diagnosis.disease, diagnosis.confidence,
                      diagnosis.suggestions, eta, window, trajectory, plan, alertTriggered);
    }
  }
}
