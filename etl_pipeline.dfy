/**
 * The feature-engineering step of the ETL pipeline: four bounded FIFO
 * windows (temperature, humidity, soil moisture, leaf wetness) that behave
 * like `deque(maxlen=window_size)`, and the features derived from one raw
 * event against them: rolling means, a humidity alert, a weather class and
 * an anomaly score.
 *
 * Persistence is an abstract sink whose failures are given as a parameter.
 */
module EtlPipeline {
  import opened Wrappers
  import opened Python

  // ---------------------------------------------------------------------
  // Parsing a raw event

  /** The numeric fields of a raw event, in the order they are read. */
  const NumericKeys: seq<string> :=
    ["temperature", "humidity", "rain_forecast", "soil_moisture", "wind_speed",
     "leaf_wetness", "soil_temperature", "soil_ph", "solar_radiation"]

  /** Why one event was skipped. */
  datatype EventError =
    | MissingField(key: string)   // KeyError on `payload[key]`
    | NotNumeric(key: string)     // `float(payload[key])` raised
    | EmptyWindow                 // `mean` of a window that can hold nothing
    | PersistFailed               // the sink raised

  /** The raw fields of one event, as `_process_single_event` reads them. */
  datatype Reading = Reading(
    temperature: real,
    humidity: real,
    rainForecast: real,
    soilMoisture: real,
    windSpeed: real,
    leafWetness: real,
    soilTemperature: real,
    soilPh: real,
    solarRadiation: real,
    cropType: string)

  /** `float(payload[key])` */
  function Field(payload: map<string, Value>, key: string): (r: Result<real, EventError>)
    ensures key !in payload <==> r == Err(MissingField(key))
    ensures r.Ok? <==> key in payload && ToFloat(payload[key]).Some?
    ensures r.Ok? ==> ToFloat(payload[key]) == Some(r.value)
    ensures r.Err? && key in payload ==> r == Err(NotNumeric(key))
  {
    if key !in payload then Err(MissingField(key))
    else match ToFloat(payload[key])
      case None => Err(NotNumeric(key))
      case Some(x) => Ok(x)
  }

  /** Reads `keys` in order; the first field that raises is the error. */
  function Fields(payload: map<string, Value>, keys: seq<string>): (r: Result<seq<real>, EventError>)
    ensures r.Ok? ==> |r.value| == |keys|
    ensures r.Ok? <==> forall i :: 0 <= i < |keys| ==> Field(payload, keys[i]).Ok?
    ensures r.Ok? ==> forall i :: 0 <= i < |keys| ==> Field(payload, keys[i]) == Ok(r.value[i])
    ensures r.Err? ==> r.error.MissingField? || r.error.NotNumeric?
  {
    if keys == [] then Ok([])
    else match Field(payload, keys[0])
      case Err(e) => Err(e)
      case Ok(x) =>
        match Fields(payload, keys[1..])
        case Err(e) => Err(e)
        case Ok(xs) => Ok([x] + xs)
  }

  /** When reading fails, the error is that of the first field that fails. */
  lemma {:induction false} FieldsFirstError(payload: map<string, Value>, keys: seq<string>)
    requires Fields(payload, keys).Err?
    ensures exists i :: 0 <= i < |keys| && Field(payload, keys[i]) == Err(Fields(payload, keys).error)
                        && forall j :: 0 <= j < i ==> Field(payload, keys[j]).Ok?
  {
    if Field(payload, keys[0]).Err? {
      assert Field(payload, keys[0]) == Err(Fields(payload, keys).error);
    } else {
      FieldsFirstError(payload, keys[1..]);
      var i :| 0 <= i < |keys[1..]| && Field(payload, keys[1..][i]) == Err(Fields(payload, keys[1..]).error)
                && forall j :: 0 <= j < i ==> Field(payload, keys[1..][j]).Ok?;
      assert Field(payload, keys[i + 1]) == Err(Fields(payload, keys).error);
      forall j | 0 <= j < i + 1
        ensures Field(payload, keys[j]).Ok?
      {
        if j > 0 { assert keys[j] == keys[1..][j - 1]; }
      }
    }
  }

  /** The nine numeric fields of a reading, in the order of `NumericKeys`. */
  function Numbers(r: Reading): seq<real> {
    [r.temperature, r.humidity, r.rainForecast, r.soilMoisture, r.windSpeed,
     r.leafWetness, r.soilTemperature, r.soilPh, r.solarRadiation]
  }

  /** The first ten lines of `_process_single_event`: nine `float(...)` and one `str(...)`. */
  function ParseEvent(payload: map<string, Value>): (r: Result<Reading, EventError>)
    ensures r.Ok? <==> (forall i :: 0 <= i < |NumericKeys| ==> Field(payload, NumericKeys[i]).Ok?)
                       && "crop_type" in payload
    ensures r.Ok? ==> forall i :: 0 <= i < |NumericKeys| ==> Field(payload, NumericKeys[i]) == Ok(Numbers(r.value)[i])
    ensures r.Ok? ==> r.value.cropType == Render(payload["crop_type"])
    ensures r.Err? ==> r.error.MissingField? || r.error.NotNumeric?
  {
    var fs := Fields(payload, NumericKeys);
    if fs.Err? then
      Err(fs.error)
    else if "crop_type" !in payload then
      Err(MissingField("crop_type"))
    else
      var v := fs.value;
      Ok(Reading(v[0], v[1], v[2], v[3], v[4], v[5], v[6], v[7], v[8], Render(payload["crop_type"])))
  }

  /** A failed parse reports the first numeric field that fails, in reading order, or the missing crop. */
  lemma ParseErrorIsFirst(payload: map<string, Value>)
    requires ParseEvent(payload).Err?
    ensures Fields(payload, NumericKeys).Ok? ==> ParseEvent(payload) == Err(MissingField("crop_type"))
    ensures Fields(payload, NumericKeys).Err? ==>
              exists i :: 0 <= i < |NumericKeys| && Field(payload, NumericKeys[i]) == Err(ParseEvent(payload).error)
                          && forall j :: 0 <= j < i ==> Field(payload, NumericKeys[j]).Ok?
  {
    if Fields(payload, NumericKeys).Err? {
      FieldsFirstError(payload, NumericKeys);
    }
  }

  // ---------------------------------------------------------------------
  // Windows and means

  /** `window.append(x)` on a `deque(maxlen=n)`: the newest `n` of the old items and `x`. */
  function Push(window: seq<real>, x: real, n: nat): (r: seq<real>)
    ensures n > 0 ==> |r| >= 1 && r[|r| - 1] == x
    ensures |window| < n ==> r == window + [x]
  {
    LastN(window + [x], n)
  }

  function Sum(s: seq<real>): real {
    if s == [] then 0.0 else Sum(s[..|s| - 1]) + s[|s| - 1]
  }

  /** `statistics.mean(window)`; it raises on an empty window. */
  function Mean(s: seq<real>): real
    requires |s| > 0
  {
    Sum(s) / |s| as real
  }

  lemma {:induction false} SumBounds(s: seq<real>, lo: real, hi: real)
    requires forall i :: 0 <= i < |s| ==> lo <= s[i] <= hi
    ensures |s| as real * lo <= Sum(s) <= |s| as real * hi
  {
    if s != [] {
      SumBounds(s[..|s| - 1], lo, hi);
    }
  }

  /** A mean lies between the smallest and the largest value of its window. */
  lemma MeanBounds(s: seq<real>, lo: real, hi: real)
    requires |s| > 0
    requires forall i :: 0 <= i < |s| ==> lo <= s[i] <= hi
    ensures lo <= Mean(s) <= hi
  {
    SumBounds(s, lo, hi);
    var n := |s| as real;
    assert Mean(s) * n == Sum(s);
  }

  lemma MeanOfOne(x: real)
    ensures Mean([x]) == x
  {
    assert [x][..0] == [];
    assert Sum([x]) == x;
  }

  // ---------------------------------------------------------------------
  // Derived features

  datatype Weather = WetWarm | HeatDry | Stable

  function WeatherText(w: Weather): string {
    match w
    case WetWarm => "Wet-Warm"
    case HeatDry => "Heat-Dry"
    case Stable => "Stable"
  }

  predicate HumidityAlert(humidity: real, rollingHumidity: real) {
    humidity > 80.0 || rollingHumidity > 78.0
  }

  predicate IsWetWarm(r: Reading, alert: bool) {
    alert && r.leafWetness > 70.0 && r.rainForecast > 0.6 && 20.0 <= r.temperature <= 30.0
  }

  predicate IsHeatDry(r: Reading) {
    r.temperature > 32.0 && r.humidity < 45.0 && r.solarRadiation > 650.0
  }

  /** The weather class: Wet-Warm first, then Heat-Dry, else Stable. */
  function Classify(r: Reading, alert: bool): (w: Weather)
    ensures w == WetWarm ==> alert
    ensures w == HeatDry ==> !IsWetWarm(r, alert)
  {
    if IsWetWarm(r, alert) then WetWarm
    else if IsHeatDry(r) then HeatDry
    else Stable
  }

  /**
   * The class is exactly the condition that holds, and the two conditions
   * never hold together (Wet-Warm needs at most 30 degrees, Heat-Dry more
   * than 32), so the priority of the tests never decides anything.
   */
  lemma ClassifyExact(r: Reading, alert: bool)
    ensures !(IsWetWarm(r, alert) && IsHeatDry(r))
    ensures Classify(r, alert) == WetWarm <==> IsWetWarm(r, alert)
    ensures Classify(r, alert) == HeatDry <==> IsHeatDry(r)
    ensures Classify(r, alert) == Stable <==> !IsWetWarm(r, alert) && !IsHeatDry(r)
  {
  }

  function Abs(x: real): (a: real)
    ensures a >= 0.0 && (a == x || a == -x)
  {
    if x < 0.0 then -x else x
  }

  /** The sum of weighted deviations from the rolling means. */
  function Anomaly(r: Reading, tAvg: real, hAvg: real, sAvg: real, lAvg: real): (a: real)
    ensures a >= 0.0
    ensures a == 0.0 <==> r.temperature == tAvg && r.humidity == hAvg && r.soilMoisture == sAvg && r.leafWetness == lAvg
  {
    Abs(r.temperature - tAvg) / 10.0 + Abs(r.humidity - hAvg) / 20.0
    + Abs(r.soilMoisture - sAvg) / 20.0 + Abs(r.leafWetness - lAvg) / 20.0
  }

  /** What `_process_single_event` returns (the rolling soil mean feeds only the anomaly score). */
  datatype ProcessedReading = ProcessedReading(
    reading: Reading,
    rollingTempAvg: real,
    rollingHumidityAvg: real,
    rollingLeafWetnessAvg: real,
    humidityAlert: bool,
    weatherCondition: Weather,
    anomalyScore: real)

  /** `reading.__dict__`: the sixteen dataclass fields under their Python names. */
  function ReadingFields(p: ProcessedReading): (d: map<string, Value>)
    ensures "crop_type" in d && d["crop_type"] == Str(p.reading.cropType)
    ensures "anomaly_score" in d && d["anomaly_score"] == Float(p.anomalyScore)
  {
    var r := p.reading;
    map["temperature" := Float(r.temperature), "humidity" := Float(r.humidity),
        "rain_forecast" := Float(r.rainForecast), "soil_moisture" := Float(r.soilMoisture),
        "wind_speed" := Float(r.windSpeed), "leaf_wetness" := Float(r.leafWetness),
        "soil_temperature" := Float(r.soilTemperature), "soil_ph" := Float(r.soilPh),
        "solar_radiation" := Float(r.solarRadiation), "crop_type" := Str(r.cropType),
        "rolling_temp_avg" := Float(p.rollingTempAvg), "rolling_humidity_avg" := Float(p.rollingHumidityAvg),
        "rolling_leaf_wetness_avg" := Float(p.rollingLeafWetnessAvg), "humidity_alert" := Bool(p.humidityAlert),
        "weather_condition" := Str(WeatherText(p.weatherCondition)), "anomaly_score" := Float(p.anomalyScore)]
  }

  /** The four windows, oldest value first. */
  datatype Windows = Windows(temperature: seq<real>, humidity: seq<real>, soil: seq<real>, leafWetness: seq<real>)

  predicate NonEmpty(w: Windows) {
    |w.temperature| > 0 && |w.humidity| > 0 && |w.soil| > 0 && |w.leafWetness| > 0
  }

  /** The four appends, made before any mean is taken. */
  function Append(w: Windows, r: Reading, n: nat): (w': Windows)
    ensures n > 0 ==> NonEmpty(w')
  {
    Windows(Push(w.temperature, r.temperature, n), Push(w.humidity, r.humidity, n),
            Push(w.soil, r.soilMoisture, n), Push(w.leafWetness, r.leafWetness, n))
  }

  /** The derived features of `r` against windows that already hold it. */
  function Derive(r: Reading, w: Windows): (p: ProcessedReading)
    requires NonEmpty(w)
    ensures p.reading == r
    ensures p.humidityAlert <==> r.humidity > 80.0 || Mean(w.humidity) > 78.0
    ensures p.anomalyScore >= 0.0
  {
    var tAvg, hAvg, sAvg, lAvg := Mean(w.temperature), Mean(w.humidity), Mean(w.soil), Mean(w.leafWetness);
    var alert := HumidityAlert(r.humidity, hAvg);
    ProcessedReading(r, tAvg, hAvg, lAvg, alert, Classify(r, alert), Anomaly(r, tAvg, hAvg, sAvg, lAvg))
  }

  /** `_process_single_event(payload)` on windows `w` of capacity `n`: the new windows and the outcome. */
  function ProcessEvent(w: Windows, n: nat, payload: map<string, Value>): (Windows, Result<ProcessedReading, EventError>) {
    match ParseEvent(payload)
    case Err(e) => (w, Err(e))
    case Ok(r) =>
      var w' := Append(w, r, n);
      if n == 0 then (w', Err(EmptyWindow)) else (w', Ok(Derive(r, w')))
  }

  /** An event that fails to parse leaves every window as it was. */
  lemma ParseFailureLeavesWindows(w: Windows, n: nat, payload: map<string, Value>)
    requires ParseEvent(payload).Err?
    ensures ProcessEvent(w, n, payload).0 == w
    ensures ProcessEvent(w, n, payload).1 == Err(ParseEvent(payload).error)
  {
  }

  /**
   * A successful event is part of its own rolling means: each window ends
   * with the new value, and the means are taken over those windows.
   */
  lemma NewReadingInItsMeans(w: Windows, n: nat, payload: map<string, Value>)
    requires ProcessEvent(w, n, payload).1.Ok?
    ensures var (w', res) := ProcessEvent(w, n, payload);
      var r := res.value.reading;
      NonEmpty(w')
      && w'.temperature[|w'.temperature| - 1] == r.temperature
      && w'.humidity[|w'.humidity| - 1] == r.humidity
      && w'.soil[|w'.soil| - 1] == r.soilMoisture
      && w'.leafWetness[|w'.leafWetness| - 1] == r.leafWetness
      && res.value.rollingTempAvg == Mean(w'.temperature)
      && res.value.rollingHumidityAvg == Mean(w'.humidity)
      && res.value.rollingLeafWetnessAvg == Mean(w'.leafWetness)
  {
  }

  /** An event succeeds exactly when it parses and the windows can hold a value. */
  lemma ProcessEventSucceeds(w: Windows, n: nat, payload: map<string, Value>)
    ensures ProcessEvent(w, n, payload).1.Ok? <==> ParseEvent(payload).Ok? && n > 0
    ensures ProcessEvent(w, n, payload).1.Ok? ==> ProcessEvent(w, n, payload).1.value.reading == ParseEvent(payload).value
  {
  }

  /** With windows of size one every mean is the new value, so the anomaly score is zero. */
  lemma WindowOfOneNoAnomaly(w: Windows, payload: map<string, Value>)
    requires ProcessEvent(w, 1, payload).1.Ok?
    ensures ProcessEvent(w, 1, payload).1.value.anomalyScore == 0.0
  {
    var r := ParseEvent(payload).value;
    var w' := Append(w, r, 1);
    assert w'.temperature == [r.temperature];
    assert w'.humidity == [r.humidity];
    assert w'.soil == [r.soilMoisture];
    assert w'.leafWetness == [r.leafWetness];
    MeanOfOne(r.temperature);
    MeanOfOne(r.humidity);
    MeanOfOne(r.soilMoisture);
    MeanOfOne(r.leafWetness);
  }

  // ---------------------------------------------------------------------
  // Batches

  /**
   * `process_batch(events)` on windows `w`: the final windows and the
   * readings that were returned. The sink is called after the windows
   * moved, and an event whose persistence raises (its index is in
   * `persistFails`) is dropped from the output but not from the windows.
   */
  function Batch(w: Windows, n: nat, events: seq<map<string, Value>>, persistFails: set<nat>): (Windows, seq<ProcessedReading>) {
    if events == [] then (w, [])
    else
      var (w1, out) := Batch(w, n, events[..|events| - 1], persistFails);
      var (w2, res) := ProcessEvent(w1, n, events[|events| - 1]);
      (w2, out + (if res.Ok? && |events| - 1 !in persistFails then [res.value] else []))
  }

  /** One more event extends a batch by one step. */
  lemma BatchStep(w: Windows, n: nat, events: seq<map<string, Value>>, persistFails: set<nat>, i: nat)
    requires i < |events|
    ensures var (w1, out) := Batch(w, n, events[..i], persistFails);
      var (w2, res) := ProcessEvent(w1, n, events[i]);
      Batch(w, n, events[..i + 1], persistFails) == (w2, out + (if res.Ok? && i !in persistFails then [res.value] else []))
  {
    assert events[..i + 1][..i] == events[..i];
  }

  /** The outcome of every event of a batch, persistence included. */
  function Outcomes(w: Windows, n: nat, events: seq<map<string, Value>>, persistFails: set<nat>): (o: seq<Result<ProcessedReading, EventError>>)
    ensures |o| == |events|
  {
    if events == [] then []
    else
      var i := |events| - 1;
      var w1 := Batch(w, n, events[..i], persistFails).0;
      var res := ProcessEvent(w1, n, events[i]).1;
      Outcomes(w, n, events[..i], persistFails) + [if res.Ok? && i in persistFails then Err(PersistFailed) else res]
  }

  /** The values of the successful outcomes, in order. */
  function Successes<R>(o: seq<Result<R, EventError>>): seq<R> {
    if o == [] then []
    else Successes(o[..|o| - 1]) + (if o[|o| - 1].Ok? then [o[|o| - 1].value] else [])
  }

  /** The batch output is exactly the successful events, in input order. */
  lemma {:induction false} BatchKeepsSuccesses(w: Windows, n: nat, events: seq<map<string, Value>>, persistFails: set<nat>)
    ensures Batch(w, n, events, persistFails).1 == Successes(Outcomes(w, n, events, persistFails))
  {
    if events != [] {
      var i := |events| - 1;
      BatchKeepsSuccesses(w, n, events[..i], persistFails);
      LastStep(w, n, events, persistFails);
      var o := Outcomes(w, n, events, persistFails);
      assert o[..i] == Outcomes(w, n, events[..i], persistFails);
    }
  }

  /** The last event of a batch, in the output and in the outcomes. */
  lemma LastStep(w: Windows, n: nat, events: seq<map<string, Value>>, persistFails: set<nat>)
    requires events != []
    ensures var i := |events| - 1;
      var res := ProcessEvent(Batch(w, n, events[..i], persistFails).0, n, events[i]).1;
      Batch(w, n, events, persistFails).1
        == Batch(w, n, events[..i], persistFails).1 + (if res.Ok? && i !in persistFails then [res.value] else [])
      && Outcomes(w, n, events, persistFails)
        == Outcomes(w, n, events[..i], persistFails) + [if res.Ok? && i in persistFails then Err(PersistFailed) else res]
  {
  }

  /** An event whose outcome is an error contributes nothing to the output; every other contributes its reading. */
  lemma {:induction false} SuccessesCount<R>(o: seq<Result<R, EventError>>)
    ensures |Successes(o)| <= |o|
    ensures |Successes(o)| == |o| <==> forall i :: 0 <= i < |o| ==> o[i].Ok?
  {
    if o != [] {
      SuccessesCount(o[..|o| - 1]);
      assert forall i :: 0 <= i < |o| - 1 ==> o[..|o| - 1][i] == o[i];
    }
  }

  /** A batch returns at most one reading per event. */
  lemma {:induction false} BatchBound(w: Windows, n: nat, events: seq<map<string, Value>>, persistFails: set<nat>)
    ensures |Batch(w, n, events, persistFails).1| <= |events|
  {
    if events != [] {
      BatchBound(w, n, events[..|events| - 1], persistFails);
    }
  }

  /** When every event parses, the windows are not empty and the sink never fails, every event is returned. */
  lemma {:induction false} BatchAllGood(w: Windows, n: nat, events: seq<map<string, Value>>)
    requires n > 0
    requires forall i :: 0 <= i < |events| ==> ParseEvent(events[i]).Ok?
    ensures |Batch(w, n, events, {}).1| == |events|
  {
    if events != [] {
      var prefix := events[..|events| - 1];
      assert forall i :: 0 <= i < |prefix| ==> prefix[i] == events[i];
      BatchAllGood(w, n, prefix);
    }
  }

  /** The windows after a batch are the four appends of every event that parsed, whatever the sink did. */
  function Parsed(events: seq<map<string, Value>>): (rs: seq<Reading>)
    ensures |rs| <= |events|
  {
    if events == [] then []
    else
      var last := ParseEvent(events[|events| - 1]);
      Parsed(events[..|events| - 1]) + (if last.Ok? then [last.value] else [])
  }

  lemma ParsedStep(events: seq<map<string, Value>>, i: nat)
    requires i < |events|
    ensures Parsed(events[..i + 1]) == Parsed(events[..i]) + (if ParseEvent(events[i]).Ok? then [ParseEvent(events[i]).value] else [])
  {
    assert events[..i + 1][..i] == events[..i];
  }

  function Temperatures(rs: seq<Reading>): (s: seq<real>)
    ensures |s| == |rs| && forall i :: 0 <= i < |rs| ==> s[i] == rs[i].temperature
  {
    if rs == [] then [] else Temperatures(rs[..|rs| - 1]) + [rs[|rs| - 1].temperature]
  }

  function Humidities(rs: seq<Reading>): (s: seq<real>)
    ensures |s| == |rs| && forall i :: 0 <= i < |rs| ==> s[i] == rs[i].humidity
  {
    if rs == [] then [] else Humidities(rs[..|rs| - 1]) + [rs[|rs| - 1].humidity]
  }

  function SoilMoistures(rs: seq<Reading>): (s: seq<real>)
    ensures |s| == |rs| && forall i :: 0 <= i < |rs| ==> s[i] == rs[i].soilMoisture
  {
    if rs == [] then [] else SoilMoistures(rs[..|rs| - 1]) + [rs[|rs| - 1].soilMoisture]
  }

  function LeafWetnesses(rs: seq<Reading>): (s: seq<real>)
    ensures |s| == |rs| && forall i :: 0 <= i < |rs| ==> s[i] == rs[i].leafWetness
  {
    if rs == [] then [] else LeafWetnesses(rs[..|rs| - 1]) + [rs[|rs| - 1].leafWetness]
  }

  /** The windows that hold the newest `n` values of each channel of `rs`. */
  function WindowsOf(rs: seq<Reading>, n: nat): Windows {
    Windows(LastN(Temperatures(rs), n), LastN(Humidities(rs), n),
            LastN(SoilMoistures(rs), n), LastN(LeafWetnesses(rs), n))
  }

  /** The channels of `rs + [r]` are those of `rs` followed by the values of `r`. */
  lemma ChannelsSnoc(rs: seq<Reading>, r: Reading)
    ensures Temperatures(rs + [r]) == Temperatures(rs) + [r.temperature]
    ensures Humidities(rs + [r]) == Humidities(rs) + [r.humidity]
    ensures SoilMoistures(rs + [r]) == SoilMoistures(rs) + [r.soilMoisture]
    ensures LeafWetnesses(rs + [r]) == LeafWetnesses(rs) + [r.leafWetness]
  {
    assert (rs + [r])[..|rs|] == rs;
  }

  /** Appending one reading to the windows of `rs` gives the windows of `rs + [r]`. */
  lemma AppendWindowsOf(rs: seq<Reading>, r: Reading, n: nat)
    ensures Append(WindowsOf(rs, n), r, n) == WindowsOf(rs + [r], n)
  {
    ChannelsSnoc(rs, r);
    LastNSnoc(Temperatures(rs), r.temperature, n);
    LastNSnoc(Humidities(rs), r.humidity, n);
    LastNSnoc(SoilMoistures(rs), r.soilMoisture, n);
    LastNSnoc(LeafWetnesses(rs), r.leafWetness, n);
  }

  lemma SeqAssoc<T>(a: seq<T>, b: seq<T>, c: seq<T>)
    ensures a + (b + c) == (a + b) + c
  {
  }

  /**
   * Starting from the windows of `before`, a batch leaves the windows of
   * `before` followed by every reading that parsed: each window holds the
   * newest `n` values in arrival order, `min(count, n)` of them.
   */
  lemma {:induction false} BatchWindows(before: seq<Reading>, n: nat, events: seq<map<string, Value>>, persistFails: set<nat>)
    ensures Batch(WindowsOf(before, n), n, events, persistFails).0 == WindowsOf(before + Parsed(events), n)
  {
    if events == [] {
      assert before + Parsed(events) == before;
    } else {
      var i := |events| - 1;
      var prefix := events[..i];
      BatchWindows(before, n, prefix, persistFails);
      BatchStep(WindowsOf(before, n), n, events, persistFails, i);
      ParsedStep(events, i);
      assert events[..i + 1] == events;
      var p := ParseEvent(events[i]);
      var rs := before + Parsed(prefix);
      if p.Ok? {
        AppendWindowsOf(rs, p.value, n);
        SeqAssoc(before, Parsed(prefix), [p.value]);
      } else {
        assert Parsed(events) == Parsed(prefix);
      }
    }
  }

  /** The deque bound: no window holds more than `n` values. */
  predicate Bounded(w: Windows, n: nat) {
    |w.temperature| <= n && |w.humidity| <= n && |w.soil| <= n && |w.leafWetness| <= n
  }

  /** Every step keeps the windows within their bound. */
  lemma ProcessEventBounded(w: Windows, n: nat, payload: map<string, Value>)
    requires Bounded(w, n)
    ensures Bounded(ProcessEvent(w, n, payload).0, n)
  {
    var p := ParseEvent(payload);
    if p.Ok? {
      var r := p.value;
      assert ProcessEvent(w, n, payload).0 == Append(w, r, n);
      PushBounded(w.temperature, r.temperature, n);
      PushBounded(w.humidity, r.humidity, n);
      PushBounded(w.soil, r.soilMoisture, n);
      PushBounded(w.leafWetness, r.leafWetness, n);
    }
  }

  lemma PushBounded(window: seq<real>, x: real, n: nat)
    ensures |Push(window, x, n)| <= n
  {
  }

  class PathwayEtlPipeline {
    const windowSize: nat
    var temperatureWindow: seq<real>
    var humidityWindow: seq<real>
    var soilWindow: seq<real>
    var leafWetnessWindow: seq<real>

    function Current(): Windows
      reads this
    {
      Windows(temperatureWindow, humidityWindow, soilWindow, leafWetnessWindow)
    }

    /** Each window is a `deque(maxlen=windowSize)`. */
    predicate Valid()
      reads this
    {
      Bounded(Current(), windowSize)
    }

    constructor (windowSize: nat)
      ensures this.windowSize == windowSize
      ensures Current() == Windows([], [], [], [])
      ensures Valid()
    {
      this.windowSize := windowSize;
      temperatureWindow, humidityWindow, soilWindow, leafWetnessWindow := [], [], [], [];
    }

    /** `_process_single_event(payload)`: the windows are appended to before the means are taken. */
    method ProcessSingleEvent(payload: map<string, Value>) returns (r: Result<ProcessedReading, EventError>)
      requires Valid()
      modifies this
      ensures Valid()
      ensures (Current(), r) == ProcessEvent(old(Current()), windowSize, payload)
    {
      var parsed := ParseEvent(payload);
      if parsed.Err? {
        return Err(parsed.error);
      }
      var reading := parsed.value;
      temperatureWindow := Push(temperatureWindow, reading.temperature, windowSize);
      humidityWindow := Push(humidityWindow, reading.humidity, windowSize);
      soilWindow := Push(soilWindow, reading.soilMoisture, windowSize);
      leafWetnessWindow := Push(leafWetnessWindow, reading.leafWetness, windowSize);
      assert Current() == Append(old(Current()), reading, windowSize);
      PushBounded(old(temperatureWindow), reading.temperature, windowSize);
      PushBounded(old(humidityWindow), reading.humidity, windowSize);
      PushBounded(old(soilWindow), reading.soilMoisture, windowSize);
      PushBounded(old(leafWetnessWindow), reading.leafWetness, windowSize);
      if windowSize == 0 {
        return Err(EmptyWindow);
      }
      var rollingTempAvg := Mean(temperatureWindow);
      var rollingHumidityAvg := Mean(humidityWindow);
      var rollingSoilAvg := Mean(soilWindow);
      var rollingLeafWetnessAvg := Mean(leafWetnessWindow);
      var humidityAlert := reading.humidity > 80.0 || rollingHumidityAvg > 78.0;
      var weather := Classify(reading, humidityAlert);
      var anomaly := Anomaly(reading, rollingTempAvg, rollingHumidityAvg, rollingSoilAvg, rollingLeafWetnessAvg);
      r := Ok(ProcessedReading(reading, rollingTempAvg, rollingHumidityAvg, rollingLeafWetnessAvg,
                               humidityAlert, weather, anomaly));
    }

    /**
     * `process_batch(events)`: skips every event that raises and carries on.
     * The sink is called once the windows have moved; `persistFails` holds
     * the indices of the events whose persistence raises.
     */
    method ProcessBatch(events: seq<map<string, Value>>, persistFails: set<nat>) returns (processed: seq<ProcessedReading>)
      requires Valid()
      modifies this
      ensures Valid()
      ensures Current() == Batch(old(Current()), windowSize, events, persistFails).0
      ensures processed == Batch(old(Current()), windowSize, events, persistFails).1
      ensures |processed| <= |events|
    {
      processed := [];
      var i := 0;
      assert events[..0] == [];
      while i < |events|
        invariant 0 <= i <= |events|
        invariant Valid()
        invariant Current() == Batch(old(Current()), windowSize, events[..i], persistFails).0
        invariant processed == Batch(old(Current()), windowSize, events[..i], persistFails).1
      {
        BatchStep(old(Current()), windowSize, events, persistFails, i);
        var reading := ProcessSingleEvent(events[i]);
        if reading.Ok? && i !in persistFails {
          processed := processed + [reading.value];
        }
        i := i + 1;
      }
      assert events[..|events|] == events;
      BatchBound(old(Current()), windowSize, events, persistFails);
    }
  }
}
