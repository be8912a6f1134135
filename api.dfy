/**
 * The live state behind the web API: the newest payload, a capped history,
 * a capped alert list, the open websocket connections, and the handler
 * that turns each processed stream message into a risk payload, an
 * optional alert and two broadcasts.
 *
 * A websocket is an opaque identity; whether a send to it fails is a
 * parameter, and every send that succeeds is recorded in a log. The
 * current time, used when an event has no timestamp, is a parameter.
 */
module Api {
  import opened Wrappers
  import opened Python
  import opened EtlPipeline
  import opened RiskEngine

  // ---------------------------------------------------------------------
  // The report file name

  /** The timestamp with ':' as '-', '+' as "_plus_" and '.' as '_', replaced in that order. */
  function SafeTimestamp(ts: string): string {
    ReplaceChar(ReplaceChar(ReplaceChar(ts, ':', "-"), '+', "_plus_"), '.', "_")
  }

  /** The name `persist_high_risk_report` writes the report under. */
  function ReportFileName(ts: string): string {
    "high_risk_" + SafeTimestamp(ts) + ".json"
  }

  /** What one character of the timestamp becomes. */
  function Substitute(c: char): string {
    if c == ':' then "-" else if c == '+' then "_plus_" else if c == '.' then "_" else [c]
  }

  /** Every character of `s` replaced by its substitute, in order. */
  function SubstituteAll(s: string): string {
    if s == [] then [] else Substitute(s[0]) + SubstituteAll(s[1..])
  }

  lemma {:induction false} ReplaceCharAppend(a: string, b: string, c: char, rep: string)
    ensures ReplaceChar(a + b, c, rep) == ReplaceChar(a, c, rep) + ReplaceChar(b, c, rep)
  {
    if a != [] {
      assert (a + b)[1..] == a[1..] + b;
      ReplaceCharAppend(a[1..], b, c, rep);
    } else {
      assert a + b == b;
    }
  }

  lemma ReplaceCharNone(s: string, c: char, rep: string)
    requires forall i :: 0 <= i < |s| ==> s[i] != c
    ensures ReplaceChar(s, c, rep) == s
  {
    if s != [] {
      ReplaceCharNone(s[1..], c, rep);
    }
  }

  /** The three replacements applied to one character give its substitute. */
  lemma SafeChar(c: char)
    ensures SafeTimestamp([c]) == Substitute(c)
  {
    if c == ':' {
      assert ReplaceChar([c], ':', "-") == "-";
      ReplaceCharNone("-", '+', "_plus_");
      ReplaceCharNone("-", '.', "_");
    } else if c == '+' {
      assert ReplaceChar([c], ':', "-") == [c];
      assert ReplaceChar([c], '+', "_plus_") == "_plus_";
      ReplaceCharNone("_plus_", '.', "_");
    } else if c == '.' {
      assert ReplaceChar([c], ':', "-") == [c];
      assert ReplaceChar([c], '+', "_plus_") == [c];
      assert ReplaceChar([c], '.', "_") == "_";
    } else {
      assert ReplaceChar([c], ':', "-") == [c];
      assert ReplaceChar([c], '+', "_plus_") == [c];
      assert ReplaceChar([c], '.', "_") == [c];
    }
  }

  /**
   * The sanitised timestamp keeps every other character in order and
   * replaces each ':', '+' and '.' independently: the chained replacements
   * never rewrite what an earlier one inserted.
   */
  lemma {:induction false} SafeTimestampPerChar(ts: string)
    ensures SafeTimestamp(ts) == SubstituteAll(ts)
  {
    if ts != [] {
      var c, rest := ts[0], ts[1..];
      assert ts == [c] + rest;
      ReplaceCharAppend([c], rest, ':', "-");
      ReplaceCharAppend(ReplaceChar([c], ':', "-"), ReplaceChar(rest, ':', "-"), '+', "_plus_");
      ReplaceCharAppend(ReplaceChar(ReplaceChar([c], ':', "-"), '+', "_plus_"),
                        ReplaceChar(ReplaceChar(rest, ':', "-"), '+', "_plus_"), '.', "_");
      SafeChar(c);
      SafeTimestampPerChar(rest);
    }
  }

  /** No substitute contains a ':', a '+' or a '.'. */
  lemma {:induction false} SubstituteAllClean(s: string)
    ensures forall i :: 0 <= i < |SubstituteAll(s)| ==> SubstituteAll(s)[i] !in {':', '+', '.'}
  {
    if s != [] {
      SubstituteAllClean(s[1..]);
      var head, tail := Substitute(s[0]), SubstituteAll(s[1..]);
      assert forall i :: 0 <= i < |head| ==> head[i] !in {':', '+', '.'};
      assert SubstituteAll(s) == head + tail;
    }
  }

  /** The report name is "high_risk_" + s + ".json" where s holds no ':', '+' or '.'. */
  lemma ReportFileNameClean(ts: string)
    ensures var s := SafeTimestamp(ts);
      ReportFileName(ts) == "high_risk_" + s + ".json"
      && (forall i :: 0 <= i < |s| ==> s[i] !in {':', '+', '.'})
      && s == SubstituteAll(ts)
  {
    SafeTimestampPerChar(ts);
    SubstituteAllClean(ts);
  }

  // ---------------------------------------------------------------------
  // The risk payload

  /** The list of advice texts as a JSON list. */
  function AdviceList(a: seq<Advice>): (v: Value)
    ensures v.List? && |v.items| == |a|
  {
    List(seq(|a|, i requires 0 <= i < |a| => Str(AdviceText(a[i]))))
  }

  function ReasonList(rs: seq<Rule>): (v: Value)
    ensures v.List? && |v.items| == |rs|
  {
    List(seq(|rs|, i requires 0 <= i < |rs| => Str(ReasonText(rs[i]))))
  }

  function PointValue(p: ForecastPoint): Value {
    Dict(map["hours" := Int(p.hours), "risk_score" := Int(p.riskScore)])
  }

  function PlanValue(p: ActionPlan): Value {
    Dict(map["do_now" := AdviceList(p.doNow), "today" := AdviceList(p.today), "this_week" := AdviceList(p.thisWeek)])
  }

  /** `event.get("timestamp") or now` */
  function PayloadTimestamp(event: map<string, Value>, now: string): (t: Value)
    ensures "timestamp" in event && Truthy(event["timestamp"]) ==> t == event["timestamp"]
    ensures !("timestamp" in event && Truthy(event["timestamp"])) ==> t == Str(now)
  {
    var t := Get(event, "timestamp", Null);
    if Truthy(t) then t else Str(now)
  }

  /** The keys `_risk_payload` sets after the two spreads (a map display has no order). */
  function RiskFields(timestamp: Value, r: RiskResult, mode: string): map<string, Value> {
    map["reasons" := ReasonList(r.reasons),
        "suggested_actions" := AdviceList(r.suggestedActions),
        "disease_suggestions" := AdviceList(r.diseaseSuggestions),
        "action_plan" := PlanValue(r.actionPlan),
        "ingestion_mode" := Str(mode),
        "forecast_trajectory" := List(seq(|r.forecastTrajectory|, i requires 0 <= i < |r.forecastTrajectory| => PointValue(r.forecastTrajectory[i]))),
        "outbreak_window" := Str(WindowText(r.outbreakWindow)),
        "outbreak_eta_hours" := Int(r.outbreakEtaHours),
        "disease_confidence" := Int(r.diseaseConfidence),
        "predicted_disease" := Str(DiseaseName(r.predictedDisease)),
        "risk_score" := Int(r.riskScore),
        "risk_level" := Str(LevelName(r.riskLevel)),
        "timestamp" := timestamp]
  }

  /** `{**event, **processed, "timestamp": ..., "risk_score": ..., ...}` */
  function RiskPayload(event: map<string, Value>, processed: map<string, Value>, r: RiskResult, now: string, mode: string): map<string, Value> {
    event + processed + RiskFields(PayloadTimestamp(event, now), r, mode)
  }

  /**
   * Later sources win: a risk field overrides the processed reading, which
   * overrides the raw event; a key none of the later sources sets keeps the
   * raw event's value.
   */
  lemma PayloadPrecedence(event: map<string, Value>, processed: map<string, Value>, r: RiskResult, now: string, mode: string, k: string)
    ensures var p := RiskPayload(event, processed, r, now, mode);
      var risk := RiskFields(PayloadTimestamp(event, now), r, mode);
      (k in p <==> k in event || k in processed || k in risk)
      && (k in risk ==> p[k] == risk[k])
      && (k !in risk && k in processed ==> p[k] == processed[k])
      && (k !in risk && k !in processed && k in event ==> p[k] == event[k])
  {
  }

  /** The fields of the payload the handler reads back. */
  lemma PayloadFields(event: map<string, Value>, processed: map<string, Value>, r: RiskResult, now: string, mode: string)
    ensures var p := RiskPayload(event, processed, r, now, mode);
      "timestamp" in p && p["timestamp"] == PayloadTimestamp(event, now)
      && "risk_level" in p && p["risk_level"] == Str(LevelName(r.riskLevel))
      && "risk_score" in p && p["risk_score"] == Int(r.riskScore)
      && "predicted_disease" in p && p["predicted_disease"] == Str(DiseaseName(r.predictedDisease))
  {
  }

  /** The payload holds every field an alert copies. */
  lemma PayloadHasAlertKeys(event: map<string, Value>, processed: map<string, Value>, r: RiskResult, now: string, mode: string)
    ensures AlertKeys <= RiskPayload(event, processed, r, now, mode).Keys
  {
    var risk := RiskFields(PayloadTimestamp(event, now), r, mode);
    assert AlertKeys <= risk.Keys;
  }

  /** A payload is HIGH exactly when the assessment's level is. */
  lemma PayloadHighIffLevel(event: map<string, Value>, processed: map<string, Value>, r: RiskResult, now: string, mode: string)
    ensures RiskPayload(event, processed, r, now, mode)["risk_level"] == Str("HIGH") <==> r.riskLevel == High
  {
    PayloadFields(event, processed, r, now, mode);
  }

  /** The features the scorer reads from the ETL step's `__dict__` are that reading's own. */
  function FeaturesOf(p: ProcessedReading): Features {
    var r := p.reading;
    Features(r.humidity, r.temperature, r.rainForecast, r.soilMoisture, r.windSpeed, r.leafWetness,
             r.soilTemperature, r.soilPh, r.solarRadiation, r.cropType, p.anomalyScore)
  }

  /** The weather fields of a reading's `__dict__`. */
  lemma WeatherLookups(p: ProcessedReading)
    ensures var d, r := ReadingFields(p), p.reading;
      "humidity" in d && d["humidity"] == Float(r.humidity)
      && "temperature" in d && d["temperature"] == Float(r.temperature)
      && "rain_forecast" in d && d["rain_forecast"] == Float(r.rainForecast)
  {
  }

  /** The wind and sun fields of a reading's `__dict__`. */
  lemma SkyLookups(p: ProcessedReading)
    ensures var d, r := ReadingFields(p), p.reading;
      "wind_speed" in d && d["wind_speed"] == Float(r.windSpeed)
      && "solar_radiation" in d && d["solar_radiation"] == Float(r.solarRadiation)
  {
  }

  /** The soil and leaf fields of a reading's `__dict__`. */
  lemma SoilLookups(p: ProcessedReading)
    ensures var d, r := ReadingFields(p), p.reading;
      "soil_moisture" in d && d["soil_moisture"] == Float(r.soilMoisture)
      && "leaf_wetness" in d && d["leaf_wetness"] == Float(r.leafWetness)
      && "soil_temperature" in d && d["soil_temperature"] == Float(r.soilTemperature)
      && "soil_ph" in d && d["soil_ph"] == Float(r.soilPh)
  {
  }

  /** A processed reading always scores: every field reads back as the value the ETL step produced. */
  lemma ScoredFeatures(p: ProcessedReading)
    ensures FeaturesFromDict(ReadingFields(p)) == Some(FeaturesOf(p))
  {
    WeatherLookups(p);
    SkyLookups(p);
    SoilLookups(p);
  }

  // ---------------------------------------------------------------------
  // The alert payload

  const AlertKeys: set<string> :=
    {"timestamp", "risk_level", "risk_score", "predicted_disease", "disease_confidence",
     "outbreak_eta_hours", "outbreak_window", "forecast_trajectory"}

  /** The alert built from a HIGH payload and the report file written for it. */
  function AlertPayload(payload: map<string, Value>, reportFile: string): map<string, Value>
    requires AlertKeys <= payload.Keys
  {
    var text := "\U{1F6A8} HIGH RISK: " + Render(Get(payload, "crop_type", Str("unknown"))) + " - "
                + Render(payload["predicted_disease"]);
    map["timestamp" := payload["timestamp"], "message" := Str(text),
        "risk_level" := payload["risk_level"], "risk_score" := payload["risk_score"],
        "predicted_disease" := payload["predicted_disease"],
        "disease_confidence" := payload["disease_confidence"],
        "outbreak_eta_hours" := payload["outbreak_eta_hours"],
        "outbreak_window" := payload["outbreak_window"],
        "forecast_trajectory" := payload["forecast_trajectory"],
        "report_file" := Str(reportFile)]
  }

  /** An alert copies its eight fields from the payload and names the report file. */
  lemma AlertPayloadFields(payload: map<string, Value>, reportFile: string)
    requires AlertKeys <= payload.Keys
    ensures var a := AlertPayload(payload, reportFile);
      "report_file" in a && a["report_file"] == Str(reportFile)
      && "message" in a && a.Keys == AlertKeys + {"message", "report_file"}
      && forall k :: k in AlertKeys ==> k in a && a[k] == payload[k]
  {
  }

  // ---------------------------------------------------------------------
  // Capped lists

  /**
   * Appending and keeping the newest `n`: the new item is last, at most `n`
   * items remain, nothing is dropped while there is room, and on overflow
   * exactly the oldest item goes.
   */
  lemma CapKeepsNewest<T>(s: seq<T>, x: T, n: nat)
    requires 0 < n && |s| <= n
    ensures var c := LastN(s + [x], n);
      |c| <= n && c[|c| - 1] == x
      && (|s| < n ==> c == s + [x])
      && (|s| == n ==> c == s[1..] + [x])
  {
    var c := LastN(s + [x], n);
    if |s| == n {
      assert c == (s + [x])[1..];
      assert (s + [x])[1..] == s[1..] + [x];
    }
  }

  /** One alert message per payload, in order. */
  function AlertMessages(alerts: seq<map<string, Value>>): (ms: seq<Message>)
    ensures |ms| == |alerts|
    ensures forall i :: 0 <= i < |alerts| ==> ms[i] == AlertMessage(alerts[i])
  {
    if alerts == [] then [] else AlertMessages(alerts[..|alerts| - 1]) + [AlertMessage(alerts[|alerts| - 1])]
  }

  /** The replay a new websocket receives: the latest payload when there is one, then the newest five alerts. */
  function Replay(latest: map<string, Value>, alerts: seq<map<string, Value>>): seq<Message> {
    (if |latest| > 0 then [Telemetry(latest)] else []) + AlertMessages(LastN(alerts, 5))
  }

  /**
   * At most six messages: the latest payload first when it is non-empty,
   * then one alert message for each of the newest five alerts, oldest first.
   */
  lemma ReplayShape(latest: map<string, Value>, alerts: seq<map<string, Value>>)
    ensures var r := Replay(latest, alerts);
      var skip := if |latest| > 0 then 1 else 0;
      |r| == skip + (if |alerts| < 5 then |alerts| else 5)
      && (|latest| > 0 ==> r[0] == Telemetry(latest))
      && (forall i :: skip <= i < |r| ==> r[i] == AlertMessage(LastN(alerts, 5)[i - skip]))
  {
    var t := AlertMessages(LastN(alerts, 5));
    var r := Replay(latest, alerts);
    if |latest| > 0 {
      assert r == [Telemetry(latest)] + t;
      forall i | 1 <= i < |r|
        ensures r[i] == AlertMessage(LastN(alerts, 5)[i - 1])
      {
        assert r[i] == t[i - 1];
      }
    } else {
      assert r == t;
    }
  }

  /** How many replay messages go out when the send at `failAt` raises. */
  function ReplaySent(replay: seq<Message>, failAt: Option<nat>): (k: nat)
    ensures k <= |replay|
    ensures k < |replay| <==> failAt.Some? && failAt.value < |replay|
  {
    if failAt.Some? && failAt.value < |replay| then failAt.value else |replay|
  }

  /** The sends of `msgs` to one socket, in order. */
  function SendsTo(ws: ConnId, msgs: seq<Message>): (ds: seq<Delivery>)
    ensures |ds| == |msgs|
    ensures forall i :: 0 <= i < |msgs| ==> ds[i] == Delivery(ws, msgs[i])
  {
    if msgs == [] then [] else SendsTo(ws, msgs[..|msgs| - 1]) + [Delivery(ws, msgs[|msgs| - 1])]
  }

  lemma SendsToSnoc(ws: ConnId, msgs: seq<Message>, i: nat)
    requires i < |msgs|
    ensures SendsTo(ws, msgs[..i + 1]) == SendsTo(ws, msgs[..i]) + [Delivery(ws, msgs[i])]
  {
    assert msgs[..i + 1][..i] == msgs[..i];
  }

  // ---------------------------------------------------------------------
  // The live state

  /** A websocket connection, as an opaque identity. */
  type ConnId = nat

  /** `{"type": "telemetry", "payload": ...}` and `{"type": "alert", "payload": ...}` */
  datatype Message = Telemetry(payload: map<string, Value>) | AlertMessage(payload: map<string, Value>)

  /** A send that succeeded. */
  datatype Delivery = Delivery(conn: ConnId, message: Message)

  /** The sends that succeed when `msg` goes to `order` and the sockets in `failing` raise. */
  function Deliveries(order: seq<ConnId>, failing: set<ConnId>, msg: Message): (d: seq<Delivery>)
    ensures |d| <= |order|
  {
    if order == [] then []
    else
      var ws := order[|order| - 1];
      Deliveries(order[..|order| - 1], failing, msg) + (if ws in failing then [] else [Delivery(ws, msg)])
  }

  /** The sockets of `order` whose send raised, in order. */
  function Stale(order: seq<ConnId>, failing: set<ConnId>): seq<ConnId> {
    if order == [] then []
    else
      var ws := order[|order| - 1];
      Stale(order[..|order| - 1], failing) + (if ws in failing then [ws] else [])
  }

  /** One more visited socket extends both the deliveries and the stale list by at most that socket. */
  lemma VisitStep(order: seq<ConnId>, ws: ConnId, failing: set<ConnId>, msg: Message)
    ensures Deliveries(order + [ws], failing, msg) == Deliveries(order, failing, msg) + (if ws in failing then [] else [Delivery(ws, msg)])
    ensures Stale(order + [ws], failing) == Stale(order, failing) + (if ws in failing then [ws] else [])
  {
    assert (order + [ws])[..|order|] == order;
  }

  /** The stale list holds exactly the visited sockets that failed. */
  lemma {:induction false} StaleMembers(order: seq<ConnId>, failing: set<ConnId>)
    ensures forall ws :: ws in Stale(order, failing) <==> ws in order && ws in failing
  {
    if order != [] {
      var prefix := order[..|order| - 1];
      StaleMembers(prefix, failing);
      assert forall ws :: ws in order <==> ws in prefix || ws == order[|order| - 1];
    }
  }

  /** The order a `for` loop visits a set in: each member once, in an order the model leaves open. */
  method IterationOrder(s: set<ConnId>) returns (order: seq<ConnId>)
    ensures |order| == |s|
    ensures forall x :: x in order <==> x in s
  {
    var pending := s;
    order := [];
    while pending != {}
      decreases |pending|
      invariant |order| + |pending| == |s|
      invariant forall x :: x in s <==> x in order || x in pending
      invariant forall x :: x in order ==> x !in pending
    {
      var x :| x in pending;
      PendingStep(s, order, pending, x);
      order := order + [x];
      pending := pending - {x};
    }
  }

  /** Moving one socket from the pending set to the visited order keeps the pass's bookkeeping. */
  lemma PendingStep(all: set<ConnId>, order: seq<ConnId>, pending: set<ConnId>, ws: ConnId)
    requires ws in pending
    requires |order| + |pending| == |all|
    requires forall x :: x in all <==> x in order || x in pending
    requires forall x :: x in order ==> x !in pending
    ensures |order + [ws]| + |pending - {ws}| == |all|
    ensures forall x :: x in all <==> x in order + [ws] || x in pending - {ws}
    ensures forall x :: x in order + [ws] ==> x !in pending - {ws}
  {
  }

  /** Only sockets that did not fail receive the message, and every one of them does. */
  lemma {:induction false} DeliveriesReachSurvivors(order: seq<ConnId>, failing: set<ConnId>, msg: Message)
    ensures forall d :: d in Deliveries(order, failing, msg) ==> d.message == msg && d.conn in order && d.conn !in failing
    ensures forall ws :: ws in order && ws !in failing ==> Delivery(ws, msg) in Deliveries(order, failing, msg)
  {
    if order != [] {
      var prefix := order[..|order| - 1];
      DeliveriesReachSurvivors(prefix, failing, msg);
      assert forall ws :: ws in order ==> ws in prefix || ws == order[|order| - 1];
    }
  }

  /** What `get_state()` returns. */
  datatype StateView = StateView(latest: map<string, Value>, history: seq<map<string, Value>>, alerts: seq<map<string, Value>>)

  /** What `_handle_stream_event` did with one message. */
  datatype HandleOutcome =
    | Ignored                           // no `processed` entry, or an empty one
    | Raised                            // an exception escaped the handler
    | Handled(payload: map<string, Value>, alert: Option<map<string, Value>>)

  class LiveState {
    const etl: PathwayEtlPipeline
    const riskEngine: DiseaseRiskEngine
    var streamSourceType: string
    var connections: set<ConnId>
    var latest: map<string, Value>
    var history: seq<map<string, Value>>
    var alerts: seq<map<string, Value>>
    /** Every websocket send that succeeded, in order. */
    var sent: seq<Delivery>
    /** The report files written, in order. */
    var reports: seq<string>

    /** The caps on the two lists. */
    predicate Valid()
      reads this
    {
      |history| <= 400 && |alerts| <= 100
    }

    constructor ()
      ensures fresh(etl) && fresh(riskEngine)
      ensures etl.windowSize == 15 && etl.Current() == Windows([], [], [], []) && etl.Valid()
      ensures riskEngine.lastLevel == Low
      ensures streamSourceType == "uninitialized"
      ensures connections == {} && latest == map[] && history == [] && alerts == []
      ensures sent == [] && reports == []
      ensures Valid()
    {
      etl := new PathwayEtlPipeline(15);
      riskEngine := new DiseaseRiskEngine();
      streamSourceType := "uninitialized";
      connections, latest, history, alerts := {}, map[], [], [];
      sent, reports := [], [];
    }

    /**
     * `broadcast(message)`: one send per connection, in the set's own
     * order (returned as `order`); the sockets in `failing` raise and are
     * discarded after the pass.
     */
    method Broadcast(msg: Message, failing: set<ConnId>) returns (order: seq<ConnId>)
      modifies this
      ensures |order| == |old(connections)|
      ensures forall ws :: ws in order <==> ws in old(connections)
      ensures sent == old(sent) + Deliveries(order, failing, msg)
      ensures connections == old(connections) - failing
      ensures latest == old(latest) && history == old(history) && alerts == old(alerts)
      ensures reports == old(reports) && streamSourceType == old(streamSourceType)
    {
      var stale;
      order, stale := SendAll(msg, failing);
      StaleMembers(order, failing);
      DiscardAll(stale);
    }

    /** The fan-out pass of `broadcast`: returns the visiting order and the sockets whose send raised. */
    method SendAll(msg: Message, failing: set<ConnId>) returns (order: seq<ConnId>, stale: seq<ConnId>)
      modifies this`sent
      ensures |order| == |connections|
      ensures forall ws :: ws in order <==> ws in connections
      ensures sent == old(sent) + Deliveries(order, failing, msg)
      ensures stale == Stale(order, failing)
    {
      order := IterationOrder(connections);
      stale := [];
      var i := 0;
      assert order[..0] == [];
      while i < |order|
        invariant 0 <= i <= |order|
        invariant sent == old(sent) + Deliveries(order[..i], failing, msg)
        invariant stale == Stale(order[..i], failing)
      {
        var ws := order[i];
        VisitStep(order[..i], ws, failing, msg);
        assert order[..i + 1] == order[..i] + [ws];
        if ws in failing {
          stale := stale + [ws];
        } else {
          sent := sent + [Delivery(ws, msg)];
        }
        i := i + 1;
      }
      assert order[..|order|] == order;
    }

    /** The discard pass of `broadcast`. */
    method DiscardAll(stale: seq<ConnId>)
      modifies this`connections
      ensures forall ws :: ws in connections <==> ws in old(connections) && ws !in stale
    {
      var k := 0;
      while k < |stale|
        invariant 0 <= k <= |stale|
        invariant forall ws :: ws in connections <==> ws in old(connections) && ws !in stale[..k]
      {
        assert stale[..k + 1] == stale[..k] + [stale[k]];
        connections := connections - {stale[k]};
        k := k + 1;
      }
      assert stale[..|stale|] == stale;
    }

    /**
     * The part of `_handle_stream_event` after the payload is built: a HIGH
     * payload gets a report file and an alert, the state is updated and the
     * telemetry is broadcast before the alert.
     */
    method Publish(payload: map<string, Value>, writeFails: bool, failTelemetry: set<ConnId>, failAlert: set<ConnId>)
      returns (outcome: HandleOutcome, telemetryOrder: seq<ConnId>, alertOrder: seq<ConnId>)
      requires Valid()
      requires AlertKeys <= payload.Keys
      modifies this
      ensures Valid()
      ensures streamSourceType == old(streamSourceType)
      ensures outcome.Raised? <==> payload["risk_level"] == Str("HIGH") && writeFails
      ensures outcome.Raised? ==>
        latest == old(latest) && history == old(history) && alerts == old(alerts)
        && sent == old(sent) && connections == old(connections) && reports == old(reports)
      ensures !outcome.Raised? ==> outcome.Handled? && outcome.payload == payload
      ensures outcome.Handled? ==>
        (outcome.alert.Some? <==> payload["risk_level"] == Str("HIGH"))
        && (outcome.alert.Some? ==>
              var file := ReportFileName(Render(payload["timestamp"]));
              outcome.alert.value == AlertPayload(payload, file) && reports == old(reports) + [file])
        && (outcome.alert.None? ==> reports == old(reports))
        && latest == payload
        && history == LastN(old(history) + [payload], 400)
        && alerts == (if outcome.alert.Some? then LastN(old(alerts) + [outcome.alert.value], 100) else old(alerts))
        && sent == old(sent) + Deliveries(telemetryOrder, failTelemetry, Telemetry(payload))
                  + (if outcome.alert.Some? then Deliveries(alertOrder, failAlert, AlertMessage(outcome.alert.value)) else [])
        && connections == old(connections) - failTelemetry - (if outcome.alert.Some? then failAlert else {})
      ensures outcome.Raised? ==> telemetryOrder == [] && alertOrder == []
      ensures outcome.Handled? ==>
        |telemetryOrder| == |old(connections)| && (forall ws :: ws in telemetryOrder <==> ws in old(connections))
      ensures outcome.Handled? && outcome.alert.Some? ==>
        |alertOrder| == |old(connections) - failTelemetry|
        && (forall ws :: ws in alertOrder <==> ws in old(connections) - failTelemetry)
      ensures outcome.Handled? && outcome.alert.None? ==> alertOrder == []
      ensures outcome.Handled? ==>
        forall ws :: ws in old(connections) && ws !in failTelemetry ==> Delivery(ws, Telemetry(payload)) in sent
      ensures outcome.Handled? && outcome.alert.Some? ==>
        forall ws :: ws in old(connections) && ws !in failTelemetry && ws !in failAlert ==>
          Delivery(ws, AlertMessage(outcome.alert.value)) in sent
    {
      telemetryOrder, alertOrder := [], [];
      var alert: Option<map<string, Value>> := None;
      if payload["risk_level"] == Str("HIGH") {
        var file := ReportFileName(Render(payload["timestamp"]));
        if writeFails {
          return Raised, telemetryOrder, alertOrder;
        }
        reports := reports + [file];
        alert := Some(AlertPayload(payload, file));
      }
      latest := payload;
      history := LastN(history + [payload], 400);
      if alert.Some? {
        alerts := LastN(alerts + [alert.value], 100);
      }
      telemetryOrder := Broadcast(Telemetry(payload), failTelemetry);
      DeliveriesReachSurvivors(telemetryOrder, failTelemetry, Telemetry(payload));
      if alert.Some? {
        alertOrder := Broadcast(AlertMessage(alert.value), failAlert);
        DeliveriesReachSurvivors(alertOrder, failAlert, AlertMessage(alert.value));
      }
      outcome := Handled(payload, alert);
    }

    /**
     * `_handle_stream_event(message)` at time `now`. The sockets in
     * `failTelemetry` and `failAlert` raise on the two broadcasts;
     * `writeFails` says whether writing the report file raises.
     */
    method HandleStreamEvent(message: map<string, Value>, now: string, writeFails: bool,
                             failTelemetry: set<ConnId>, failAlert: set<ConnId>)
      returns (outcome: HandleOutcome, telemetryOrder: seq<ConnId>, alertOrder: seq<ConnId>)
      requires Valid()
      modifies this, riskEngine
      ensures Valid()
      ensures streamSourceType == old(streamSourceType)
      ensures outcome == Ignored <==> !Truthy(Get(message, "processed", Null))
      ensures !outcome.Handled? ==>
        latest == old(latest) && history == old(history) && alerts == old(alerts)
        && sent == old(sent) && connections == old(connections) && reports == old(reports)
      ensures outcome == Ignored ==> riskEngine.lastLevel == old(riskEngine.lastLevel)
      ensures outcome.Handled? ==>
        var raw := Get(message, "raw", Dict(map[]));
        var processed := Get(message, "processed", Null);
        raw.Dict? && processed.Dict? && FeaturesFromDict(processed.entries).Some?
        && var r := Assess(FeaturesFromDict(processed.entries).value, old(riskEngine.lastLevel));
        var p := outcome.payload;
        p == RiskPayload(raw.entries, processed.entries, r, now, streamSourceType)
        && riskEngine.lastLevel == r.riskLevel
        && (outcome.alert.Some? <==> r.riskLevel == High)
        && (outcome.alert.Some? ==>
              var file := ReportFileName(Render(p["timestamp"]));
              outcome.alert.value == AlertPayload(p, file) && reports == old(reports) + [file])
        && (outcome.alert.None? ==> reports == old(reports))
        && latest == p
        && history == LastN(old(history) + [p], 400)
        && alerts == (if outcome.alert.Some? then LastN(old(alerts) + [outcome.alert.value], 100) else old(alerts))
        && sent == old(sent) + Deliveries(telemetryOrder, failTelemetry, Telemetry(p))
                  + (if outcome.alert.Some? then Deliveries(alertOrder, failAlert, AlertMessage(outcome.alert.value)) else [])
        && connections == old(connections) - failTelemetry - (if outcome.alert.Some? then failAlert else {})
      ensures var processed := Get(message, "processed", Null);
        if Truthy(processed) && processed.Dict? && FeaturesFromDict(processed.entries).Some?
        then riskEngine.lastLevel == Assess(FeaturesFromDict(processed.entries).value, old(riskEngine.lastLevel)).riskLevel
        else riskEngine.lastLevel == old(riskEngine.lastLevel)
      ensures !outcome.Handled? ==> telemetryOrder == [] && alertOrder == []
      ensures outcome.Handled? ==>
        |telemetryOrder| == |old(connections)| && (forall ws :: ws in telemetryOrder <==> ws in old(connections))
      ensures outcome.Handled? && outcome.alert.Some? ==>
        |alertOrder| == |old(connections) - failTelemetry|
        && (forall ws :: ws in alertOrder <==> ws in old(connections) - failTelemetry)
      ensures outcome.Handled? && outcome.alert.None? ==> alertOrder == []
      ensures outcome.Handled? ==>
        forall ws :: ws in old(connections) && ws !in failTelemetry ==> Delivery(ws, Telemetry(outcome.payload)) in sent
      ensures outcome.Handled? && outcome.alert.Some? ==>
        forall ws :: ws in old(connections) && ws !in failTelemetry && ws !in failAlert ==>
          Delivery(ws, AlertMessage(outcome.alert.value)) in sent
    {
      telemetryOrder, alertOrder := [], [];
      var raw := Get(message, "raw", Dict(map[]));
      var processed := Get(message, "processed", Null);
      if !Truthy(processed) {
        return Ignored, telemetryOrder, alertOrder;
      }
      if !processed.Dict? {
        return Raised, telemetryOrder, alertOrder;     // `features.get` on a non-dict
      }
      var features := FeaturesFromDict(processed.entries);
      if features.None? {
        return Raised, telemetryOrder, alertOrder;     // some `float(...)` raised
      }
      var risk := riskEngine.Score(features.value);
      if !raw.Dict? {
        return Raised, telemetryOrder, alertOrder;     // `event.get` on a non-dict
      }
      var payload := RiskPayload(raw.entries, processed.entries, risk, now, streamSourceType);
      PayloadFields(raw.entries, processed.entries, risk, now, streamSourceType);
      PayloadHasAlertKeys(raw.entries, processed.entries, risk, now, streamSourceType);
      PayloadHighIffLevel(raw.entries, processed.entries, risk, now, streamSourceType);
      outcome, telemetryOrder, alertOrder := Publish(payload, writeFails, failTelemetry, failAlert);
    }

    /** `get_state()`: the latest payload, the newest 60 history items and the newest 20 alerts. */
    function GetState(): (v: StateView)
      reads this
      ensures v.latest == latest
      ensures |v.history| == (if |history| < 60 then |history| else 60)
      ensures v.history == history[|history| - |v.history|..]
      ensures |v.alerts| == (if |alerts| < 20 then |alerts| else 20)
      ensures v.alerts == alerts[|alerts| - |v.alerts|..]
    {
      StateView(latest, LastN(history, 60), LastN(alerts, 20))
    }

    /** The replay sends, in order, up to the first one that raises. */
    method SendReplay(ws: ConnId, replay: seq<Message>, failAt: Option<nat>) returns (k: nat)
      modifies this`sent
      ensures k == ReplaySent(replay, failAt)
      ensures sent == old(sent) + SendsTo(ws, replay[..k])
    {
      k := ReplaySent(replay, failAt);
      var i := 0;
      assert replay[..0] == [];
      while i < k
        invariant 0 <= i <= k
        invariant sent == old(sent) + SendsTo(ws, replay[..i])
      {
        SendsToSnoc(ws, replay, i);
        sent := sent + [Delivery(ws, replay[i])];
        i := i + 1;
      }
    }

    /**
     * A new websocket: it is added to the connections and sent the replay;
     * `failAt` is the position of the first replay send that raises, after
     * which the socket is discarded.
     */
    method Connect(ws: ConnId, failAt: Option<nat>)
      modifies this
      ensures sent == old(sent) + SendsTo(ws, Replay(old(latest), old(alerts))[..ReplaySent(Replay(old(latest), old(alerts)), failAt)])
      ensures connections == if ReplaySent(Replay(old(latest), old(alerts)), failAt) < |Replay(old(latest), old(alerts))|
                             then old(connections) - {ws} else old(connections) + {ws}
      ensures latest == old(latest) && history == old(history) && alerts == old(alerts) && reports == old(reports)
      ensures streamSourceType == old(streamSourceType)
    {
      connections := connections + {ws};
      var replay := Replay(latest, alerts);
      var k := SendReplay(ws, replay, failAt);
      if k < |replay| {
        connections := connections - {ws};
      }
    }

    /** The socket went away (`WebSocketDisconnect` or another error while receiving). */
    method Disconnect(ws: ConnId)
      modifies this`connections
      ensures connections == old(connections) - {ws}
      ensures latest == old(latest) && history == old(history) && alerts == old(alerts) && sent == old(sent)
      ensures reports == old(reports) && streamSourceType == old(streamSourceType)
    {
      connections := connections - {ws};
    }
  }
}
