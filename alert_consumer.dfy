/**
 * The notification service's reading processor: look the sensor up, store the
 * reading, then evaluate the thresholds and store one alert row per violated
 * bound, temperature first. Every store failure is logged and rethrown; what
 * was stored before the failure stays stored.
 *
 * The store is a `Database` object holding the three tables the processor
 * touches. Each query it issues is numbered; the queries whose numbers are in
 * `failing` throw. This stands for every way a `query` call can reject.
 */
module AlertConsumer {
  import opened Wrappers
  import opened Thresholds

  /** A row of `sensor_readings` as the processor writes it: the message timestamp is not stored. */
  datatype StoredReading = StoredReading(sensorId: string, temperature: real, humidity: real)

  /** A rejected query, named by its number. */
  datatype StoreError = QueryFailed(query: nat)

  /** The lines the processor logs, without their free text. */
  datatype LogLine =
    | SensorNotFound(sensorId: string)
    | ReadingSaved(sensorId: string)
    | AlertSaved(kind: AlertKind, sensorId: string)
    | ErrorSavingAlert
    | Separator
    | AlertTriggered
    | AlertMessage(kind: AlertKind)
    | WithinNormalRange(sensorId: string)
    | ErrorProcessingReading

  /** The tables the processor reads and appends to, and the query numbering. */
  class Database {
    var sensors: seq<SensorConfig>
    var readings: seq<StoredReading>
    var alerts: seq<AlertEvent>
    var issued: nat
    const failing: set<nat>

    constructor(sensors: seq<SensorConfig>, failing: set<nat>)
      ensures this.sensors == sensors && this.failing == failing
      ensures readings == [] && alerts == [] && issued == 0
    {
      this.sensors := sensors;
      this.failing := failing;
      readings := [];
      alerts := [];
      issued := 0;
    }

    /** `SELECT * FROM sensors WHERE sensor_id = $1`, keeping the first row. */
    method SelectSensor(id: string) returns (r: Result<Option<SensorConfig>, StoreError>)
      modifies this
      ensures issued == old(issued) + 1
      ensures old(issued) in failing ==> r == Err(QueryFailed(old(issued)))
      ensures old(issued) !in failing ==> r == Ok(FindSensor(sensors, id))
      ensures sensors == old(sensors) && readings == old(readings) && alerts == old(alerts)
    {
      if issued in failing {
        r := Err(QueryFailed(issued));
      } else {
        r := Ok(FindSensor(sensors, id));
      }
      issued := issued + 1;
    }

    /** `INSERT INTO sensor_readings`. */
    method InsertReading(row: StoredReading) returns (r: Result<(), StoreError>)
      modifies this
      ensures issued == old(issued) + 1
      ensures old(issued) in failing ==> r == Err(QueryFailed(old(issued))) && readings == old(readings)
      ensures old(issued) !in failing ==> r == Ok(()) && readings == old(readings) + [row]
      ensures sensors == old(sensors) && alerts == old(alerts)
    {
      if issued in failing {
        r := Err(QueryFailed(issued));
      } else {
        readings := readings + [row];
        r := Ok(());
      }
      issued := issued + 1;
    }

    /** `INSERT INTO alerts`. */
    method InsertAlert(a: AlertEvent) returns (r: Result<(), StoreError>)
      modifies this
      ensures issued == old(issued) + 1
      ensures old(issued) in failing ==> r == Err(QueryFailed(old(issued))) && alerts == old(alerts)
      ensures old(issued) !in failing ==> r == Ok(()) && alerts == old(alerts) + [a]
      ensures sensors == old(sensors) && readings == old(readings)
    {
      if issued in failing {
        r := Err(QueryFailed(issued));
      } else {
        alerts := alerts + [a];
        r := Ok(());
      }
      issued := issued + 1;
    }
  }

  /** The first configured sensor with the given id, or none (`rows[0]` of the lookup). */
  function FindSensor(sensors: seq<SensorConfig>, id: string): Option<SensorConfig> {
    if sensors == [] then None
    else if sensors[0].sensorId == id then Some(sensors[0])
    else FindSensor(sensors[1..], id)
  }

  /**
   * The lookup finds nothing exactly when no sensor has the id, and otherwise
   * the earliest sensor with that id.
   */
  lemma {:induction false} FindSensorSpec(sensors: seq<SensorConfig>, id: string)
    ensures var r := FindSensor(sensors, id);
      && (r.None? <==> forall i :: 0 <= i < |sensors| ==> sensors[i].sensorId != id)
      && (r.Some? ==>
           && r.value.sensorId == id
           && exists i :: 0 <= i < |sensors| && sensors[i] == r.value &&
                forall j :: 0 <= j < i ==> sensors[j].sensorId != id)
  {
    if sensors != [] && sensors[0].sensorId != id {
      FindSensorSpec(sensors[1..], id);
      assert forall i :: 1 <= i < |sensors| ==> sensors[i] == sensors[1..][i - 1];
      var r := FindSensor(sensors, id);
      if r.Some? {
        var i :| 0 <= i < |sensors[1..]| && sensors[1..][i] == r.value &&
          forall j :: 0 <= j < i ==> sensors[1..][j].sensorId != id;
        assert sensors[i + 1] == r.value;
      }
    }
  }

  /** One warn line per alert message. */
  function MessageLines(alerts: seq<AlertEvent>): (log: seq<LogLine>)
    ensures |log| == |alerts|
    ensures forall i :: 0 <= i < |alerts| ==> log[i] == AlertMessage(alerts[i].kind)
  {
    if alerts == [] then [] else [AlertMessage(alerts[0].kind)] + MessageLines(alerts[1..])
  }

  /**
   * The summary logged once every alert was stored: the banner, one line per
   * alert, the closing rule; or the all-clear line when nothing was raised.
   */
  function SummaryLines(c: SensorConfig, alerts: seq<AlertEvent>): (log: seq<LogLine>)
    ensures alerts == [] <==> log == [WithinNormalRange(c.sensorId)]
    ensures alerts != [] ==>
      && |log| == |alerts| + 3
      && log[0] == Separator && log[1] == AlertTriggered && log[|log| - 1] == Separator
      && forall i :: 0 <= i < |alerts| ==> log[i + 2] == AlertMessage(alerts[i].kind)
  {
    if |alerts| > 0 then [Separator, AlertTriggered] + MessageLines(alerts) + [Separator]
    else [WithinNormalRange(c.sensorId)]
  }

  /** What a step of the processor does to the store, what it returns and what it logs. */
  datatype Outcome = Outcome(
    readings: seq<StoredReading>,
    alerts: seq<AlertEvent>,
    queries: nat,
    result: Result<(), StoreError>,
    log: seq<LogLine>)

  /** `saveAlert` with its insert numbered `q`: a failure is logged and rethrown. */
  function SaveEffect(a: AlertEvent, q: nat, failing: set<nat>): Outcome {
    if q in failing then Outcome([], [], 1, Err(QueryFailed(q)), [ErrorSavingAlert])
    else Outcome([], [a], 1, Ok(()), [AlertSaved(a.kind, a.sensorId)])
  }

  /** One metric's check with its insert numbered `q`: the alert it raised, if any, is saved. */
  function MetricEffect(raised: seq<AlertEvent>, q: nat, failing: set<nat>): Outcome {
    if raised == [] then Outcome([], [], 0, Ok(()), []) else SaveEffect(raised[0], q, failing)
  }

  /** Step `x` followed by step `y`, when `x` returned normally. */
  function Then(x: Outcome, y: Outcome): Outcome {
    Outcome(x.readings + y.readings, x.alerts + y.alerts, x.queries + y.queries, y.result, x.log + y.log)
  }

  /**
   * `checkThresholds` with its inserts numbered from `q`: the temperature
   * check, then, unless its insert failed, the humidity check, then, unless
   * that insert failed, the summary.
   */
  function CheckEffect(c: SensorConfig, reading: Reading, q: nat, failing: set<nat>): Outcome {
    var t := MetricEffect(TemperatureAlerts(c, reading), q, failing);
    if t.result.Err? then t
    else
      var h := MetricEffect(HumidityAlerts(c, reading), q + t.queries, failing);
      var both := Then(t, h);
      if h.result.Err? then both else both.(log := both.log + SummaryLines(c, Evaluate(c, reading)))
  }

  /**
   * The processor's effect when its queries are numbered from `q`: query `q`
   * is the sensor lookup, `q + 1` the reading insert and `q + 2` onwards the
   * alert inserts.
   */
  function Process(sensors: seq<SensorConfig>, reading: Reading, q: nat, failing: set<nat>): Outcome {
    if q in failing then Outcome([], [], 1, Err(QueryFailed(q)), [ErrorProcessingReading])
    else match FindSensor(sensors, reading.sensorId)
      case None => Outcome([], [], 1, Ok(()), [SensorNotFound(reading.sensorId)])
      case Some(c) =>
        if q + 1 in failing then Outcome([], [], 2, Err(QueryFailed(q + 1)), [ErrorProcessingReading])
        else
          var o := CheckEffect(c, reading, q + 2, failing);
          Outcome(
            [StoredReading(reading.sensorId, reading.temperature, reading.humidity)],
            o.alerts,
            2 + o.queries,
            o.result,
            [ReadingSaved(reading.sensorId)] + o.log + (if o.result.Err? then [ErrorProcessingReading] else []))
  }

  /** `saveAlert`: insert one alert row; a failure is logged and rethrown. */
  method SaveAlert(db: Database, a: AlertEvent) returns (r: Result<(), StoreError>, log: seq<LogLine>)
    modifies db
    ensures var o := SaveEffect(a, old(db.issued), db.failing);
      && db.alerts == old(db.alerts) + o.alerts
      && db.issued == old(db.issued) + o.queries
      && r == o.result
      && log == o.log
    ensures db.sensors == old(db.sensors) && db.readings == old(db.readings)
  {
    r := db.InsertAlert(a);
    if r.Err? {
      log := [ErrorSavingAlert];
    } else {
      log := [AlertSaved(a.kind, a.sensorId)];
    }
  }

  /**
   * The threshold check stores the evaluator's alerts in order and stops at
   * the first failing insert: the rows stored are a prefix of `Evaluate`'s
   * alerts, all of them exactly when the call returns normally, and a
   * failure is the first failing insert, which is the last query issued.
   */
  lemma CheckEffectStoresEvaluate(c: SensorConfig, reading: Reading, q: nat, failing: set<nat>)
    ensures var o := CheckEffect(c, reading, q, failing);
      var all := Evaluate(c, reading);
      && o.readings == []
      && |o.alerts| <= |all| && o.alerts == all[..|o.alerts|]
      && (o.result.Ok? <==> o.alerts == all)
      && (o.result.Ok? ==> o.queries == |all|)
      && (o.result.Err? ==> |o.alerts| < |all| && o.queries == |o.alerts| + 1)
      && (o.result.Err? ==> o.result.error == QueryFailed(q + |o.alerts|) && q + |o.alerts| in failing)
      && (forall m :: q <= m < q + |o.alerts| ==> m !in failing)
  {
    var ta, ha := TemperatureAlerts(c, reading), HumidityAlerts(c, reading);
    var all := Evaluate(c, reading);
    var o := CheckEffect(c, reading, q, failing);
    assert all == ta + ha;
    if ta != [] && q in failing {
      assert o.alerts == [] == all[..0];
    } else {
      var t := MetricEffect(ta, q, failing);
      assert t.alerts == ta && t.queries == |ta|;
      if ha != [] && q + |ta| in failing {
        assert o.alerts == ta == all[..|ta|];
      } else {
        assert o.alerts == all;
      }
    }
  }

  /** When the threshold check returns normally its log ends with the summary. */
  lemma CheckEffectEndsWithSummary(c: SensorConfig, reading: Reading, q: nat, failing: set<nat>)
    requires CheckEffect(c, reading, q, failing).result.Ok?
    ensures var o := CheckEffect(c, reading, q, failing);
      var summary := SummaryLines(c, Evaluate(c, reading));
      |summary| <= |o.log| && o.log[|o.log| - |summary|..] == summary
  {
  }

  /** The temperature check: below the minimum, else above the maximum, stores its alert. */
  method CheckTemperature(db: Database, c: SensorConfig, reading: Reading) returns (r: Result<(), StoreError>, log: seq<LogLine>)
    modifies db
    ensures var o := MetricEffect(TemperatureAlerts(c, reading), old(db.issued), db.failing);
      && db.alerts == old(db.alerts) + o.alerts
      && db.issued == old(db.issued) + o.queries
      && r == o.result
      && log == o.log
    ensures db.sensors == old(db.sensors) && db.readings == old(db.readings)
  {
    if reading.temperature < c.minTemperature {
      r, log := SaveAlert(db, MakeAlert(c, reading, LowTemperature));
    } else if reading.temperature > c.maxTemperature {
      r, log := SaveAlert(db, MakeAlert(c, reading, HighTemperature));
    } else {
      r, log := Ok(()), [];
    }
  }

  /** The humidity check: below the minimum, else above the maximum, stores its alert. */
  method CheckHumidity(db: Database, c: SensorConfig, reading: Reading) returns (r: Result<(), StoreError>, log: seq<LogLine>)
    modifies db
    ensures var o := MetricEffect(HumidityAlerts(c, reading), old(db.issued), db.failing);
      && db.alerts == old(db.alerts) + o.alerts
      && db.issued == old(db.issued) + o.queries
      && r == o.result
      && log == o.log
    ensures db.sensors == old(db.sensors) && db.readings == old(db.readings)
  {
    if reading.humidity < c.minHumidity {
      r, log := SaveAlert(db, MakeAlert(c, reading, LowHumidity));
    } else if reading.humidity > c.maxHumidity {
      r, log := SaveAlert(db, MakeAlert(c, reading, HighHumidity));
    } else {
      r, log := Ok(()), [];
    }
  }

  /**
   * `checkThresholds`: the temperature check, then the humidity check, each
   * storing the alert it raises before going on; then the summary of every
   * alert raised.
   */
  method CheckThresholds(db: Database, c: SensorConfig, reading: Reading)
    returns (r: Result<(), StoreError>, log: seq<LogLine>)
    modifies db
    ensures var o := CheckEffect(c, reading, old(db.issued), db.failing);
      && db.alerts == old(db.alerts) + o.alerts
      && db.issued == old(db.issued) + o.queries
      && r == o.result
      && log == o.log
    ensures db.sensors == old(db.sensors) && db.readings == old(db.readings)
  {
    var temperatureLog;
    r, temperatureLog := CheckTemperature(db, c, reading);
    if r.Err? {
      return r, temperatureLog;
    }
    var humidityLog;
    r, humidityLog := CheckHumidity(db, c, reading);
    if r.Err? {
      return r, temperatureLog + humidityLog;
    }
    log := temperatureLog + humidityLog + SummaryLines(c, Evaluate(c, reading));
  }

  /**
   * `processReading`: the lookup, the reading insert and the threshold check,
   * with every failure logged and rethrown.
   */
  method ProcessReading(db: Database, reading: Reading) returns (r: Result<(), StoreError>, log: seq<LogLine>)
    modifies db
    ensures var o := Process(old(db.sensors), reading, old(db.issued), db.failing);
      && db.readings == old(db.readings) + o.readings
      && db.alerts == old(db.alerts) + o.alerts
      && db.issued == old(db.issued) + o.queries
      && r == o.result
      && log == o.log
    ensures db.sensors == old(db.sensors)
  {
    var found := db.SelectSensor(reading.sensorId);
    if found.Err? {
      return Err(found.error), [ErrorProcessingReading];
    }
    if found.value.None? {
      return Ok(()), [SensorNotFound(reading.sensorId)];
    }
    var c := found.value.value;
    var inserted := db.InsertReading(StoredReading(reading.sensorId, reading.temperature, reading.humidity));
    if inserted.Err? {
      return Err(inserted.error), [ErrorProcessingReading];
    }
    var checkLog;
    r, checkLog := CheckThresholds(db, c, reading);
    log := [ReadingSaved(reading.sensorId)] + checkLog;
    if r.Err? {
      log := log + [ErrorProcessingReading];
    }
  }

  // Properties of the processor's effect.

  /** An unknown sensor gets nothing written, and the call returns normally. */
  lemma UnknownSensorWritesNothing(sensors: seq<SensorConfig>, reading: Reading, q: nat, failing: set<nat>)
    requires q !in failing
    requires forall i :: 0 <= i < |sensors| ==> sensors[i].sensorId != reading.sensorId
    ensures var o := Process(sensors, reading, q, failing);
      o.readings == [] && o.alerts == [] && o.result == Ok(())
  {
    FindSensorSpec(sensors, reading.sensorId);
  }

  /**
   * Nothing is stored unless the reading is: any stored alert comes with
   * exactly one stored reading, which carries the message's sensor id and
   * values and not its timestamp.
   */
  lemma ReadingStoredFirst(sensors: seq<SensorConfig>, reading: Reading, q: nat, failing: set<nat>)
    ensures var o := Process(sensors, reading, q, failing);
      && |o.readings| <= 1
      && (o.alerts != [] ==> o.readings == [StoredReading(reading.sensorId, reading.temperature, reading.humidity)])
  {
  }

  /**
   * For a known sensor whose lookup and reading insert succeed, the call
   * stores the reading and then runs the threshold check, rethrowing its
   * failure.
   */
  lemma KnownSensorRunsCheck(sensors: seq<SensorConfig>, reading: Reading, q: nat, failing: set<nat>, c: SensorConfig)
    requires FindSensor(sensors, reading.sensorId) == Some(c)
    requires q !in failing && q + 1 !in failing
    ensures var o := Process(sensors, reading, q, failing);
      var ce := CheckEffect(c, reading, q + 2, failing);
      && o.readings == [StoredReading(reading.sensorId, reading.temperature, reading.humidity)]
      && o.alerts == ce.alerts && o.result == ce.result && o.queries == 2 + ce.queries
      && o.log == [ReadingSaved(reading.sensorId)] + ce.log + (if ce.result.Err? then [ErrorProcessingReading] else [])
  {
  }

  /**
   * With every query succeeding, a known sensor gets the reading and exactly
   * the alerts the evaluator raises, and the call returns normally.
   */
  lemma AllStoredWhenNothingFails(sensors: seq<SensorConfig>, reading: Reading, q: nat, failing: set<nat>, c: SensorConfig)
    requires forall m :: q <= m < q + 4 ==> m !in failing
    requires FindSensor(sensors, reading.sensorId) == Some(c)
    ensures var o := Process(sensors, reading, q, failing);
      && o.readings == [StoredReading(reading.sensorId, reading.temperature, reading.humidity)]
      && o.alerts == Evaluate(c, reading)
      && o.result == Ok(())
  {
    KnownSensorRunsCheck(sensors, reading, q, failing, c);
    CheckEffectStoresEvaluate(c, reading, q + 2, failing);
    var ce := CheckEffect(c, reading, q + 2, failing);
    assert |Evaluate(c, reading)| <= 2;
    assert ce.result.Err? ==> q <= q + 2 + |ce.alerts| < q + 4;
  }

  /**
   * Within the threshold check, a failing insert is rethrown: when insert
   * `m` would fail, the check fails with the first failing insert's error.
   */
  lemma CheckFailureIsFirst(c: SensorConfig, reading: Reading, q: nat, failing: set<nat>, m: nat)
    requires q <= m < q + |Evaluate(c, reading)| && m in failing
    ensures var o := CheckEffect(c, reading, q, failing);
      && o.result.Err?
      && q <= o.result.error.query <= m && o.result.error.query in failing
      && (forall k :: q <= k < o.result.error.query ==> k !in failing)
  {
    CheckEffectStoresEvaluate(c, reading, q, failing);
    var o := CheckEffect(c, reading, q, failing);
    assert o.result.Ok? ==> m - q < |o.alerts|;
  }

  /**
   * A failing query is rethrown: when query `m`, one of those a known
   * sensor's reading needs, would fail, the call fails with the first failing
   * query's error.
   */
  lemma FailureIsRethrown(sensors: seq<SensorConfig>, reading: Reading, q: nat, failing: set<nat>, c: SensorConfig, m: nat)
    requires FindSensor(sensors, reading.sensorId) == Some(c)
    requires q <= m < q + 2 + |Evaluate(c, reading)| && m in failing
    ensures var o := Process(sensors, reading, q, failing);
      && o.result.Err?
      && q <= o.result.error.query <= m && o.result.error.query in failing
      && (forall k :: q <= k < o.result.error.query ==> k !in failing)
  {
    if q in failing {
      assert Process(sensors, reading, q, failing).result == Err(QueryFailed(q));
    } else if q + 1 in failing {
      assert Process(sensors, reading, q, failing).result == Err(QueryFailed(q + 1));
    } else {
      assert q + 2 <= m;
      KnownSensorRunsCheck(sensors, reading, q, failing, c);
      assert Process(sensors, reading, q, failing).result == CheckEffect(c, reading, q + 2, failing).result;
      CheckFailureIsFirst(c, reading, q + 2, failing, m);
    }
  }

  /**
   * What a failed call leaves stored: a prefix of the alerts raised, and a
   * proper prefix once the reading was stored.
   */
  lemma FailureStoresPrefix(sensors: seq<SensorConfig>, reading: Reading, q: nat, failing: set<nat>, c: SensorConfig)
    requires FindSensor(sensors, reading.sensorId) == Some(c)
    requires Process(sensors, reading, q, failing).result.Err?
    ensures var o := Process(sensors, reading, q, failing);
      && |o.alerts| <= |Evaluate(c, reading)| && o.alerts == Evaluate(c, reading)[..|o.alerts|]
      && (o.readings != [] ==> |o.alerts| < |Evaluate(c, reading)|)
  {
    if q in failing {
      assert Process(sensors, reading, q, failing).alerts == [];
    } else if q + 1 in failing {
      assert Process(sensors, reading, q, failing).alerts == [];
    } else {
      KnownSensorRunsCheck(sensors, reading, q, failing, c);
      CheckEffectStoresEvaluate(c, reading, q + 2, failing);
    }
  }

  /** A failed reading insert prevents every alert insert. */
  lemma ReadingFailureStoresNoAlert(sensors: seq<SensorConfig>, reading: Reading, q: nat, failing: set<nat>)
    requires q !in failing && q + 1 in failing
    ensures var o := Process(sensors, reading, q, failing);
      o.alerts == [] && o.readings == [] && (o.result.Err? <==> FindSensor(sensors, reading.sensorId).Some?)
  {
  }

  /**
   * When the call returns normally for a known sensor, its log ends with the
   * summary: the banner when some alert was raised, the all-clear line
   * otherwise.
   */
  lemma BannerIffAlerts(sensors: seq<SensorConfig>, reading: Reading, q: nat, failing: set<nat>, c: SensorConfig)
    requires FindSensor(sensors, reading.sensorId) == Some(c)
    requires Process(sensors, reading, q, failing).result.Ok?
    ensures var o := Process(sensors, reading, q, failing);
      var summary := SummaryLines(c, Evaluate(c, reading));
      && |summary| <= |o.log|
      && o.log[|o.log| - |summary|..] == summary
  {
    assert q !in failing && q + 1 !in failing;
    KnownSensorRunsCheck(sensors, reading, q, failing, c);
    CheckEffectEndsWithSummary(c, reading, q + 2, failing);
    var ce := CheckEffect(c, reading, q + 2, failing);
    var o := Process(sensors, reading, q, failing);
    assert o.log == [ReadingSaved(reading.sensorId)] + ce.log;
  }
}
