/**
 * `DashboardController`: the server-rendered dashboard, which joins every
 * sensor with its latest reading, and the `/api/stats` counts. The three
 * queries each handler runs are inputs (`findAll`, the latest reading per
 * sensor and the alerts of the last hour); an `Err` stands for a query that
 * throws.
 */
module DashboardController {
  import opened Wrappers
  import opened JsValues
  import opened SensorModel
  import opened SensorController

  /** `r.sensor_id === sensor.sensor_id` */
  predicate ReadingOf(reading: Entries, sensorId: string) {
    Get(reading, "sensor_id") == Str(sensorId)
  }

  /** The index `latestReadings.find` stops at: the first reading of the sensor, or `|readings|`. */
  function FirstReading(readings: seq<Entries>, sensorId: string): (k: nat)
    ensures k <= |readings|
    ensures forall i :: 0 <= i < k ==> !ReadingOf(readings[i], sensorId)
    ensures k < |readings| ==> ReadingOf(readings[k], sensorId)
  {
    if readings == [] then 0
    else if ReadingOf(readings[0], sensorId) then 0
    else 1 + FirstReading(readings[1..], sensorId)
  }

  /** `reading || null`: a query row is an object, so only a missing reading becomes null. */
  function LatestReading(readings: seq<Entries>, sensorId: string): Value {
    var k := FirstReading(readings, sensorId);
    if k < |readings| then Obj(readings[k]) else Null
  }

  /** `{ ...sensor, latest_reading }` */
  function WithLatest(sensor: SensorRow, readings: seq<Entries>): Value {
    Obj(SetProp(RowJson(sensor).entries, "latest_reading", LatestReading(readings, sensor.sensorId)))
  }

  /** `sensorsWithData`: one entry per sensor, in the sensors' order. */
  function SensorsWithData(sensors: seq<SensorRow>, readings: seq<Entries>): (vs: seq<Value>)
    ensures |vs| == |sensors|
    ensures forall i :: 0 <= i < |sensors| ==> vs[i] == WithLatest(sensors[i], readings)
  {
    seq(|sensors|, i requires 0 <= i < |sensors| => WithLatest(sensors[i], readings))
  }

  /** Every column of a sensor survives the join unchanged, so the list keeps the sensors' order. */
  lemma JoinKeepsSensor(sensors: seq<SensorRow>, readings: seq<Entries>, i: nat, key: string)
    requires i < |sensors| && key != "latest_reading"
    ensures Prop(SensorsWithData(sensors, readings)[i], key) == Prop(RowJson(sensors[i]), key)
    ensures Prop(SensorsWithData(sensors, readings)[i], "sensor_id") == Str(sensors[i].sensorId)
  {
    var e := RowJson(sensors[i]).entries;
    var joined := SetProp(e, "latest_reading", LatestReading(readings, sensors[i].sensorId));
    assert SensorsWithData(sensors, readings)[i] == Obj(joined);
    assert Get(joined, key) == Get(e, key);
    assert Get(joined, "sensor_id") == Get(e, "sensor_id");
    assert e[1] == ("sensor_id", Str(sensors[i].sensorId));
  }

  /**
   * A sensor's `latest_reading` is null exactly when no reading carries its
   * id, and otherwise the first reading that does.
   */
  lemma JoinLatestReading(sensors: seq<SensorRow>, readings: seq<Entries>, i: nat)
    requires i < |sensors|
    ensures var latest := Prop(SensorsWithData(sensors, readings)[i], "latest_reading");
      && (latest == Null <==> forall j :: 0 <= j < |readings| ==> !ReadingOf(readings[j], sensors[i].sensorId))
      && (latest != Null ==>
            exists k :: 0 <= k < |readings| && latest == Obj(readings[k])
              && ReadingOf(readings[k], sensors[i].sensorId)
              && forall j :: 0 <= j < k ==> !ReadingOf(readings[j], sensors[i].sensorId))
  {
    var k := FirstReading(readings, sensors[i].sensorId);
    assert Prop(SensorsWithData(sensors, readings)[i], "latest_reading") == LatestReading(readings, sensors[i].sensorId);
    if k < |readings| {
      assert !(forall j :: 0 <= j < |readings| ==> !ReadingOf(readings[j], sensors[i].sensorId));
    }
  }

  /** The locals `renderDashboard` passes to the `dashboard` view. */
  datatype Page = Page(title: string, sensors: seq<Value>, alerts: seq<Value>, timestamp: string)

  /** What `renderDashboard` answers: the rendered view, or a status with plain text. */
  datatype Rendered = View(template: string, page: Page) | Text(status: nat, text: string)

  const LoadError: Rendered := Text(500, "Error loading dashboard")

  /**
   * `renderDashboard`: the dashboard view over the joined sensors and the
   * recent alerts, or 500 when any query throws. `now` is the ISO time the
   * page is stamped with.
   */
  function RenderDashboard(sensors: Result<seq<SensorRow>, DbError>, readings: Result<seq<Entries>, DbError>,
                           alerts: Result<seq<Value>, DbError>, now: string): (out: Rendered)
    ensures out == LoadError <==> sensors.Err? || readings.Err? || alerts.Err?
    ensures out.View? ==>
      && out.template == "dashboard"
      && out.page.title == "Temperature Monitoring Dashboard"
      && out.page.sensors == SensorsWithData(sensors.value, readings.value)
      && out.page.alerts == alerts.value
      && out.page.timestamp == now
  {
    if sensors.Err? || readings.Err? || alerts.Err? then LoadError
    else View("dashboard", Page("Temperature Monitoring Dashboard",
                                SensorsWithData(sensors.value, readings.value), alerts.value, now))
  }

  /** `sensors.filter(s => s.active)`: the sensors whose `active` is truthy, in order. */
  function ActiveSensors(sensors: seq<SensorRow>): (act: seq<SensorRow>)
    ensures |act| <= |sensors|
    ensures forall i :: 0 <= i < |act| ==> Truthy(act[i].active) && act[i] in sensors
    ensures forall i :: 0 <= i < |sensors| && Truthy(sensors[i].active) ==> sensors[i] in act
  {
    if sensors == [] then []
    else
      var rest := ActiveSensors(sensors[1..]);
      assert sensors == [sensors[0]] + sensors[1..];
      if Truthy(sensors[0].active) then [sensors[0]] + rest else rest
  }

  /**
   * The filter distributes over concatenation: what it keeps of `a + b` is
   * what it keeps of `a` followed by what it keeps of `b`, so each active
   * sensor is kept once, in its place.
   */
  lemma {:induction false} ActiveSensorsAppend(a: seq<SensorRow>, b: seq<SensorRow>)
    ensures ActiveSensors(a + b) == ActiveSensors(a) + ActiveSensors(b)
  {
    if a == [] {
      assert a + b == b;
    } else {
      assert (a + b)[0] == a[0];
      assert (a + b)[1..] == a[1..] + b;
      ActiveSensorsAppend(a[1..], b);
    }
  }

  /**
   * The active count is exact: every sensor with a truthy `active` occurs
   * in the result as often as in the input, and every other sensor never.
   */
  lemma {:induction false} ActiveSensorsMultiplicity(sensors: seq<SensorRow>)
    ensures forall x :: multiset(ActiveSensors(sensors))[x] == if Truthy(x.active) then multiset(sensors)[x] else 0
  {
    if sensors != [] {
      ActiveSensorsMultiplicity(sensors[1..]);
      assert sensors == [sensors[0]] + sensors[1..];
      assert multiset(sensors) == multiset{sensors[0]} + multiset(sensors[1..]);
      if Truthy(sensors[0].active) {
        assert ActiveSensors(sensors) == [sensors[0]] + ActiveSensors(sensors[1..]);
        assert multiset(ActiveSensors(sensors)) == multiset{sensors[0]} + multiset(ActiveSensors(sensors[1..]));
      }
    }
  }

  /** Every sensor is counted as active exactly when every sensor's `active` is truthy. */
  lemma {:induction false} AllActive(sensors: seq<SensorRow>)
    ensures |ActiveSensors(sensors)| == |sensors| <==> forall i :: 0 <= i < |sensors| ==> Truthy(sensors[i].active)
  {
    if sensors != [] {
      AllActive(sensors[1..]);
      if !Truthy(sensors[0].active) {
        assert |ActiveSensors(sensors)| < |sensors|;
      } else {
        forall i | 1 <= i < |sensors| && !Truthy(sensors[i].active)
          ensures |ActiveSensors(sensors)| < |sensors|
        {
          assert !Truthy(sensors[1..][i - 1].active);
        }
      }
    }
  }

  /** The `data` object of the stats answer. */
  function StatsData(total: nat, active: nat, alerts: nat, withData: nat): Value {
    Obj([("total_sensors", Num(Finite(total as real))), ("active_sensors", Num(Finite(active as real))),
         ("recent_alerts", Num(Finite(alerts as real))), ("sensors_with_data", Num(Finite(withData as real)))])
  }

  /** The four keys of the stats `data` object and their counts. */
  lemma StatsDataKeys(total: nat, active: nat, alerts: nat, withData: nat)
    ensures var e := StatsData(total, active, alerts, withData).entries;
      && Get(e, "total_sensors") == Num(Finite(total as real))
      && Get(e, "active_sensors") == Num(Finite(active as real))
      && Get(e, "recent_alerts") == Num(Finite(alerts as real))
      && Get(e, "sensors_with_data") == Num(Finite(withData as real))
  {
    var e := StatsData(total, active, alerts, withData).entries;
    assert Get(e[3..], "sensors_with_data") == e[3].1;
    assert Get(e[2..], "recent_alerts") == e[2].1;
    assert Get(e[2..], "sensors_with_data") == Get(e[3..], "sensors_with_data");
    assert Get(e[1..], "active_sensors") == e[1].1;
    assert Get(e[1..], "recent_alerts") == Get(e[2..], "recent_alerts");
    assert Get(e[1..], "sensors_with_data") == Get(e[2..], "sensors_with_data");
  }

  /** The stats answer reports `n` under `key`. */
  predicate Stat(res: Response, key: string, n: nat) {
    && res.body.Obj?
    && Get(res.body.entries, "success") == Bool(true)
    && Get(res.body.entries, "data").Obj?
    && Get(Get(res.body.entries, "data").entries, key) == Num(Finite(n as real))
  }

  /**
   * `getStats`: the four counts, or 500 when any query throws. The active
   * count is that of the truthy `active` flags, so it never exceeds the
   * total.
   */
  function GetStats(sensors: Result<seq<SensorRow>, DbError>, alerts: Result<seq<Value>, DbError>,
                    readings: Result<seq<Entries>, DbError>): (res: Response)
    ensures res == ServerError <==> sensors.Err? || alerts.Err? || readings.Err?
    ensures res != ServerError ==>
      && res.status == 200
      && Stat(res, "total_sensors", |sensors.value|)
      && Stat(res, "active_sensors", |ActiveSensors(sensors.value)|)
      && |ActiveSensors(sensors.value)| <= |sensors.value|
      && Stat(res, "recent_alerts", |alerts.value|)
      && Stat(res, "sensors_with_data", |readings.value|)
  {
    if sensors.Err? || alerts.Err? || readings.Err? then ServerError
    else
      var data := StatsData(|sensors.value|, |ActiveSensors(sensors.value)|, |alerts.value|, |readings.value|);
      StatsDataKeys(|sensors.value|, |ActiveSensors(sensors.value)|, |alerts.value|, |readings.value|);
      Response(200, Obj([("success", Bool(true)), ("data", data)]))
  }
}
