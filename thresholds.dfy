/**
 * The threshold evaluator of the notification service: given a sensor's
 * configured bounds and one reading, the alerts the reading raises.
 * Temperature and humidity are checked independently against exclusive
 * bounds: below the minimum raises a LOW alert, otherwise above the maximum
 * raises a HIGH alert; the temperature alert comes before the humidity alert.
 */
module Thresholds {

  /** A row of the `sensors` table as the notification service reads it. */
  datatype SensorConfig = SensorConfig(
    sensorId: string,
    name: string,
    minTemperature: real,
    maxTemperature: real,
    minHumidity: real,
    maxHumidity: real)

  /** A reading as decoded from a queue message. */
  datatype Reading = Reading(sensorId: string, temperature: real, humidity: real, timestamp: string)

  /** The `alert_type` column. */
  datatype AlertKind = LowTemperature | HighTemperature | LowHumidity | HighHumidity

  /** The bound a reading violated (the `threshold_exceeded` column names it and its value). */
  datatype Threshold =
    | MinTemperature(bound: real)
    | MaxTemperature(bound: real)
    | MinHumidity(bound: real)
    | MaxHumidity(bound: real)

  /** A row of the `alerts` table. */
  datatype AlertEvent = AlertEvent(
    sensorId: string,
    kind: AlertKind,
    temperature: real,
    humidity: real,
    threshold: Threshold)

  /** The text stored in `alert_type`. */
  function AlertTypeName(k: AlertKind): string {
    match k
    case LowTemperature => "LOW_TEMPERATURE"
    case HighTemperature => "HIGH_TEMPERATURE"
    case LowHumidity => "LOW_HUMIDITY"
    case HighHumidity => "HIGH_HUMIDITY"
  }

  /** The column named at the head of `threshold_exceeded`. */
  function ThresholdColumn(t: Threshold): string {
    match t
    case MinTemperature(_) => "min_temperature"
    case MaxTemperature(_) => "max_temperature"
    case MinHumidity(_) => "min_humidity"
    case MaxHumidity(_) => "max_humidity"
  }

  predicate IsTemperatureAlert(e: AlertEvent) {
    e.kind == LowTemperature || e.kind == HighTemperature
  }

  /** The bound an alert of kind `k` names, taken from the sensor's configuration. */
  function ViolatedBound(c: SensorConfig, k: AlertKind): Threshold {
    match k
    case LowTemperature => MinTemperature(c.minTemperature)
    case HighTemperature => MaxTemperature(c.maxTemperature)
    case LowHumidity => MinHumidity(c.minHumidity)
    case HighHumidity => MaxHumidity(c.maxHumidity)
  }

  /** The alert of kind `k` for reading `r` of sensor `c`. */
  function MakeAlert(c: SensorConfig, r: Reading, k: AlertKind): AlertEvent {
    AlertEvent(c.sensorId, k, r.temperature, r.humidity, ViolatedBound(c, k))
  }

  /** True iff the alerts contain one of kind `k`. */
  predicate Raises(alerts: seq<AlertEvent>, k: AlertKind) {
    exists i :: 0 <= i < |alerts| && alerts[i].kind == k
  }

  /** The temperature check: at most one alert. */
  function TemperatureAlerts(c: SensorConfig, r: Reading): seq<AlertEvent> {
    if r.temperature < c.minTemperature then [MakeAlert(c, r, LowTemperature)]
    else if r.temperature > c.maxTemperature then [MakeAlert(c, r, HighTemperature)]
    else []
  }

  /** The humidity check: at most one alert. */
  function HumidityAlerts(c: SensorConfig, r: Reading): seq<AlertEvent> {
    if r.humidity < c.minHumidity then [MakeAlert(c, r, LowHumidity)]
    else if r.humidity > c.maxHumidity then [MakeAlert(c, r, HighHumidity)]
    else []
  }

  /** The alerts a reading raises, in the order they are saved. */
  function Evaluate(c: SensorConfig, r: Reading): seq<AlertEvent> {
    TemperatureAlerts(c, r) + HumidityAlerts(c, r)
  }

  /**
   * Each metric gives at most one alert, LOW exactly when the value is below
   * the minimum and HIGH exactly when it is not below the minimum but above
   * the maximum; the temperature alert comes first; each alert carries the
   * sensor's id, the reading's two values and the bound it violated.
   */
  lemma EvaluateSpec(c: SensorConfig, r: Reading)
    ensures var alerts := Evaluate(c, r);
      && |alerts| <= 2
      && (Raises(alerts, LowTemperature) <==> r.temperature < c.minTemperature)
      && (Raises(alerts, HighTemperature) <==> !(r.temperature < c.minTemperature) && r.temperature > c.maxTemperature)
      && (Raises(alerts, LowHumidity) <==> r.humidity < c.minHumidity)
      && (Raises(alerts, HighHumidity) <==> !(r.humidity < c.minHumidity) && r.humidity > c.maxHumidity)
      && (alerts == [] <==>
           c.minTemperature <= r.temperature <= c.maxTemperature && c.minHumidity <= r.humidity <= c.maxHumidity)
      && (forall i :: 0 <= i < |alerts| ==>
           alerts[i] == AlertEvent(c.sensorId, alerts[i].kind, r.temperature, r.humidity, ViolatedBound(c, alerts[i].kind)))
      && (forall i, j :: 0 <= i < j < |alerts| ==> IsTemperatureAlert(alerts[i]) && !IsTemperatureAlert(alerts[j]))
  {
    var ta, ha := TemperatureAlerts(c, r), HumidityAlerts(c, r);
    var alerts := ta + ha;
    assert ta != [] ==> alerts[0] == ta[0];
    assert ha != [] ==> alerts[|alerts| - 1] == ha[0];
  }

  /**
   * A value exactly on a bound raises nothing for that bound, because the
   * comparisons are strict; and a metric whose bounds are ordered raises
   * nothing for a value on either of them, whatever the other metric does.
   */
  lemma BoundaryValuesRaiseNothing(c: SensorConfig, r: Reading)
    ensures r.temperature == c.minTemperature ==> !Raises(Evaluate(c, r), LowTemperature)
    ensures r.temperature == c.maxTemperature ==> !Raises(Evaluate(c, r), HighTemperature)
    ensures r.humidity == c.minHumidity ==> !Raises(Evaluate(c, r), LowHumidity)
    ensures r.humidity == c.maxHumidity ==> !Raises(Evaluate(c, r), HighHumidity)
    ensures c.minTemperature <= c.maxTemperature && (r.temperature == c.minTemperature || r.temperature == c.maxTemperature)
      ==> !Raises(Evaluate(c, r), LowTemperature) && !Raises(Evaluate(c, r), HighTemperature)
    ensures c.minHumidity <= c.maxHumidity && (r.humidity == c.minHumidity || r.humidity == c.maxHumidity)
      ==> !Raises(Evaluate(c, r), LowHumidity) && !Raises(Evaluate(c, r), HighHumidity)
  {
    EvaluateSpec(c, r);
  }
}
