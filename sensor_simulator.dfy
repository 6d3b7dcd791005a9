/**
 * The sensor service's simulator: a cache of active sensors refreshed from
 * the API, a reading generator, and the loop that publishes one reading per
 * cached sensor. `Math.random()` draws, the clock and the outcome of each
 * HTTP fetch and each publish are inputs. Values are exact: the
 * `toFixed(2)` rounding is not modelled.
 */
module SensorSimulator {
  import opened Wrappers
  import opened JsValues
  import opened JsNumbers
  import opened Amqp
  import opened SensorBroker
  import opened Flattening

  /** The API base URL when the environment does not override it. */
  const DefaultApiUrl: string := "http://localhost:3000"

  /** The reading interval's text when the environment does not override it. */
  const DefaultIntervalText: string := "5000"

  /** How far an exceeded value may go past its bound. */
  const TemperatureMargin: real := 5.0
  const HumidityMargin: real := 10.0

  /** The four numeric configuration fields the fetch converts with `Number`. */
  predicate IsNumericField(k: string) {
    k == "min_temperature" || k == "max_temperature" || k == "min_humidity" || k == "max_humidity"
  }

  // ------------------------------------------------------------ the cache

  /** What the `axios.get` of `/api/sensors` gave: a response body, or a rejection. */
  datatype FetchOutcome = Threw | Response(body: Value)

  /** A cached sensor: the API row spread into a new object with the four numeric fields converted. */
  function CacheEntry(row: Entries): Entries {
    var e1 := SetProp(row, "min_temperature", Num(ToNumberValue(Get(row, "min_temperature"))));
    var e2 := SetProp(e1, "max_temperature", Num(ToNumberValue(Get(row, "max_temperature"))));
    var e3 := SetProp(e2, "min_humidity", Num(ToNumberValue(Get(row, "min_humidity"))));
    SetProp(e3, "max_humidity", Num(ToNumberValue(Get(row, "max_humidity"))))
  }

  /**
   * The spread keeps every field of the row except the four numeric ones,
   * which hold `Number(...)` of the row's value.
   */
  lemma CacheEntryFields(row: Entries, k: string)
    ensures IsNumericField(k) ==> Get(CacheEntry(row), k) == Num(ToNumberValue(Get(row, k)))
    ensures !IsNumericField(k) ==> Get(CacheEntry(row), k) == Get(row, k)
  {
    NumericFieldsDistinct();
    var e1 := SetProp(row, "min_temperature", Num(ToNumberValue(Get(row, "min_temperature"))));
    var e2 := SetProp(e1, "max_temperature", Num(ToNumberValue(Get(row, "max_temperature"))));
    var e3 := SetProp(e2, "min_humidity", Num(ToNumberValue(Get(row, "min_humidity"))));
    var e4 := SetProp(e3, "max_humidity", Num(ToNumberValue(Get(row, "max_humidity"))));
    assert CacheEntry(row) == e4;
    if k == "max_humidity" {
    } else if k == "min_humidity" {
      assert Get(e4, k) == Get(e3, k);
    } else if k == "max_temperature" {
      assert Get(e4, k) == Get(e3, k) == Get(e2, k);
    } else if k == "min_temperature" {
      assert Get(e4, k) == Get(e3, k) == Get(e2, k) == Get(e1, k);
    } else {
      assert Get(e4, k) == Get(e3, k) == Get(e2, k) == Get(e1, k) == Get(row, k);
    }
  }

  /** The spread keeps the row's sensor id. */
  lemma CacheEntrySensorId(row: Entries)
    ensures Get(CacheEntry(row), "sensor_id") == Get(row, "sensor_id")
  {
    assert !IsNumericField("sensor_id") by {
      assert "sensor_id"[0] != "min_temperature"[0] && "sensor_id"[0] != "max_temperature"[0];
      assert "sensor_id"[0] != "min_humidity"[0] && "sensor_id"[0] != "max_humidity"[0];
    }
    CacheEntryFields(row, "sensor_id");
  }

  /** The four numeric field names are distinct. */
  lemma NumericFieldsDistinct()
    ensures "min_temperature" != "max_temperature" && "min_temperature" != "min_humidity" && "min_temperature" != "max_humidity"
    ensures "max_temperature" != "min_humidity" && "max_temperature" != "max_humidity" && "min_humidity" != "max_humidity"
  {
    assert "min_temperature"[1] != "max_temperature"[1];
    assert "min_temperature"[4] != "min_humidity"[4];
    assert "min_temperature"[1] != "max_humidity"[1];
    assert "max_temperature"[1] != "min_humidity"[1];
    assert "max_temperature"[4] != "max_humidity"[4];
    assert "min_humidity"[1] != "max_humidity"[1];
  }

  /** `s.active` is truthy; only objects have an `active` property. */
  predicate IsActive(s: Value) {
    Truthy(Prop(s, "active"))
  }

  /** `data.filter(s => s.active)` */
  function ActiveItems(items: seq<Value>): seq<Value> {
    if items == [] then []
    else
      var rest := ActiveItems(items[..|items| - 1]);
      var last := items[|items| - 1];
      if IsActive(last) then rest + [last] else rest
  }

  /** The spread of one kept item; only objects are kept, so the other case does not arise. */
  function CacheEntryOf(v: Value): Entries {
    if v.Obj? then CacheEntry(v.entries) else []
  }

  /** `.map(s => ({ ...s, ... }))` over the kept items. */
  function Converted(rows: seq<Value>): (r: seq<Entries>)
    ensures |r| == |rows|
    ensures forall i :: 0 <= i < |rows| ==> r[i] == CacheEntryOf(rows[i])
  {
    seq(|rows|, i requires 0 <= i < |rows| => CacheEntryOf(rows[i]))
  }

  /** The new cache a successful fetch computes from the `data` array. */
  function ActiveSensors(items: seq<Value>): seq<Entries> {
    Converted(ActiveItems(items))
  }

  /** Reading `.active` of a null or undefined item throws inside `filter`. */
  predicate HasNullish(items: seq<Value>) {
    exists i :: 0 <= i < |items| && (items[i].Null? || items[i].Undefined?)
  }

  /**
   * `fetchActiveSensors`: the cache after one fetch. A rejection, a falsy
   * `success`, a `data` that is not an array and a null or undefined item are
   * all caught or skipped and leave the cache as it was.
   */
  function Refreshed(cache: seq<Entries>, outcome: FetchOutcome): seq<Entries> {
    if outcome.Threw? || !Truthy(Prop(outcome.body, "success")) then cache
    else
      var data := Prop(outcome.body, "data");
      if !data.Arr? || HasNullish(data.items) then cache
      else ActiveSensors(data.items)
  }

  /** The filter keeps only active items, each of them an object, and never more than it got. */
  lemma {:induction false} ActiveItemsAreActive(items: seq<Value>)
    ensures |ActiveItems(items)| <= |items|
    ensures forall i :: 0 <= i < |ActiveItems(items)| ==> IsActive(ActiveItems(items)[i]) && ActiveItems(items)[i].Obj?
    decreases |items|
  {
    if items != [] {
      ActiveItemsAreActive(items[..|items| - 1]);
    }
  }

  /** The filter keeps every item when all are active, in the same order. */
  lemma {:induction false} ActiveItemsOfActiveItems(items: seq<Value>)
    requires forall i :: 0 <= i < |items| ==> IsActive(items[i])
    ensures ActiveItems(items) == items
    decreases |items|
  {
    if items != [] {
      var init := items[..|items| - 1];
      assert forall j :: 0 <= j < |init| ==> init[j] == items[j];
      ActiveItemsOfActiveItems(init);
      assert init + [items[|items| - 1]] == items;
    }
  }

  /**
   * The filter distributes over concatenation: what it keeps of `a + b` is
   * what it keeps of `a` followed by what it keeps of `b`, so kept items stay
   * in response order.
   */
  lemma {:induction false} ActiveItemsAppend(a: seq<Value>, b: seq<Value>)
    ensures ActiveItems(a + b) == ActiveItems(a) + ActiveItems(b)
    decreases |b|
  {
    if b == [] {
      assert a + b == a;
    } else {
      var init := b[..|b| - 1];
      assert (a + b)[..|a + b| - 1] == a + init;
      assert (a + b)[|a + b| - 1] == b[|b| - 1];
      ActiveItemsAppend(a, init);
    }
  }

  /** Every active item of the response, wherever it sits, is kept. */
  lemma ActiveItemsKeepsEveryActive(items: seq<Value>, i: nat)
    requires i < |items| && IsActive(items[i])
    ensures items[i] in ActiveItems(items)
  {
    var pre := items[..i + 1];
    assert items == pre + items[i + 1..];
    ActiveItemsAppend(pre, items[i + 1..]);
    assert pre[..|pre| - 1] == items[..i];
    assert ActiveItems(pre) == ActiveItems(items[..i]) + [items[i]];
  }

  /** Inactive items never reach the cache. */
  lemma {:induction false} InactiveFilteredOut(items: seq<Value>)
    requires forall i :: 0 <= i < |items| ==> !IsActive(items[i])
    ensures ActiveSensors(items) == []
    decreases |items|
  {
    if items != [] {
      var init := items[..|items| - 1];
      assert forall j :: 0 <= j < |init| ==> init[j] == items[j];
      InactiveFilteredOut(init);
    }
  }

  /** Every cached sensor holds numbers in its four numeric fields. */
  lemma CachedFieldsAreNumbers(items: seq<Value>, i: nat, k: string)
    requires i < |ActiveSensors(items)| && IsNumericField(k)
    ensures Get(ActiveSensors(items)[i], k).Num?
  {
    ActiveItemsAreActive(items);
    CacheEntryFields(ActiveItems(items)[i].entries, k);
  }

  /**
   * The cache keeps the active items in response order: when every item is
   * active, entry `i` is item `i` spread, so it holds every field of that item
   * other than the four converted ones (its `sensor_id` among them).
   */
  lemma CachedKeepsFields(items: seq<Value>, i: nat, k: string)
    requires forall j :: 0 <= j < |items| ==> IsActive(items[j])
    requires i < |items| && !IsNumericField(k)
    ensures |ActiveSensors(items)| == |items|
    ensures Get(ActiveSensors(items)[i], k) == Prop(items[i], k)
  {
    ActiveItemsOfActiveItems(items);
    var v := items[i];
    assert IsActive(v);
    assert v.Obj?;
    assert ActiveSensors(items)[i] == CacheEntryOf(v) == CacheEntry(v.entries);
    CacheEntryFields(v.entries, k);
  }

  // ------------------------------------------------------------ generating a reading

  /** The `Math.random()` draws one metric consumes, in call order. */
  datatype MetricDraws = MetricDraws(exceed: real, side: real, amount: real, spread: real)

  /** The draws for one reading, temperature first. */
  datatype Draws = Draws(temperature: MetricDraws, humidity: MetricDraws)

  /** Every draw lies in [0, 1), as `Math.random()` promises. */
  predicate ValidMetricDraws(d: MetricDraws) {
    0.0 <= d.exceed < 1.0 && 0.0 <= d.side < 1.0 && 0.0 <= d.amount < 1.0 && 0.0 <= d.spread < 1.0
  }

  /** `x / 2` on JavaScript numbers. */
  function Half(x: Number): Number {
    if x.Finite? then Finite(x.value / 2.0) else x
  }

  /**
   * One metric's value: with a 10% draw, past the lower or the upper bound by
   * up to `margin`; otherwise the centre of the range plus up to 15% of the
   * range either way.
   */
  function MetricValue(min: Number, max: Number, d: MetricDraws, margin: real): Number {
    if d.exceed < 0.1 then
      if d.side < 0.5 then Sub(min, Finite(d.amount * margin)) else Add(max, Finite(d.amount * margin))
    else
      var range := Sub(max, min);
      var variation := Mul(range, Finite(0.3));
      var center := Half(Add(min, max));
      Add(center, Mul(Finite(d.spread - 0.5), variation))
  }

  /** A cached numeric field; every cached sensor holds a number there (`CachedFieldsAreNumbers`). */
  function NumberAt(sensor: Entries, key: string): Number {
    match Get(sensor, key)
    case Num(n) => n
    case _ => NaN
  }

  /** The object `generateReading` returns. */
  datatype SimReading = SimReading(sensorId: Value, temperature: Number, humidity: Number, timestamp: string)

  /** The reading as the JSON object that is published. */
  function ReadingJson(r: SimReading): Value {
    Obj([("sensor_id", r.sensorId), ("temperature", Num(r.temperature)), ("humidity", Num(r.humidity)), ("timestamp", Str(r.timestamp))])
  }

  /** `generateReading` throws this for a NaN temperature bound. */
  datatype GenerateError = InvalidNumericConfiguration(sensorId: Value)

  /**
   * `generateReading`: NaN temperature bounds throw; the humidity bounds are
   * not checked. The reading is a JSON object with the sensor's id, the two
   * values and the time.
   */
  function GenerateReading(sensor: Entries, d: Draws, isoTime: string): Result<SimReading, GenerateError> {
    var minT := NumberAt(sensor, "min_temperature");
    var maxT := NumberAt(sensor, "max_temperature");
    if minT.NaN? || maxT.NaN? then Err(InvalidNumericConfiguration(Get(sensor, "sensor_id")))
    else
      var t := MetricValue(minT, maxT, d.temperature, TemperatureMargin);
      var h := MetricValue(NumberAt(sensor, "min_humidity"), NumberAt(sensor, "max_humidity"), d.humidity, HumidityMargin);
      Ok(SimReading(Get(sensor, "sensor_id"), t, h, isoTime))
  }

  /** `-0.5 <= a < 0.5` scales `r >= 0` into `[-r/2, r/2]`. */
  lemma ScaledOffset(a: real, r: real)
    requires -0.5 <= a < 0.5 && r >= 0.0
    ensures -0.5 * r <= a * r <= 0.5 * r
  {
    assert (a + 0.5) * r >= 0.0;
    assert (0.5 - a) * r >= 0.0;
  }

  /**
   * The normal-path value of a metric with finite bounds: the centre of the
   * range moved by the draw's offset from 0.5 times 30% of the range.
   */
  function NormalPoint(min: real, max: real, spread: real): real {
    (min + max) / 2.0 + (spread - 0.5) * ((max - min) * 0.3)
  }

  /**
   * With `min <= max`, the normal-path value lies within 15% of the range of
   * the centre, and so within the bounds.
   */
  lemma NormalValueInBand(min: real, max: real, d: MetricDraws)
    requires ValidMetricDraws(d) && min <= max
    ensures (min + max) / 2.0 - 0.15 * (max - min) <= NormalPoint(min, max, d.spread) <= (min + max) / 2.0 + 0.15 * (max - min)
    ensures min <= NormalPoint(min, max, d.spread) <= max
  {
    var r := (max - min) * 0.3;
    var a := d.spread - 0.5;
    ScaledOffset(a, r);
    assert 0.5 * r == 0.15 * (max - min);
    assert -0.15 * (max - min) <= a * r <= 0.15 * (max - min);
    assert NormalPoint(min, max, d.spread) == (min + max) / 2.0 + a * r;
  }

  /** On the normal path with finite bounds, `MetricValue` computes `NormalPoint`. */
  lemma NormalValue(min: real, max: real, d: MetricDraws, margin: real)
    requires d.exceed >= 0.1
    ensures MetricValue(Finite(min), Finite(max), d, margin) == Finite(NormalPoint(min, max, d.spread))
  {
    var r := (max - min) * 0.3;
    assert Sub(Finite(max), Finite(min)) == Finite(max - min);
    assert Mul(Finite(max - min), Finite(0.3)) == Finite(r);
    assert Half(Add(Finite(min), Finite(max))) == Finite((min + max) / 2.0);
    assert Mul(Finite(d.spread - 0.5), Finite(r)) == Finite((d.spread - 0.5) * r);
  }

  /** On the exceed path the value lies in `(min - margin, min]` or in `[max, max + margin)`. */
  lemma ExceedValueNearBound(min: real, max: real, d: MetricDraws, margin: real)
    requires ValidMetricDraws(d) && d.exceed < 0.1 && margin > 0.0
    ensures var v := MetricValue(Finite(min), Finite(max), d, margin);
      && v.Finite?
      && (d.side < 0.5 ==> min - margin < v.value <= min)
      && (d.side >= 0.5 ==> max <= v.value < max + margin)
  {
    var k := d.amount * margin;
    ScaledBelowMargin(d.amount, margin, k);
    if d.side < 0.5 {
      assert Negate(Finite(k)) == Finite(-k);
      assert MetricValue(Finite(min), Finite(max), d, margin) == Finite(min - k);
    } else {
      assert MetricValue(Finite(min), Finite(max), d, margin) == Finite(max + k);
    }
  }

  /** A draw in `[0, 1)` scales a positive margin into `[0, margin)`. */
  lemma ScaledBelowMargin(a: real, margin: real, k: real)
    requires 0.0 <= a < 1.0 && margin > 0.0 && k == a * margin
    ensures 0.0 <= k < margin
  {
    assert margin - k == (1.0 - a) * margin;
  }

  /** A NaN temperature bound makes the generator throw. */
  lemma NaNTemperatureBoundThrows(sensor: Entries, d: Draws, isoTime: string)
    requires NumberAt(sensor, "min_temperature").NaN? || NumberAt(sensor, "max_temperature").NaN?
    ensures GenerateReading(sensor, d, isoTime) == Err(InvalidNumericConfiguration(Get(sensor, "sensor_id")))
  {
  }

  /**
   * The humidity bounds are not checked: with sane temperature bounds the
   * generator succeeds, and NaN humidity bounds give a NaN humidity.
   */
  lemma NaNHumidityBoundsNotChecked(sensor: Entries, d: Draws, isoTime: string)
    requires !NumberAt(sensor, "min_temperature").NaN? && !NumberAt(sensor, "max_temperature").NaN?
    requires NumberAt(sensor, "min_humidity").NaN? && NumberAt(sensor, "max_humidity").NaN?
    ensures var r := GenerateReading(sensor, d, isoTime);
      r.Ok? && r.value.humidity == NaN
  {
  }

  /** A generated reading carries the sensor's own id. */
  lemma ReadingCarriesSensorId(sensor: Entries, d: Draws, isoTime: string)
    requires GenerateReading(sensor, d, isoTime).Ok?
    ensures GenerateReading(sensor, d, isoTime).value.sensorId == Get(sensor, "sensor_id")
    ensures Prop(ReadingJson(GenerateReading(sensor, d, isoTime).value), "sensor_id") == Get(sensor, "sensor_id")
  {
  }

  // ------------------------------------------------------------ the publishing loop

  /** What the environment supplies for one sensor's turn of the loop. */
  datatype Tick = Tick(draws: Draws, isoTime: string, epochMs: int, sendFails: bool)

  /** One turn: generate, then publish; a generation error is caught and publishes nothing. */
  function Turn(sensor: Entries, t: Tick, channel: Option<Channel>, queue: string): seq<Publication> {
    Emit(GenerateReading(sensor, t.draws, t.isoTime), t, channel, queue)
  }

  /** The publishing half of a turn, given what the generator returned. */
  function Emit(reading: Result<SimReading, GenerateError>, t: Tick, channel: Option<Channel>, queue: string): seq<Publication> {
    if reading.Ok? then Send(channel, queue, ReadingJson(reading.value), t.sendFails, t.epochMs) else []
  }

  /** The turns of `simulateReadings`: one per cached sensor, in cache order. */
  function Turns(sensors: seq<Entries>, ticks: seq<Tick>, channel: Option<Channel>, queue: string): (ts: seq<seq<Publication>>)
    requires |ticks| == |sensors|
    ensures |ts| == |sensors|
    ensures forall i :: 0 <= i < |sensors| ==> ts[i] == Turn(sensors[i], ticks[i], channel, queue)
  {
    seq(|sensors|, i requires 0 <= i < |sensors| => Turn(sensors[i], ticks[i], channel, queue))
  }


  /** Everything `simulateReadings` publishes. */
  function Publications(sensors: seq<Entries>, ticks: seq<Tick>, channel: Option<Channel>, queue: string): seq<Publication>
    requires |ticks| == |sensors|
  {
    Flatten(Turns(sensors, ticks, channel, queue))
  }

  /** A turn with sane temperature bounds and a working send publishes that sensor's reading. */
  lemma TurnPublishes(sensor: Entries, t: Tick, ch: Channel, queue: string)
    requires ch.open && !t.sendFails
    requires !NumberAt(sensor, "min_temperature").NaN? && !NumberAt(sensor, "max_temperature").NaN?
    ensures var p := Turn(sensor, t, Some(ch), queue);
      |p| == 1 && p[0].queue == queue && Prop(p[0].message, "sensor_id") == Get(sensor, "sensor_id")
  {
  }





  /**
   * With a usable channel, no send failing and sane temperature bounds, every
   * cached sensor gets exactly one reading published, in cache order, each
   * carrying that sensor's id.
   */
  lemma EverySensorPublished(sensors: seq<Entries>, ticks: seq<Tick>, ch: Channel, queue: string)
    requires |ticks| == |sensors| && ch.open
    requires forall i :: 0 <= i < |sensors| ==> !ticks[i].sendFails
    requires forall i :: 0 <= i < |sensors| ==>
      !NumberAt(sensors[i], "min_temperature").NaN? && !NumberAt(sensors[i], "max_temperature").NaN?
    ensures var p := Publications(sensors, ticks, Some(ch), queue);
      && |p| == |sensors|
      && forall i :: 0 <= i < |sensors| ==>
           p[i].queue == queue && Prop(p[i].message, "sensor_id") == Get(sensors[i], "sensor_id")
  {
    var ts: seq<seq<Publication>> := Turns(sensors, ticks, Some(ch), queue);
    forall i | 0 <= i < |sensors|
      ensures |ts[i]| == 1 && ts[i][0].queue == queue && Prop(ts[i][0].message, "sensor_id") == Get(sensors[i], "sensor_id")
    {
      TurnPublishes(sensors[i], ticks[i], ch, queue);
    }
    FlattenSingletons(ts);
  }

  /**
   * A sensor whose generator throws publishes nothing and does not stop the
   * loop: the publications are those of the sensors before it followed by
   * those of the sensors after it.
   */
  lemma FailingTurnSkipped(sensors: seq<Entries>, ticks: seq<Tick>, channel: Option<Channel>, queue: string, k: nat)
    requires |ticks| == |sensors| && k < |sensors|
    requires GenerateReading(sensors[k], ticks[k].draws, ticks[k].isoTime).Err?
    ensures Publications(sensors, ticks, channel, queue)
         == Publications(sensors[..k], ticks[..k], channel, queue)
          + Publications(sensors[k + 1..], ticks[k + 1..], channel, queue)
  {
    var ts := Turns(sensors, ticks, channel, queue);
    assert ts[k] == [];
    FlattenSkip(ts, k);
    PublicationsPrefix(sensors, ticks, channel, queue, k);
    PublicationsSuffix(sensors, ticks, channel, queue, k + 1);
  }


  /** One more turn of the loop appends what that turn emits. */
  lemma TurnStep(sensors: seq<Entries>, ticks: seq<Tick>, channel: Option<Channel>, queue: string, i: nat)
    requires |ticks| == |sensors| && i < |sensors|
    ensures Flatten(Turns(sensors, ticks, channel, queue)[..i + 1])
         == Flatten(Turns(sensors, ticks, channel, queue)[..i])
          + Emit(GenerateReading(sensors[i], ticks[i].draws, ticks[i].isoTime), ticks[i], channel, queue)
  {
    FlattenStep(Turns(sensors, ticks, channel, queue), i);
  }

  /** The publications of the first `k` cached sensors are those of the first `k` turns. */
  lemma PublicationsPrefix(sensors: seq<Entries>, ticks: seq<Tick>, channel: Option<Channel>, queue: string, k: nat)
    requires |ticks| == |sensors| && k <= |sensors|
    ensures Publications(sensors[..k], ticks[..k], channel, queue) == Flatten(Turns(sensors, ticks, channel, queue)[..k])
  {
    var ts := Turns(sensors, ticks, channel, queue);
    var us := Turns(sensors[..k], ticks[..k], channel, queue);
    forall j | 0 <= j < k
      ensures us[j] == ts[..k][j]
    {
      assert sensors[..k][j] == sensors[j] && ticks[..k][j] == ticks[j];
    }
    assert us == ts[..k];
  }

  /** The publications of the cached sensors from `k` on are those of the turns from `k` on. */
  lemma PublicationsSuffix(sensors: seq<Entries>, ticks: seq<Tick>, channel: Option<Channel>, queue: string, k: nat)
    requires |ticks| == |sensors| && k <= |sensors|
    ensures Publications(sensors[k..], ticks[k..], channel, queue) == Flatten(Turns(sensors, ticks, channel, queue)[k..])
  {
    var ts := Turns(sensors, ticks, channel, queue);
    var us := Turns(sensors[k..], ticks[k..], channel, queue);
    forall j | 0 <= j < |sensors| - k
      ensures us[j] == ts[k..][j]
    {
      assert sensors[k..][j] == sensors[k + j] && ticks[k..][j] == ticks[k + j];
    }
    assert us == ts[k..];
  }

  /** Without a channel the loop publishes nothing, whatever the cache holds. */
  lemma NothingPublishedWithoutChannel(sensors: seq<Entries>, ticks: seq<Tick>, queue: string)
    requires |ticks| == |sensors|
    ensures Publications(sensors, ticks, None, queue) == []
  {
    FlattenEmpty(Turns(sensors, ticks, None, queue));
  }

  // ------------------------------------------------------------ the simulator object

  /** `parseInt('5000')` is 5000. */
  lemma DefaultIntervalIs5000()
    ensures ParseInt(DefaultIntervalText) == Some(5000)
  {
    assert NatToString(5) == "5";
    assert NatToString(50) == NatToString(5) + "0" == "50";
    assert NatToString(500) == NatToString(50) + "0" == "500";
    assert NatToString(5000) == NatToString(500) + "0" == "5000";
    ParseIntOfNatToString(5000);
  }

  /** A `SensorSimulator` instance with its timers. */
  class Simulator {
    var sensors: seq<Entries>
    var intervalId: Option<nat>
    /** The reading intervals still running, by timer id. */
    var readingTimers: set<nat>
    /** How many 30-second fetch intervals are running. */
    var fetchTimers: nat
    var nextTimer: nat
    const apiUrl: string
    const intervalMs: Option<int>

    /** `new SensorSimulator()`: the two settings read from the environment. */
    constructor(apiEnv: Option<string>, intervalEnv: Option<string>)
      ensures sensors == [] && intervalId == None && readingTimers == {} && fetchTimers == 0
      ensures apiEnv.None? || apiEnv.value == "" ==> apiUrl == DefaultApiUrl
      ensures apiEnv.Some? && apiEnv.value != "" ==> apiUrl == apiEnv.value
      ensures intervalEnv.None? || intervalEnv.value == "" ==> intervalMs == Some(5000)
      ensures intervalEnv.Some? && intervalEnv.value != "" ==> intervalMs == ParseInt(intervalEnv.value)
    {
      sensors := [];
      intervalId := None;
      readingTimers := {};
      fetchTimers := 0;
      nextTimer := 0;
      apiUrl := if apiEnv.Some? && apiEnv.value != "" then apiEnv.value else DefaultApiUrl;
      var text := if intervalEnv.Some? && intervalEnv.value != "" then intervalEnv.value else DefaultIntervalText;
      DefaultIntervalIs5000();
      intervalMs := ParseInt(text);
    }

    /** `fetchActiveSensors` */
    method FetchActiveSensors(outcome: FetchOutcome)
      modifies this`sensors
      ensures sensors == Refreshed(old(sensors), outcome)
    {
      if outcome.Threw? {
        return;
      }
      if Truthy(Prop(outcome.body, "success")) {
        var data := Prop(outcome.body, "data");
        if data.Arr? && !HasNullish(data.items) {
          sensors := ActiveSensors(data.items);
        }
      }
    }

    /**
     * `simulateReadings`: one turn per cached sensor, in order, each publish
     * awaited before the next turn.
     */
    method SimulateReadings(broker: Broker, ticks: seq<Tick>)
      requires |ticks| == |sensors|
      modifies broker`published
      ensures broker.published == old(broker.published) + Publications(sensors, ticks, broker.channel, broker.queue)
    {
      if |sensors| == 0 {
        return;
      }
      ghost var turns := Turns(sensors, ticks, broker.channel, broker.queue);
      var i := 0;
      while i < |sensors|
        invariant 0 <= i <= |sensors|
        invariant broker.published == old(broker.published) + Flatten(turns[..i])
      {
        RunTurn(broker, sensors[i], ticks[i]);
        TurnStep(sensors, ticks, broker.channel, broker.queue, i);
        i := i + 1;
      }
      assert turns[..i] == turns;
    }

    /** One turn of the loop: generate the sensor's reading and, when there is one, publish it. */
    method RunTurn(broker: Broker, sensor: Entries, t: Tick)
      modifies broker`published
      ensures broker.published == old(broker.published) + Turn(sensor, t, broker.channel, broker.queue)
    {
      var reading := GenerateReading(sensor, t.draws, t.isoTime);
      if reading.Ok? {
        var _ := broker.PublishMessage(ReadingJson(reading.value), t.sendFails, t.epochMs);
      }
    }

    /**
     * `start`: an initial fetch, then a fetch interval (not kept) and the
     * reading interval, whose id is kept.
     */
    method Start(outcome: FetchOutcome)
      modifies this
      ensures sensors == Refreshed(old(sensors), outcome)
      ensures fetchTimers == old(fetchTimers) + 1
      ensures intervalId == Some(old(nextTimer)) && readingTimers == old(readingTimers) + {old(nextTimer)}
      ensures nextTimer > old(nextTimer)
    {
      FetchActiveSensors(outcome);
      fetchTimers := fetchTimers + 1;
      intervalId := Some(nextTimer);
      readingTimers := readingTimers + {nextTimer};
      nextTimer := nextTimer + 1;
    }

    /**
     * `stop`: clears the reading interval it holds and forgets it; a second
     * call finds nothing to clear. The fetch interval keeps running.
     */
    method Stop()
      modifies this`intervalId, this`readingTimers
      ensures intervalId == None
      ensures old(intervalId).Some? ==> readingTimers == old(readingTimers) - {old(intervalId).value}
      ensures old(intervalId).None? ==> readingTimers == old(readingTimers)
    {
      if intervalId.Some? {
        readingTimers := readingTimers - {intervalId.value};
        intervalId := None;
      }
    }
  }
}
