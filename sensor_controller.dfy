/**
 * `SensorController`: the seven sensor handlers, each a choice of status
 * code and body over the `sensors` table. Every handler catches whatever a
 * query throws and answers 500.
 *
 * Which query of a handler call throws is an input, `failAt` (0 for the
 * handler's first query, 1 for its second). The readings and alerts
 * queries of the two list handlers are inputs as functions of the sensor id
 * and the limit, since their SQL is not part of this model.
 */
module SensorController {
  import opened Wrappers
  import opened JsValues
  import opened JsNumbers
  import opened SensorModel

  /** What a handler answers: the status code and the JSON body. */
  datatype Response = Response(status: nat, body: Value)

  /** `{ success: false, error: message }` with `status`. */
  function Failure(status: nat, message: string): Response {
    Response(status, Obj([("success", Bool(false)), ("error", Str(message))]))
  }

  const MissingFields: Response := Failure(400, "Missing required fields")
  const AlreadyExists: Response := Failure(409, "Sensor with this ID already exists")
  const NotFound: Response := Failure(404, "Sensor not found")
  const ServerError: Response := Failure(500, "Internal server error")

  /** `{ success: true, data }` */
  function DataBody(data: Value): Value {
    Obj([("success", Bool(true)), ("data", data)])
  }

  /** `{ success: true, data: items, count: items.length }` */
  function ListBody(items: seq<Value>): Value {
    Obj([("success", Bool(true)), ("data", Arr(items)), ("count", Num(Finite(|items| as real)))])
  }

  /** The body of a successful delete. */
  const DeletedBody: Value := Obj([("success", Bool(true)), ("message", Str("Sensor deleted successfully"))])

  /** A row as the JSON object `RETURNING *` / `SELECT *` sends, columns in table order. */
  function RowJson(r: SensorRow): Value {
    Obj([("id", r.id), ("sensor_id", Str(r.sensorId)), ("name", r.name),
         ("location", r.location), ("min_temperature", r.minTemperature),
         ("max_temperature", r.maxTemperature), ("min_humidity", r.minHumidity),
         ("max_humidity", r.maxHumidity), ("active", r.active),
         ("created_at", r.createdAt), ("updated_at", r.updatedAt)])
  }

  /** The rows as a JSON list. */
  function RowsJson(rs: seq<SensorRow>): (vs: seq<Value>)
    ensures |vs| == |rs|
  {
    seq(|rs|, i requires 0 <= i < |rs| => RowJson(rs[i]))
  }

  /** `parseInt(req.query.limit as string) || 50`: NaN and 0 fall back to 50. */
  function Limit(query: Option<string>): (n: int)
    ensures n != 0
    ensures query.None? ==> n == 50
  {
    if query.None? then 50
    else match ParseInt(query.value)
      case None => 50
      case Some(k) => if k == 0 then 50 else k
  }

  /** A positive decimal limit is used as given. */
  lemma LimitOfNumber(n: nat)
    requires n > 0
    ensures Limit(Some(NatToString(n))) == n
  {
    ParseIntOfNatToString(n);
  }

  /** `?limit=0`, an empty `?limit=` and a limit without digits all give 50. */
  lemma LimitDefaults(s: string)
    requires s == "0" || s == "" || ParseInt(s).None?
    ensures Limit(Some(s)) == 50
  {
    if s == "0" {
      ParseIntOfNatToString(0);
    }
  }

  /** The body lacks a field `createSensor` insists on: a falsy id or name, or an undefined bound. */
  predicate Missing(body: Entries) {
    || !Truthy(Get(body, "sensor_id")) || !Truthy(Get(body, "name"))
    || Get(body, "min_temperature").Undefined? || Get(body, "max_temperature").Undefined?
    || Get(body, "min_humidity").Undefined? || Get(body, "max_humidity").Undefined?
  }

  /**
   * The `ISensor` object `createSensor` passes to `create`: the four bounds
   * through `parseFloat`, and no `active` property.
   */
  function SensorToCreate(body: Entries): NewSensor {
    NewSensor(Get(body, "sensor_id"), Get(body, "name"), Get(body, "location"),
      Num(ParseFloatValue(Get(body, "min_temperature"))), Num(ParseFloatValue(Get(body, "max_temperature"))),
      Num(ParseFloatValue(Get(body, "min_humidity"))), Num(ParseFloatValue(Get(body, "max_humidity"))),
      Undefined)
  }

  /**
   * A sensor created through the handler is always active, whatever the body
   * says about `active`, and its bounds are the `parseFloat` of what was sent.
   */
  lemma CreatedSensorActive(body: Entries, id: nat, now: Value)
    requires Get(body, "sensor_id").Str?
    ensures var r := NewRow(id, Get(body, "sensor_id").s, SensorToCreate(body), now);
      && r.active == Bool(true)
      && r.minTemperature == Num(ParseFloatValue(Get(body, "min_temperature")))
      && r.maxHumidity == Num(ParseFloatValue(Get(body, "max_humidity")))
  {
    CreateDefaults(id, SensorToCreate(body), now);
  }

  /** Whatever `createSensor` passes on for a body that is not missing a field can be inserted. */
  lemma CompleteBodyInsertable(body: Entries)
    requires !Missing(body) && Get(body, "sensor_id").Str?
    ensures InsertAllowed(SensorToCreate(body))
  {
  }

  /** The body's `sensor_id` is a string already stored. */
  predicate IdTaken(body: Entries, rows: map<string, SensorRow>) {
    Get(body, "sensor_id").Str? && Get(body, "sensor_id").s in rows
  }

  /** The body's `sensor_id` is a string not stored yet. */
  predicate IdFree(body: Entries, rows: map<string, SensorRow>) {
    Get(body, "sensor_id").Str? && Get(body, "sensor_id").s !in rows
  }

  /**
   * `createSensor`: 400 when a field is missing, 409 when the id exists,
   * otherwise the insert and 201 with the new row; 500 when a query throws.
   * Only a 201 changes the stored rows.
   */
  method CreateSensor(table: SensorTable, body: Entries, now: Value, failAt: Option<nat>) returns (res: Response)
    requires table.Valid()
    modifies table
    ensures table.Valid()
    ensures res.status in {201, 400, 409, 500}
    ensures res.status != 201 ==> table.rows == old(table.rows) && table.order == old(table.order)
    ensures Missing(body) ==> res == MissingFields
    ensures !Missing(body) && failAt == Some(0) ==> res == ServerError
    ensures !Missing(body) && failAt != Some(0) && IdTaken(body, old(table.rows)) ==> res == AlreadyExists
    ensures !Missing(body) && failAt == None && IdFree(body, old(table.rows)) ==> res.status == 201
    ensures res.status == 201 ==>
      && IdFree(body, old(table.rows))
      && var row := NewRow(old(table.nextId), Get(body, "sensor_id").s, SensorToCreate(body), now);
      && table.rows == old(table.rows)[Get(body, "sensor_id").s := row]
      && res == Response(201, DataBody(RowJson(row)))
  {
    if Missing(body) {
      return MissingFields;
    }
    var sensorId := Get(body, "sensor_id");
    if !sensorId.Str? {
      return ServerError;
    }
    var existing := table.FindById(sensorId.s, failAt == Some(0));
    if existing.Err? {
      return ServerError;
    }
    if existing.value.Some? {
      return AlreadyExists;
    }
    var sensor := SensorToCreate(body);
    CompleteBodyInsertable(body);
    var created := table.Create(sensor, now, failAt == Some(1));
    if created.Err? {
      return ServerError;
    }
    res := Response(201, DataBody(RowJson(created.value)));
  }

  /** `getAllSensors`: every row, newest first, with the count. */
  method GetAllSensors(table: SensorTable, failAt: Option<nat>) returns (res: Response)
    requires table.Valid()
    ensures failAt == Some(0) ==> res == ServerError
    ensures failAt != Some(0) ==> res == Response(200, ListBody(RowsJson(table.Newest())))
  {
    var sensors := table.FindAll(failAt == Some(0));
    if sensors.Err? {
      return ServerError;
    }
    res := Response(200, ListBody(RowsJson(sensors.value)));
  }

  /** `getSensorById`: 404 when no row matches, else 200 with the row. */
  method GetSensorById(table: SensorTable, id: string, failAt: Option<nat>) returns (res: Response)
    ensures failAt == Some(0) ==> res == ServerError
    ensures failAt != Some(0) && id !in table.rows ==> res == NotFound
    ensures failAt != Some(0) && id in table.rows ==> res == Response(200, DataBody(RowJson(table.rows[id])))
  {
    var sensor := table.FindById(id, failAt == Some(0));
    if sensor.Err? {
      return ServerError;
    }
    if sensor.value.None? {
      return NotFound;
    }
    res := Response(200, DataBody(RowJson(sensor.value.value)));
  }

  /**
   * `updateSensor`: 404 when no row matches; otherwise the update and 200
   * with the updated row, or with `data: null` when nothing was eligible.
   */
  method UpdateSensor(table: SensorTable, id: string, updates: Entries, now: Value, failAt: Option<nat>) returns (res: Response)
    requires table.Valid()
    modifies table
    ensures table.Valid() && table.order == old(table.order)
    ensures res.status in {200, 404, 500}
    ensures res.status != 200 ==> table.rows == old(table.rows)
    ensures failAt == Some(0) ==> res == ServerError
    ensures failAt != Some(0) && id !in old(table.rows) ==> res == NotFound
    ensures failAt != Some(0) && id in old(table.rows) && UpdateSpec(id, updates).None? ==>
      res == Response(200, DataBody(Null)) && table.rows == old(table.rows)
    ensures res.status == 200 && UpdateSpec(id, updates).Some? ==>
      && id in old(table.rows)
      && var applied := ApplyAll(old(table.rows)[id], EligibleEntries(updates));
      && applied.Some?
      && table.rows == old(table.rows)[id := applied.value.(updatedAt := now)]
      && res == Response(200, DataBody(RowJson(table.rows[id])))
    ensures failAt != Some(0) ==> (res.status == 404 <==> id !in old(table.rows))
    ensures && failAt == None && id in old(table.rows) && UpdateSpec(id, updates).Some?
            && UpdateRuns(EligibleEntries(updates)) && ApplyAll(old(table.rows)[id], EligibleEntries(updates)).Some?
      ==> res.status == 200
  {
    var sensor := table.FindById(id, failAt == Some(0));
    if sensor.Err? {
      return ServerError;
    }
    if sensor.value.None? {
      return NotFound;
    }
    var updated := table.Update(id, updates, now, failAt == Some(1));
    if updated.Err? {
      return ServerError;
    }
    if updated.value.None? {
      if UpdateSpec(id, updates).Some? {
        assert false;
      }
      return Response(200, DataBody(Null));
    }
    res := Response(200, DataBody(RowJson(updated.value.value)));
  }

  /** `deleteSensor`: 404 when no row matches; otherwise the delete and 200. */
  method DeleteSensor(table: SensorTable, id: string, failAt: Option<nat>) returns (res: Response)
    requires table.Valid()
    modifies table
    ensures table.Valid()
    ensures res.status in {200, 404, 500}
    ensures res.status != 200 ==> table.rows == old(table.rows) && table.order == old(table.order)
    ensures failAt == Some(0) ==> res == ServerError
    ensures failAt != Some(0) && id !in old(table.rows) ==> res == NotFound
    ensures failAt == None && id in old(table.rows) ==> res == Response(200, DeletedBody)
    ensures res.status == 200 ==> id in old(table.rows) && table.rows == old(table.rows) - {id} && id !in table.rows
  {
    var sensor := table.FindById(id, failAt == Some(0));
    if sensor.Err? {
      return ServerError;
    }
    if sensor.value.None? {
      return NotFound;
    }
    var deleted := table.Delete(id, failAt == Some(1));
    if deleted.Err? {
      return ServerError;
    }
    res := Response(200, DeletedBody);
  }

  /**
   * `getSensorReadings` and `getSensorAlerts`: 404 when no row matches;
   * otherwise the list the second query returns for the id and the limit,
   * with its count.
   */
  method GetSensorList(table: SensorTable, id: string, limitParam: Option<string>,
                       fetch: (string, int) -> seq<Value>, failAt: Option<nat>) returns (res: Response)
    ensures failAt == Some(0) ==> res == ServerError
    ensures failAt != Some(0) && id !in table.rows ==> res == NotFound
    ensures failAt == Some(1) && id in table.rows ==> res == ServerError
    ensures failAt != Some(0) && failAt != Some(1) && id in table.rows ==>
      res == Response(200, ListBody(fetch(id, Limit(limitParam))))
  {
    var limit := Limit(limitParam);
    var sensor := table.FindById(id, failAt == Some(0));
    if sensor.Err? {
      return ServerError;
    }
    if sensor.value.None? {
      return NotFound;
    }
    if failAt == Some(1) {
      return ServerError;
    }
    var items := fetch(id, limit);
    res := Response(200, ListBody(items));
  }
}
