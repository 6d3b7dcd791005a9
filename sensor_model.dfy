/**
 * `SensorModel`: the `sensors` table and the five queries the API issues on
 * it. The table is a map from `sensor_id` (the unique key) to its row, with
 * the ids in creation order for `ORDER BY created_at DESC`.
 *
 * SQL itself is not modelled: a query either runs with the effect described
 * here or throws, and `fails` says which. Column types, `DECIMAL(5,2)`
 * ranges and Postgres' own text forms of values are left to `fails` as well.
 */
module SensorModel {
  import opened Wrappers
  import opened JsValues
  import opened JsNumbers

  /** A rejected query. */
  datatype DbError = QueryFailed

  /**
   * A row of `sensors` as `RETURNING *` gives it. Values are kept as the
   * JavaScript values that were bound; `sensor_id` is the key.
   */
  datatype SensorRow = SensorRow(
    id: Value,
    sensorId: string,
    name: Value,
    location: Value,
    minTemperature: Value,
    maxTemperature: Value,
    minHumidity: Value,
    maxHumidity: Value,
    active: Value,
    createdAt: Value,
    updatedAt: Value)

  /** The `ISensor` object `create` receives; a missing property is undefined. */
  datatype NewSensor = NewSensor(
    sensorId: Value,
    name: Value,
    location: Value,
    minTemperature: Value,
    maxTemperature: Value,
    minHumidity: Value,
    maxHumidity: Value,
    active: Value)

  /** A bound parameter that reaches the table as SQL NULL. */
  predicate IsNull(v: Value) {
    v.Null? || v.Undefined?
  }

  // ------------------------------------------------------------- columns

  /** The value of column `key`, or None when the table has no such column. */
  function Column(r: SensorRow, key: string): Option<Value> {
    if key == "id" then Some(r.id)
    else if key == "sensor_id" then Some(Str(r.sensorId))
    else if key == "name" then Some(r.name)
    else if key == "location" then Some(r.location)
    else if key == "min_temperature" then Some(r.minTemperature)
    else if key == "max_temperature" then Some(r.maxTemperature)
    else if key == "min_humidity" then Some(r.minHumidity)
    else if key == "max_humidity" then Some(r.maxHumidity)
    else if key == "active" then Some(r.active)
    else if key == "created_at" then Some(r.createdAt)
    else if key == "updated_at" then Some(r.updatedAt)
    else None
  }

  /**
   * `SET key = v` on one row: None when there is no such column, or when a
   * non-string value would become the key. Whether Postgres can store `v`
   * in the column's type is left to `fails`, like every other column.
   */
  function SetColumn(r: SensorRow, key: string, v: Value): (s: Option<SensorRow>)
    ensures s.None? <==> Column(r, key).None? || (key == "sensor_id" && !v.Str?)
    ensures s.Some? ==> Column(s.value, key) == Some(v)
    ensures s.Some? ==> forall k :: k != key ==> Column(s.value, k) == Column(r, k)
  {
    if key == "id" then Some(r.(id := v))
    else if key == "sensor_id" then (if v.Str? then Some(r.(sensorId := v.s)) else None)
    else if key == "name" then Some(r.(name := v))
    else if key == "location" then Some(r.(location := v))
    else if key == "min_temperature" then Some(r.(minTemperature := v))
    else if key == "max_temperature" then Some(r.(maxTemperature := v))
    else if key == "min_humidity" then Some(r.(minHumidity := v))
    else if key == "max_humidity" then Some(r.(maxHumidity := v))
    else if key == "active" then Some(r.(active := v))
    else if key == "created_at" then Some(r.(createdAt := v))
    else if key == "updated_at" then Some(r.(updatedAt := v))
    else None
  }

  // -------------------------------------------------------------- create

  /**
   * The row `INSERT ... RETURNING *` gives for `sensor`: `location || null`
   * and `active !== undefined ? active : true`, both timestamps `now`.
   */
  function NewRow(id: nat, key: string, sensor: NewSensor, now: Value): SensorRow {
    SensorRow(Num(Finite(id as real)), key, sensor.name,
      if Truthy(sensor.location) then sensor.location else Null,
      sensor.minTemperature, sensor.maxTemperature, sensor.minHumidity, sensor.maxHumidity,
      if sensor.active.Undefined? then Bool(true) else sensor.active,
      now, now)
  }

  /** The NOT NULL columns `create` fills from its argument all get a value. */
  predicate InsertAllowed(sensor: NewSensor) {
    && sensor.sensorId.Str?
    && !IsNull(sensor.name)
    && !IsNull(sensor.minTemperature) && !IsNull(sensor.maxTemperature)
    && !IsNull(sensor.minHumidity) && !IsNull(sensor.maxHumidity)
  }

  /**
   * What `create` stores: a falsy location becomes null, an undefined
   * `active` becomes true and any other `active` is kept, and the rest is
   * stored as given.
   */
  lemma CreateDefaults(id: nat, sensor: NewSensor, now: Value)
    requires sensor.sensorId.Str?
    ensures var r := NewRow(id, sensor.sensorId.s, sensor, now);
      && Column(r, "sensor_id") == Some(sensor.sensorId)
      && Column(r, "name") == Some(sensor.name)
      && (Truthy(sensor.location) <==> Column(r, "location") == Some(sensor.location) && sensor.location != Null)
      && (!Truthy(sensor.location) ==> Column(r, "location") == Some(Null))
      && (sensor.active.Undefined? ==> Column(r, "active") == Some(Bool(true)))
      && (!sensor.active.Undefined? ==> Column(r, "active") == Some(sensor.active))
      && Column(r, "min_temperature") == Some(sensor.minTemperature)
      && Column(r, "max_humidity") == Some(sensor.maxHumidity)
  {
    var r := NewRow(id, sensor.sensorId.s, sensor, now);
    if !Truthy(sensor.location) {
      assert r.location == Null;
    }
  }

  // ------------------------------------------------------- update builder

  /** An entry `update` turns into an assignment: a defined value under a key other than `sensor_id`. */
  predicate Eligible(e: (string, Value)) {
    !e.1.Undefined? && e.0 != "sensor_id"
  }

  /** The eligible entries, in entry order. */
  function EligibleEntries(updates: Entries): (el: Entries)
    ensures |el| <= |updates|
    ensures forall i :: 0 <= i < |el| ==> Eligible(el[i]) && el[i] in updates
    ensures forall i :: 0 <= i < |updates| && Eligible(updates[i]) ==> updates[i] in el
    decreases |updates|
  {
    if updates == [] then []
    else
      var last := updates[|updates| - 1];
      EligibleEntries(updates[..|updates| - 1]) + (if Eligible(last) then [last] else [])
  }

  /** `$n` */
  function Placeholder(n: nat): string {
    "$" + NatToString(n)
  }

  /** `key = $n` */
  function Assignment(key: string, n: nat): string {
    key + " = " + Placeholder(n)
  }

  /** The assignment every UPDATE ends with. */
  const TouchUpdatedAt: string := "updated_at = CURRENT_TIMESTAMP"

  /** The pieces of an `UPDATE sensors SET ... WHERE sensor_id = $n RETURNING *`. */
  datatype UpdateQuery = UpdateQuery(fields: seq<string>, values: seq<Value>, wherePlaceholder: nat)

  /** The statement text. */
  function UpdateText(q: UpdateQuery): string {
    "UPDATE sensors SET " + Join(q.fields, ", ") + " WHERE sensor_id = " + Placeholder(q.wherePlaceholder) + " RETURNING *"
  }

  /** The assignments for `el`, numbered from 1. */
  function Assignments(el: Entries): (fs: seq<string>)
    ensures |fs| == |el|
  {
    seq(|el|, i requires 0 <= i < |el| => Assignment(el[i].0, i + 1))
  }

  /** The values of `el`. */
  function ValuesOf(el: Entries): (vs: seq<Value>)
    ensures |vs| == |el|
  {
    seq(|el|, i requires 0 <= i < |el| => el[i].1)
  }

  /**
   * The query `update(sensorId, updates)` issues: None when no entry is
   * eligible, otherwise the numbered assignments, `updated_at` last, and the
   * values with `sensorId` last for the WHERE placeholder.
   */
  function UpdateSpec(sensorId: string, updates: Entries): Option<UpdateQuery> {
    var el := EligibleEntries(updates);
    if el == [] then None
    else Some(UpdateQuery(Assignments(el) + [TouchUpdatedAt], ValuesOf(el) + [Str(sensorId)], |el| + 1))
  }

  /** One more entry adds itself to the eligible ones when it is eligible. */
  lemma EligibleGrows(updates: Entries, i: nat)
    requires i < |updates|
    ensures EligibleEntries(updates[..i + 1]) ==
      EligibleEntries(updates[..i]) + (if Eligible(updates[i]) then [updates[i]] else [])
  {
    assert updates[..i + 1][..i] == updates[..i];
  }

  /** One more eligible entry adds the next numbered assignment and its value. */
  lemma NumberedGrows(el: Entries, e: (string, Value))
    ensures Assignments(el + [e]) == Assignments(el) + [Assignment(e.0, |el| + 1)]
    ensures ValuesOf(el + [e]) == ValuesOf(el) + [e.1]
  {
  }

  /** The SET-list builder: one pass over the entries, numbering placeholders from 1. */
  method BuildUpdate(sensorId: string, updates: Entries) returns (q: Option<UpdateQuery>)
    ensures q == UpdateSpec(sensorId, updates)
  {
    var fields: seq<string> := [];
    var values: seq<Value> := [];
    var paramCount := 1;
    var i := 0;
    while i < |updates|
      invariant 0 <= i <= |updates|
      invariant paramCount == |EligibleEntries(updates[..i])| + 1
      invariant fields == Assignments(EligibleEntries(updates[..i]))
      invariant values == ValuesOf(EligibleEntries(updates[..i]))
    {
      var key := updates[i].0;
      var value := updates[i].1;
      ghost var before := EligibleEntries(updates[..i]);
      EligibleGrows(updates, i);
      if !value.Undefined? && key != "sensor_id" {
        NumberedGrows(before, (key, value));
        fields := fields + [Assignment(key, paramCount)];
        values := values + [value];
        paramCount := paramCount + 1;
      }
      i := i + 1;
    }
    assert updates[..i] == updates;
    if |fields| == 0 {
      return None;
    }
    fields := fields + [TouchUpdatedAt];
    values := values + [Str(sensorId)];
    q := Some(UpdateQuery(fields, values, paramCount));
  }

  /**
   * The builder's numbering: with `n` eligible entries there are `n + 1`
   * assignments and `n + 1` values; the assignment at index `i` binds
   * `$(i+1)` to the value of the eligible entry at index `i`; `updated_at` is last; the WHERE
   * placeholder is `$(n+1)`, bound to the sensor id.
   */
  lemma UpdateNumbering(sensorId: string, updates: Entries)
    requires UpdateSpec(sensorId, updates).Some?
    ensures var q := UpdateSpec(sensorId, updates).value;
      var el := EligibleEntries(updates);
      var n := |el|;
      && n >= 1 && |q.fields| == n + 1 && |q.values| == n + 1
      && (forall i :: 0 <= i < n ==> q.fields[i] == Assignment(el[i].0, i + 1) && q.values[i] == el[i].1)
      && q.fields[n] == TouchUpdatedAt
      && q.wherePlaceholder == n + 1 && q.values[n] == Str(sensorId)
  {
  }

  /** No two placeholders of a query coincide. */
  lemma PlaceholdersDistinct(m: nat, n: nat)
    requires m != n
    ensures Placeholder(m) != Placeholder(n)
  {
    if Placeholder(m) == Placeholder(n) {
      assert Placeholder(m)[1..] == NatToString(m);
      assert Placeholder(n)[1..] == NatToString(n);
      NatToStringInjective(m, n);
    }
  }

  /**
   * Which entries become assignments: exactly the defined values under a
   * key other than `sensor_id`; `sensor_id` is never assigned.
   */
  lemma EligibleExactly(updates: Entries, e: (string, Value))
    ensures e in EligibleEntries(updates) <==> e in updates && !e.1.Undefined? && e.0 != "sensor_id"
  {
    var el := EligibleEntries(updates);
    if e in el {
      var i :| 0 <= i < |el| && el[i] == e;
    }
    if e in updates && Eligible(e) {
      var i :| 0 <= i < |updates| && updates[i] == e;
    }
  }

  /** With nothing to set there is no query. */
  lemma {:induction false} NothingToUpdate(sensorId: string, updates: Entries)
    requires forall i :: 0 <= i < |updates| ==> updates[i].1.Undefined? || updates[i].0 == "sensor_id"
    ensures EligibleEntries(updates) == [] && UpdateSpec(sensorId, updates).None?
    decreases |updates|
  {
    if updates != [] {
      var init := updates[..|updates| - 1];
      assert forall i :: 0 <= i < |init| ==> init[i] == updates[i];
      NothingToUpdate(sensorId, init);
    }
  }


  // --------------------------------------------------------- applying it

  /** The row after each assignment of `el` in turn; None when one of them cannot run. */
  function ApplyAll(r: SensorRow, el: Entries): Option<SensorRow>
    decreases |el|
  {
    if el == [] then Some(r)
    else match SetColumn(r, el[0].0, el[0].1)
      case None => None
      case Some(r1) => ApplyAll(r1, el[1..])
  }

  /** No key occurs twice (a JavaScript object's keys never do). */
  predicate DistinctKeys(es: Entries) {
    forall i, j :: 0 <= i < j < |es| ==> es[i].0 != es[j].0
  }

  /**
   * A successful UPDATE sets every column named in the entries to its value
   * and leaves every other column as it was.
   */
  lemma {:induction false} ApplyAllSets(r: SensorRow, el: Entries, k: string)
    requires DistinctKeys(el) && ApplyAll(r, el).Some?
    ensures forall i :: 0 <= i < |el| && el[i].0 == k ==> Column(ApplyAll(r, el).value, k) == Some(el[i].1)
    ensures (forall i :: 0 <= i < |el| ==> el[i].0 != k) ==> Column(ApplyAll(r, el).value, k) == Column(r, k)
    decreases |el|
  {
    if el != [] {
      var r1 := SetColumn(r, el[0].0, el[0].1).value;
      assert DistinctKeys(el[1..]) by {
        forall i, j | 0 <= i < j < |el[1..]| ensures el[1..][i].0 != el[1..][j].0 {
          assert el[1..][i] == el[i + 1] && el[1..][j] == el[j + 1];
        }
      }
      ApplyAllSets(r1, el[1..], k);
      forall i | 0 <= i < |el| && el[i].0 == k
        ensures Column(ApplyAll(r, el).value, k) == Some(el[i].1)
      {
        if i == 0 {
          assert forall j :: 0 <= j < |el[1..]| ==> el[1..][j].0 != k by {
            forall j | 0 <= j < |el[1..]| ensures el[1..][j].0 != k { assert el[1..][j] == el[j + 1]; }
          }
        } else {
          assert el[1..][i - 1] == el[i];
        }
      }
      if forall i :: 0 <= i < |el| ==> el[i].0 != k {
        assert forall j :: 0 <= j < |el[1..]| ==> el[1..][j].0 != k by {
          forall j | 0 <= j < |el[1..]| ensures el[1..][j].0 != k { assert el[1..][j] == el[j + 1]; }
        }
      }
    }
  }

  /** Assignments that never name `sensor_id` leave a row's key as it was. */
  lemma {:induction false} ApplyAllKeepsKey(r: SensorRow, el: Entries)
    requires forall i :: 0 <= i < |el| ==> Eligible(el[i])
    requires ApplyAll(r, el).Some?
    ensures ApplyAll(r, el).value.sensorId == r.sensorId
    decreases |el|
  {
    if el != [] {
      var r1 := SetColumn(r, el[0].0, el[0].1).value;
      assert Column(r1, "sensor_id") == Column(r, "sensor_id");
      assert forall i :: 0 <= i < |el[1..]| ==> el[1..][i] == el[i + 1];
      ApplyAllKeepsKey(r1, el[1..]);
    }
  }

  /**
   * Whether the UPDATE for `el` can run at all: every key is a column, and
   * `updated_at` is not among them (it is always assigned by the statement
   * itself, and a column cannot be assigned twice).
   */
  predicate UpdateRuns(el: Entries) {
    forall i :: 0 <= i < |el| ==> el[i].0 != "updated_at" && Column(SampleRow, el[i].0).Some?
  }

  /** Any row: whether a key names a column does not depend on the row. */
  const SampleRow: SensorRow := SensorRow(Null, "", Null, Null, Null, Null, Null, Null, Null, Null, Null)

  // --------------------------------------------------------------- table

  /** The ids in `order` are pairwise different. */
  predicate Distinct(order: seq<string>) {
    forall i, j :: 0 <= i < j < |order| ==> order[i] != order[j]
  }

  /** `order` without `id`. */
  function Without(order: seq<string>, id: string): (r: seq<string>)
    ensures forall x :: x in r <==> x in order && x != id
    ensures |r| <= |order|
  {
    if order == [] then []
    else if order[0] == id then Without(order[1..], id)
    else [order[0]] + Without(order[1..], id)
  }

  /** Removing an id keeps the list free of duplicates. */
  lemma {:induction false} WithoutDistinct(order: seq<string>, id: string)
    requires Distinct(order)
    ensures Distinct(Without(order, id))
    decreases |order|
  {
    if order != [] {
      assert Distinct(order[1..]) by {
        forall i, j | 0 <= i < j < |order[1..]| ensures order[1..][i] != order[1..][j] {
          assert order[1..][i] == order[i + 1] && order[1..][j] == order[j + 1];
        }
      }
      WithoutDistinct(order[1..], id);
      if order[0] != id {
        var r := Without(order, id);
        var rest := Without(order[1..], id);
        assert r == [order[0]] + rest;
        assert order[0] !in order[1..] by {
          forall j | 0 <= j < |order[1..]| ensures order[1..][j] != order[0] { assert order[1..][j] == order[j + 1]; }
        }
        assert order[0] !in rest;
        forall i, j | 0 <= i < j < |r| ensures r[i] != r[j] {
          if i == 0 {
            assert r[j] == rest[j - 1];
            assert r[j] in rest;
          } else {
            assert r[i] == rest[i - 1] && r[j] == rest[j - 1];
          }
        }
      }
    }
  }

  /** The `sensors` table. */
  class SensorTable {
    var rows: map<string, SensorRow>
    var order: seq<string>
    var nextId: nat

    /** `order` lists each stored id once, and each row is stored under its own id. */
    ghost predicate Valid()
      reads this
    {
      && (forall i :: 0 <= i < |order| ==> order[i] in rows)
      && (forall id :: id in rows ==> id in order)
      && Distinct(order)
      && (forall id :: id in rows ==> rows[id].sensorId == id)
    }

    /** An empty table whose next serial id is 1. */
    constructor()
      ensures Valid() && rows == map[] && order == [] && nextId == 1
    {
      rows := map[];
      order := [];
      nextId := 1;
    }

    /** The rows, newest first (`ORDER BY created_at DESC`). */
    function Newest(): (rs: seq<SensorRow>)
      requires Valid()
      reads this
      ensures |rs| == |order| == |rows|
      ensures forall i :: 0 <= i < |rs| ==> rs[i] == rows[order[|order| - 1 - i]]
    {
      CountDistinct(order, rows.Keys);
      var ids := order;
      var table := rows;
      seq(|ids|, i requires 0 <= i < |ids| => table[ids[|ids| - 1 - i]])
    }

    /** `create`: the NOT NULL and UNIQUE constraints, then the insert. */
    method Create(sensor: NewSensor, now: Value, fails: bool) returns (r: Result<SensorRow, DbError>)
      requires Valid()
      modifies this
      ensures Valid()
      ensures fails ==> r.Err? && rows == old(rows) && order == old(order) && nextId == old(nextId)
      ensures !fails && (!InsertAllowed(sensor) || sensor.sensorId.s in old(rows)) ==>
        r.Err? && rows == old(rows) && order == old(order) && nextId == old(nextId) + 1
      ensures !fails && InsertAllowed(sensor) && sensor.sensorId.s !in old(rows) ==>
        && r == Ok(NewRow(old(nextId), sensor.sensorId.s, sensor, now))
        && rows == old(rows)[sensor.sensorId.s := r.value]
        && order == old(order) + [sensor.sensorId.s]
        && nextId == old(nextId) + 1
    {
      if fails {
        return Err(QueryFailed);
      }
      var id := nextId;
      nextId := nextId + 1;
      if !InsertAllowed(sensor) || sensor.sensorId.s in rows {
        return Err(QueryFailed);
      }
      var key := sensor.sensorId.s;
      var row := NewRow(id, key, sensor, now);
      rows := rows[key := row];
      order := order + [key];
      r := Ok(row);
    }

    /** `findAll` */
    method FindAll(fails: bool) returns (r: Result<seq<SensorRow>, DbError>)
      requires Valid()
      ensures r == if fails then Err(QueryFailed) else Ok(Newest())
    {
      if fails {
        return Err(QueryFailed);
      }
      r := Ok(Newest());
    }

    /** `findById`: the row, or null when none matches. */
    method FindById(sensorId: string, fails: bool) returns (r: Result<Option<SensorRow>, DbError>)
      ensures fails ==> r == Err(QueryFailed)
      ensures !fails ==> r == Ok(if sensorId in rows then Some(rows[sensorId]) else None)
    {
      if fails {
        return Err(QueryFailed);
      }
      if sensorId in rows {
        r := Ok(Some(rows[sensorId]));
      } else {
        r := Ok(None);
      }
    }

    /**
     * `update`: no query and null when nothing is eligible; otherwise the
     * UPDATE, which sets the eligible columns and `updated_at` on the
     * matching row and returns it, or null when no row matches.
     */
    method Update(sensorId: string, updates: Entries, now: Value, fails: bool) returns (r: Result<Option<SensorRow>, DbError>)
      requires Valid()
      modifies this
      ensures Valid() && order == old(order) && nextId == old(nextId)
      ensures UpdateSpec(sensorId, updates).None? ==> r == Ok(None) && rows == old(rows)
      ensures UpdateSpec(sensorId, updates).Some? && fails ==> r.Err? && rows == old(rows)
      ensures r.Ok? && r.value.Some? ==>
        && sensorId in old(rows)
        && ApplyAll(old(rows)[sensorId], EligibleEntries(updates)).Some?
        && r.value.value == ApplyAll(old(rows)[sensorId], EligibleEntries(updates)).value.(updatedAt := now)
        && rows == old(rows)[sensorId := r.value.value]
      ensures r.Ok? && r.value.None? ==> rows == old(rows)
      ensures r == Ok(None) ==> UpdateSpec(sensorId, updates).None? || sensorId !in old(rows)
      ensures r.Err? ==> rows == old(rows)
      ensures UpdateSpec(sensorId, updates).Some? && !fails && sensorId !in old(rows) && UpdateRuns(EligibleEntries(updates)) ==>
        r == Ok(None)
      ensures && UpdateSpec(sensorId, updates).Some? && !fails && sensorId in old(rows)
              && UpdateRuns(EligibleEntries(updates)) && ApplyAll(old(rows)[sensorId], EligibleEntries(updates)).Some?
        ==> r.Ok? && r.value.Some?
    {
      var q := BuildUpdate(sensorId, updates);
      if q.None? {
        return Ok(None);
      }
      if fails {
        return Err(QueryFailed);
      }
      var el := EligibleEntries(updates);
      if !UpdateRuns(el) {
        return Err(QueryFailed);
      }
      if sensorId !in rows {
        return Ok(None);
      }
      var applied := ApplyAll(rows[sensorId], el);
      if applied.None? {
        return Err(QueryFailed);
      }
      ApplyAllKeepsKey(rows[sensorId], el);
      var row := applied.value.(updatedAt := now);
      rows := rows[sensorId := row];
      r := Ok(Some(row));
    }

    /** `delete`: true iff a row was removed. */
    method Delete(sensorId: string, fails: bool) returns (r: Result<bool, DbError>)
      requires Valid()
      modifies this
      ensures Valid() && nextId == old(nextId)
      ensures fails ==> r == Err(QueryFailed) && rows == old(rows) && order == old(order)
      ensures !fails ==> r == Ok(sensorId in old(rows)) && rows == old(rows) - {sensorId}
      ensures !fails ==> order == Without(old(order), sensorId)
    {
      if fails {
        return Err(QueryFailed);
      }
      r := Ok(sensorId in rows);
      WithoutDistinct(order, sensorId);
      ghost var before := order;
      rows := rows - {sensorId};
      order := Without(order, sensorId);
      forall i | 0 <= i < |order| ensures order[i] in rows {
        assert order[i] in before && order[i] != sensorId;
      }
    }
  }

  /** A duplicate-free list of exactly the keys of a map is as long as the map. */
  lemma CountDistinct(order: seq<string>, keys: set<string>)
    requires Distinct(order)
    requires forall i :: 0 <= i < |order| ==> order[i] in keys
    requires forall k :: k in keys ==> k in order
    ensures |order| == |keys|
    decreases |order|
  {
    if order != [] {
      var x := order[|order| - 1];
      var rest := order[..|order| - 1];
      assert forall i :: 0 <= i < |rest| ==> rest[i] != x;
      assert forall k :: k in keys - {x} ==> k in rest by {
        forall k | k in keys - {x} ensures k in rest {
          var i :| 0 <= i < |order| && order[i] == k;
          assert i < |order| - 1;
          assert rest[i] == k;
        }
      }
      CountDistinct(rest, keys - {x});
    } else {
      assert keys == {};
    }
  }
}
