/** The storage contract of lib/database.ts: the `sensors` and
    `moisture_data` tables as sequences of rows, the sensor and reading
    operations over them, and the pure queries (filter, ORDER BY timestamp
    DESC, LIMIT/OFFSET, time windows). Timestamps are whole seconds;
    `now` stands for SQLite's CURRENT_TIMESTAMP / datetime('now'). */
module Database {
  import opened JsValues
  import Strings

  /** A row of `sensors`. The nullable columns calibration_min,
      calibration_max and status are options; the rest are NOT NULL. */
  datatype Sensor = Sensor(
    sensorId: string,
    location: string,
    sensorType: string,
    calibrationMin: Option<real>,
    calibrationMax: Option<real>,
    status: Option<string>,
    createdAt: int,
    updatedAt: int)

  /** The argument of sensorOperations.create: a sensor without timestamps. */
  datatype NewSensor = NewSensor(
    sensorId: string,
    location: string,
    sensorType: string,
    calibrationMin: real,
    calibrationMax: real,
    status: string)

  /** A row of `moisture_data`. */
  datatype Reading = Reading(
    id: nat,
    sensorId: string,
    timestamp: int,
    moistureValue: real,
    temperature: Option<real>,
    humidity: Option<real>)

  /** The argument of moistureDataOperations.create: no id and no timestamp;
      the values are whatever the caller passes and are bound as they are. */
  datatype NewReading = NewReading(
    sensorId: string,
    moistureValue: Option<JsVal>,
    temperature: Option<JsVal>,
    humidity: Option<JsVal>)

  datatype DbError =
    | PrimaryKeyViolation
    | NotNullViolation
    | BindFailure
    | SyntaxError
    | NoSuchColumn
    | StorageFailure
    /** moisture_data.sensor_id REFERENCES sensors (sensor_id), and the
        SQLite that better-sqlite3 bundles enforces foreign keys by default. */
    | ForeignKeyViolation
    /** The statement succeeds in SQLite but stores a value the typed row of
        this model cannot hold (see Unrepresentable). */
    | NotRepresented

  /** LIMIT and OFFSET defaults of getBySensor. */
  const DefaultLimit: nat := 100
  const DefaultOffset: nat := 0

  const SecondsPerHour: nat := 3600
  const SecondsPerDay: nat := 86400

  // ---------------------------------------------------------------------
  // Binding JavaScript values to REAL columns

  /** A value bound to a nullable REAL column: undefined and null become
      NULL, a number is stored, a boolean, object or array cannot be bound. */
  function BindReal(v: Option<JsVal>): (r: Result<Option<real>, DbError>)
    ensures r == Ok(None) <==> v == None || v == Some(JsNull)
    ensures (exists n :: v == Some(JsNum(n))) <==> r.Ok? && r.value.Some?
    ensures r.Ok? && r.value.Some? ==> v == Some(JsNum(r.value.value))
  {
    match v
    case None => Ok(None)
    case Some(JsNull) => Ok(None)
    case Some(JsNum(n)) => Ok(Some(n))
    case Some(_) => Err(BindFailure)
  }

  /** The row INSERT INTO moisture_data stores for `data`, given the id
      and timestamp the engine assigns; NOT NULL rejects a missing moisture. */
  function ReadingRow(data: NewReading, id: nat, now: int): (r: Result<Reading, DbError>)
    ensures r.Ok? ==> r.value.id == id && r.value.timestamp == now && r.value.sensorId == data.sensorId
    ensures r.Ok? <==> (exists n :: data.moistureValue == Some(JsNum(n)))
                       && BindReal(data.temperature).Ok? && BindReal(data.humidity).Ok?
    ensures r.Ok? ==> data.moistureValue == Some(JsNum(r.value.moistureValue))
    ensures data.moistureValue == None || data.moistureValue == Some(JsNull) ==> r.Err?
  {
    match BindReal(data.moistureValue)
    case Err(e) => Err(e)
    case Ok(None) => Err(NotNullViolation)
    case Ok(Some(m)) =>
      match BindReal(data.temperature)
      case Err(e) => Err(e)
      case Ok(t) =>
        match BindReal(data.humidity)
        case Err(e) => Err(e)
        case Ok(h) => Ok(Reading(id, data.sensorId, now, m, t, h))
  }

  // ---------------------------------------------------------------------
  // Table predicates and filters

  predicate HasSensor(ss: seq<Sensor>, id: string)
  {
    exists i :: 0 <= i < |ss| && ss[i].sensorId == id
  }

  /** The foreign key of moisture_data: every reading names a sensor. */
  ghost predicate ReadingsReferenceSensors(ss: seq<Sensor>, rs: seq<Reading>)
  {
    forall i :: 0 <= i < |rs| ==> HasSensor(ss, rs[i].sensorId)
  }

  /** sensor_id is the primary key of `sensors`. */
  ghost predicate UniqueSensorIds(ss: seq<Sensor>)
  {
    forall i, j :: 0 <= i < j < |ss| ==> ss[i].sensorId != ss[j].sensorId
  }

  function FindSensor(ss: seq<Sensor>, id: string): (r: Option<Sensor>)
    ensures r.Some? <==> HasSensor(ss, id)
    ensures r.Some? ==> r.value in ss && r.value.sensorId == id
  {
    if |ss| == 0 then None
    else if ss[0].sensorId == id then Some(ss[0])
    else
      var r := FindSensor(ss[1..], id);
      assert HasSensor(ss, id) ==> HasSensor(ss[1..], id) by {
        if HasSensor(ss, id) {
          var i :| 0 <= i < |ss| && ss[i].sensorId == id;
          assert ss[1..][i - 1].sensorId == id;
        }
      }
      r
  }

  /** The sensors whose id is not in `ids`, in table order. */
  function SensorsNotIn(ss: seq<Sensor>, ids: set<string>): (r: seq<Sensor>)
    ensures |r| <= |ss|
    ensures forall s :: s in r <==> s in ss && s.sensorId !in ids
    ensures ids == {} ==> r == ss
  {
    if |ss| == 0 then []
    else if ss[0].sensorId in ids then SensorsNotIn(ss[1..], ids)
    else [ss[0]] + SensorsNotIn(ss[1..], ids)
  }

  /** The readings of sensor `id`, in table order. */
  function ReadingsOf(rs: seq<Reading>, id: string): (r: seq<Reading>)
    ensures |r| <= |rs|
    ensures forall x :: x in r <==> x in rs && x.sensorId == id
    ensures multiset(r) <= multiset(rs)
  {
    if |rs| == 0 then []
    else
      assert rs == [rs[0]] + rs[1..];
      if rs[0].sensorId == id then [rs[0]] + ReadingsOf(rs[1..], id)
      else ReadingsOf(rs[1..], id)
  }

  /** The readings whose sensor id is not in `ids`, in table order. */
  function ReadingsNotIn(rs: seq<Reading>, ids: set<string>): (r: seq<Reading>)
    ensures |r| <= |rs|
    ensures forall x :: x in r <==> x in rs && x.sensorId !in ids
    ensures ids == {} ==> r == rs
  {
    if |rs| == 0 then []
    else if rs[0].sensorId in ids then ReadingsNotIn(rs[1..], ids)
    else [rs[0]] + ReadingsNotIn(rs[1..], ids)
  }

  /** The readings no older than `cutoff` (timestamp >= cutoff), in table order. */
  function ReadingsSince(rs: seq<Reading>, cutoff: int): (r: seq<Reading>)
    ensures |r| <= |rs|
    ensures forall x :: x in r <==> x in rs && x.timestamp >= cutoff
  {
    if |rs| == 0 then []
    else if rs[0].timestamp >= cutoff then [rs[0]] + ReadingsSince(rs[1..], cutoff)
    else ReadingsSince(rs[1..], cutoff)
  }

  /** The number of readings that belong to sensor `id`. */
  function CountFor(rs: seq<Reading>, id: string): nat
  {
    |ReadingsOf(rs, id)|
  }

  // ---------------------------------------------------------------------
  // ORDER BY timestamp DESC, LIMIT ? OFFSET ?

  predicate NewestFirst(rs: seq<Reading>)
  {
    forall i, j :: 0 <= i < j < |rs| ==> rs[i].timestamp >= rs[j].timestamp
  }

  function InsertNewestFirst(x: Reading, rs: seq<Reading>): (r: seq<Reading>)
    requires NewestFirst(rs)
    ensures NewestFirst(r)
    ensures multiset(r) == multiset(rs) + multiset{x}
    ensures |r| == |rs| + 1
  {
    if |rs| == 0 then [x]
    else if x.timestamp >= rs[0].timestamp then
      ConsNewestFirst(x, rs);
      [x] + rs
    else
      var tail := InsertNewestFirst(x, rs[1..]);
      assert rs == [rs[0]] + rs[1..];
      BoundedBy(rs[0].timestamp, x, rs[1..], tail);
      ConsNewestFirst(rs[0], tail);
      [rs[0]] + tail
  }

  lemma ConsNewestFirst(h: Reading, rs: seq<Reading>)
    requires NewestFirst(rs)
    requires forall k :: 0 <= k < |rs| ==> rs[k].timestamp <= h.timestamp
    ensures NewestFirst([h] + rs)
  {
    var r := [h] + rs;
    forall i, j | 0 <= i < j < |r|
      ensures r[i].timestamp >= r[j].timestamp
    {
      if i > 0 {
        assert r[i] == rs[i - 1] && r[j] == rs[j - 1];
      }
    }
  }

  /** A permutation of `rest` plus `x` keeps every timestamp bound that
      `rest` and `x` meet. */
  lemma BoundedBy(t: int, x: Reading, rest: seq<Reading>, r: seq<Reading>)
    requires NewestFirst(rest) && x.timestamp <= t
    requires forall k :: 0 <= k < |rest| ==> rest[k].timestamp <= t
    requires multiset(r) == multiset(rest) + multiset{x}
    ensures forall k :: 0 <= k < |r| ==> r[k].timestamp <= t
  {
    forall k | 0 <= k < |r|
      ensures r[k].timestamp <= t
    {
      assert r[k] in multiset(r);
      if r[k] != x {
        assert r[k] in multiset(rest);
        var m :| 0 <= m < |rest| && rest[m] == r[k];
      }
    }
  }

  /** The rows ordered by timestamp, newest first; rows with equal
      timestamps keep table order. */
  function SortNewestFirst(rs: seq<Reading>): (r: seq<Reading>)
    ensures NewestFirst(r)
    ensures multiset(r) == multiset(rs)
    ensures |r| == |rs|
  {
    if |rs| == 0 then []
    else
      assert rs == [rs[0]] + rs[1..];
      InsertNewestFirst(rs[0], SortNewestFirst(rs[1..]))
  }

  /** `LIMIT limit OFFSET offset` over an ordered result. */
  function Page<T>(rows: seq<T>, limit: nat, offset: nat): (r: seq<T>)
    ensures |r| <= limit
    ensures offset <= |rows| ==> |r| == if |rows| - offset < limit then |rows| - offset else limit
    ensures offset >= |rows| ==> r == []
    ensures forall k :: 0 <= k < |r| ==> r[k] == rows[offset + k]
  {
    if offset >= |rows| then []
    else if |rows| - offset <= limit then rows[offset..]
    else rows[offset..offset + limit]
  }

  /** A page of a newest-first list is newest first and made of its rows;
      from offset 0 a page that fits is the whole list. */
  lemma PageOfNewestFirst(rows: seq<Reading>, limit: nat, offset: nat)
    requires NewestFirst(rows)
    ensures NewestFirst(Page(rows, limit, offset))
    ensures forall x :: x in Page(rows, limit, offset) ==> x in multiset(rows)
    ensures offset == 0 && |rows| <= limit ==> Page(rows, limit, offset) == rows
  {
    var page := Page(rows, limit, offset);
    forall x | x in page ensures x in multiset(rows) {
      var k :| 0 <= k < |page| && page[k] == x;
      assert rows[offset + k] == x;
    }
  }

  // ---------------------------------------------------------------------
  // The UPDATE statement of sensorOperations.update

  /** `keys.map(key => `${key} = ?`)`. */
  function Assignments(keys: seq<string>): (a: seq<string>)
    ensures |a| == |keys|
    ensures forall i :: 0 <= i < |keys| ==> a[i] == keys[i] + " = ?"
  {
    if |keys| == 0 then [] else [keys[0] + " = ?"] + Assignments(keys[1..])
  }

  /** `keys.map(key => `${key} = ?`).join(", ")`. */
  function SetClause(keys: seq<string>): string
  {
    Strings.Join(Assignments(keys), ", ")
  }

  /** The statement text prepared by update (white space collapsed). */
  function UpdateSql(keys: seq<string>): string
  {
    UpdateHead + SetClause(keys) + UpdateTail
  }

  function Keys(updates: seq<(string, JsVal)>): (ks: seq<string>)
    ensures |ks| == |updates|
    ensures forall i :: 0 <= i < |updates| ==> ks[i] == updates[i].0
  {
    if |updates| == 0 then [] else [updates[0].0] + Keys(updates[1..])
  }

  /** `[...Object.values(updates), sensor_id]`: the values in key order,
      then the sensor id for the WHERE clause. */
  function UpdateBindings(updates: seq<(string, JsVal)>, sensorId: string): (b: seq<JsVal>)
    ensures |b| == |updates| + 1
    ensures forall i :: 0 <= i < |updates| ==> b[i] == updates[i].1
    ensures b[|updates|] == JsStr(sensorId)
  {
    if |updates| == 0 then [JsStr(sensorId)]
    else [updates[0].1] + UpdateBindings(updates[1..], sensorId)
  }

  function CountChar(s: string, c: char): nat
  {
    if |s| == 0 then 0 else (if s[0] == c then 1 else 0) + CountChar(s[1..], c)
  }

  lemma {:induction false} CountCharAppend(a: string, b: string, c: char)
    ensures CountChar(a + b, c) == CountChar(a, c) + CountChar(b, c)
  {
    if |a| > 0 {
      assert (a + b)[0] == a[0];
      assert (a + b)[1..] == a[1..] + b;
      CountCharAppend(a[1..], b, c);
    } else {
      assert a + b == b;
    }
  }

  lemma {:induction false} CountCharAbsent(s: string, c: char)
    requires c !in s
    ensures CountChar(s, c) == 0
  {
    if |s| > 0 {
      assert s[0] != c;
      assert forall k :: 0 <= k < |s[1..]| ==> s[1..][k] == s[k + 1];
      CountCharAbsent(s[1..], c);
    }
  }

  /** `k = ?` holds one placeholder more than `k`. */
  lemma AssignmentPlaceholder(k: string, tail: string)
    requires '?' !in tail
    ensures CountChar(k + " = ?" + tail, '?') == CountChar(k, '?') + 1
  {
    assert k + " = ?" + tail == k + " = " + "?" + tail;
    CountCharAppend(k + " = " + "?", tail, '?');
    CountCharAppend(k + " = ", "?", '?');
    CountCharAppend(k, " = ", '?');
    CountCharAbsent(" = ", '?');
    CountCharAbsent(tail, '?');
    assert CountChar("?", '?') == 1 by { assert "?"[1..] == ""; }
  }

  /** Each key contributes exactly one placeholder to the SET clause. */
  lemma {:induction false} SetClausePlaceholders(keys: seq<string>)
    requires forall i :: 0 <= i < |keys| ==> CountChar(keys[i], '?') == 0
    ensures CountChar(SetClause(keys), '?') == |keys|
  {
    var a := Assignments(keys);
    if |keys| == 1 {
      AssignmentPlaceholder(keys[0], "");
      assert keys[0] + " = ?" + "" == keys[0] + " = ?";
    } else if |keys| > 1 {
      assert a[1..] == Assignments(keys[1..]);
      SetClausePlaceholders(keys[1..]);
      AssignmentPlaceholder(keys[0], ", ");
      CountCharAppend(keys[0] + " = ?" + ", ", SetClause(keys[1..]), '?');
    }
  }

  const UpdateHead: string := "UPDATE sensors SET "
  const UpdateStamp: string := ", updated_at = CURRENT_TIMESTAMP"
  const UpdateWhere: string := UpdateStamp + " WHERE sensor_id"
  const UpdateTail: string := UpdateWhere + " = ?"

  lemma UpdateHeadPlaceholders()
    ensures CountChar(UpdateHead, '?') == 0
  {
    CountCharAbsent(UpdateHead, '?');
  }

  lemma UpdateWherePlaceholders()
    ensures CountChar(UpdateWhere, '?') == 0
  {
    assert '?' !in UpdateStamp;
    assert '?' !in " WHERE sensor_id";
    CountCharAbsent(UpdateWhere, '?');
  }

  lemma UpdateTailPlaceholders()
    ensures CountChar(UpdateTail, '?') == 1
  {
    UpdateWherePlaceholders();
    AssignmentPlaceholder(UpdateWhere, "");
    assert UpdateTail == UpdateWhere + " = ?" + "";
  }

  /** The prepared statement has one placeholder per key plus one for the
      sensor id, which is exactly the number of values bound to it. */
  lemma UpdatePlaceholdersMatchBindings(updates: seq<(string, JsVal)>, sensorId: string)
    requires forall i :: 0 <= i < |updates| ==> CountChar(updates[i].0, '?') == 0
    ensures CountChar(UpdateSql(Keys(updates)), '?') == |updates| + 1
    ensures |UpdateBindings(updates, sensorId)| == CountChar(UpdateSql(Keys(updates)), '?')
  {
    var ks := Keys(updates);
    assert forall i :: 0 <= i < |ks| ==> CountChar(ks[i], '?') == 0;
    UpdateSqlPlaceholders(ks);
  }

  lemma UpdateSqlPlaceholders(ks: seq<string>)
    requires forall i :: 0 <= i < |ks| ==> CountChar(ks[i], '?') == 0
    ensures CountChar(UpdateSql(ks), '?') == |ks| + 1
  {
    SetClausePlaceholders(ks);
    UpdateHeadPlaceholders();
    UpdateTailPlaceholders();
    StatementPlaceholders(UpdateHead, SetClause(ks), UpdateTail);
  }

  /** Placeholders of a statement built from three pieces. */
  lemma StatementPlaceholders(head: string, clause: string, tail: string)
    ensures CountChar(head + clause + tail, '?') == CountChar(head, '?') + CountChar(clause, '?') + CountChar(tail, '?')
  {
    CountCharAppend(head, clause, '?');
    CountCharAppend(head + clause, tail, '?');
  }

  /** The name SQLite resolves a key to: identifiers match regardless of
      the case of ASCII letters, so `Location` names the column location. */
  function ColumnName(key: string): string
  {
    Strings.ToLower(key)
  }

  /** `rowid`, `oid` and `_rowid_` name the hidden row id of `sensors`,
      whose primary key is TEXT and so not an alias of it. */
  predicate IsRowIdAlias(c: string)
  {
    c == "rowid" || c == "oid" || c == "_rowid_"
  }

  /** A key SQLite accepts as a column of `sensors`: one of its eight
      columns, in any ASCII case, or a row id alias. */
  predicate IsColumn(key: string)
  {
    var c := ColumnName(key);
    || c == "sensor_id" || c == "location" || c == "type" || c == "status"
    || c == "calibration_min" || c == "calibration_max" || c == "created_at" || c == "updated_at"
    || IsRowIdAlias(c)
  }

  /** What better-sqlite3 can bind: null, a number or a string. */
  predicate Bindable(v: JsVal)
  {
    v.JsNull? || v.JsNum? || v.JsStr?
  }

  /** Errors raised before any row is looked at. Preparing the statement
      fails on an empty SET list ("SET , updated_at") and on a key that is
      not a column; binding then fails on a value that is not null, a
      number or a string. */
  function CheckUpdate(updates: seq<(string, JsVal)>): (r: Result<(), DbError>)
    ensures r == Err(SyntaxError) <==> |updates| == 0
    ensures r == Err(NoSuchColumn) <==>
      |updates| > 0 && exists i :: 0 <= i < |updates| && !IsColumn(updates[i].0)
    ensures r == Err(BindFailure) <==>
      && |updates| > 0 && (forall i :: 0 <= i < |updates| ==> IsColumn(updates[i].0))
      && exists i :: 0 <= i < |updates| && !Bindable(updates[i].1)
    ensures r.Ok? || r == Err(SyntaxError) || r == Err(NoSuchColumn) || r == Err(BindFailure)
  {
    if |updates| == 0 then Err(SyntaxError)
    else if exists i :: 0 <= i < |updates| && !IsColumn(updates[i].0) then Err(NoSuchColumn)
    else if exists i :: 0 <= i < |updates| && !Bindable(updates[i].1) then Err(BindFailure)
    else Ok(())
  }

  /** The value given to column `k` (a lower-case name) by the rightmost
      assignment whose key resolves to it (SQLite ignores the earlier
      ones), or None. */
  function Assigned(updates: seq<(string, JsVal)>, k: string): Option<JsVal>
  {
    if |updates| == 0 then None
    else
      var rest := Assigned(updates[1..], k);
      if rest.Some? then rest
      else if ColumnName(updates[0].0) == k then Some(updates[0].1)
      else None
  }

  /** Assigned finds the rightmost assignment of the column, and none
      exactly when no assignment names it. */
  lemma {:induction false} AssignedSpec(updates: seq<(string, JsVal)>, k: string)
    ensures Assigned(updates, k).None? <==> forall i :: 0 <= i < |updates| ==> ColumnName(updates[i].0) != k
    ensures Assigned(updates, k).Some? ==>
      exists i ::
        && 0 <= i < |updates| && ColumnName(updates[i].0) == k && updates[i].1 == Assigned(updates, k).value
        && forall j :: i < j < |updates| ==> ColumnName(updates[j].0) != k
  {
    if |updates| > 0 {
      var tail := updates[1..];
      AssignedSpec(tail, k);
      assert forall i :: 0 <= i < |tail| ==> tail[i] == updates[i + 1];
      if Assigned(tail, k).Some? {
        var i :| 0 <= i < |tail| && ColumnName(tail[i].0) == k && tail[i].1 == Assigned(tail, k).value
          && forall j :: i < j < |tail| ==> ColumnName(tail[j].0) != k;
        assert updates[i + 1] == tail[i];
      }
    }
  }

  /** A key in another case names the same column: `{"Location": "Barn"}`
      passes both checks and assigns location. */
  lemma CaseVariantAssigns()
    ensures CheckUpdate([("Location", JsStr("Barn"))]) == Ok(())
    ensures Assigned([("Location", JsStr("Barn"))], "location") == Some(JsStr("Barn"))
  {
    var u := [("Location", JsStr("Barn"))];
    assert ColumnName("Location") == "location" by {
      assert "Location" == ['L'] + "ocation";
    }
    assert IsColumn(u[0].0) && Bindable(u[0].1);
    assert u[1..] == [];
  }

  /** Every assigned value is one of the bound values. */
  lemma {:induction false} AssignedBindable(updates: seq<(string, JsVal)>, k: string)
    requires forall i :: 0 <= i < |updates| ==> Bindable(updates[i].1)
    ensures Assigned(updates, k).Some? ==> Bindable(Assigned(updates, k).value)
  {
    if |updates| > 0 {
      assert forall i :: 0 <= i < |updates| - 1 ==> updates[1..][i] == updates[i + 1];
      AssignedBindable(updates[1..], k);
    }
  }

  /** A nullable TEXT cell and a nullable REAL cell as the JSON values
      that write them. */
  function TextCell(v: Option<string>): JsVal
  {
    if v.Some? then JsStr(v.value) else JsNull
  }

  function RealCell(v: Option<real>): JsVal
  {
    if v.Some? then JsNum(v.value) else JsNull
  }

  /** A value the typed row cannot hold, although SQLite stores it: by type
      affinity a number in a TEXT column is stored as text and a string in a
      REAL column as text or a number; a NULL sensor_id is accepted by the
      (non-integer) primary key; created_at is a datetime string; the row
      id is not part of the typed row. */
  predicate Unrepresentable(updates: seq<(string, JsVal)>)
  {
    || (Assigned(updates, "sensor_id").Some? && !Assigned(updates, "sensor_id").value.JsStr?)
    || (Assigned(updates, "location").Some? && Assigned(updates, "location").value.JsNum?)
    || (Assigned(updates, "type").Some? && Assigned(updates, "type").value.JsNum?)
    || (Assigned(updates, "status").Some? && Assigned(updates, "status").value.JsNum?)
    || (Assigned(updates, "calibration_min").Some? && Assigned(updates, "calibration_min").value.JsStr?)
    || (Assigned(updates, "calibration_max").Some? && Assigned(updates, "calibration_max").value.JsStr?)
    || Assigned(updates, "created_at").Some?
    || Assigned(updates, "rowid").Some? || Assigned(updates, "oid").Some? || Assigned(updates, "_rowid_").Some?
  }

  /** The row after the UPDATE of a bindable, all-column SET list: each
      column takes the value of its rightmost assignment and updated_at
      becomes now (the trailing `updated_at = CURRENT_TIMESTAMP` overrides a
      client's updated_at). NULL in location or type violates NOT NULL. */
  function ApplyUpdates(s: Sensor, updates: seq<(string, JsVal)>, now: int): (r: Result<Sensor, DbError>)
    requires CheckUpdate(updates).Ok?
    ensures r == Err(NotNullViolation) <==>
      Assigned(updates, "location") == Some(JsNull) || Assigned(updates, "type") == Some(JsNull)
    ensures r == Err(NotRepresented) <==> !(r == Err(NotNullViolation)) && Unrepresentable(updates)
    ensures r.Err? ==> r == Err(NotNullViolation) || r == Err(NotRepresented)
    ensures r.Ok? ==> r.value.createdAt == s.createdAt && r.value.updatedAt == now
    ensures r.Ok? ==> Assigned(updates, "sensor_id").None? ==> r.value.sensorId == s.sensorId
    ensures r.Ok? ==> Assigned(updates, "sensor_id").Some? ==> Assigned(updates, "sensor_id") == Some(JsStr(r.value.sensorId))
    ensures r.Ok? ==> Assigned(updates, "location").None? ==> r.value.location == s.location
    ensures r.Ok? ==> Assigned(updates, "location").Some? ==> Assigned(updates, "location") == Some(JsStr(r.value.location))
    ensures r.Ok? ==> Assigned(updates, "type").None? ==> r.value.sensorType == s.sensorType
    ensures r.Ok? ==> Assigned(updates, "type").Some? ==> Assigned(updates, "type") == Some(JsStr(r.value.sensorType))
    ensures r.Ok? ==> Assigned(updates, "status").None? ==> r.value.status == s.status
    ensures r.Ok? ==> Assigned(updates, "status").Some? ==> Assigned(updates, "status") == Some(TextCell(r.value.status))
    ensures r.Ok? ==> Assigned(updates, "calibration_min").None? ==> r.value.calibrationMin == s.calibrationMin
    ensures r.Ok? ==> Assigned(updates, "calibration_min").Some? ==>
      Assigned(updates, "calibration_min") == Some(RealCell(r.value.calibrationMin))
    ensures r.Ok? ==> Assigned(updates, "calibration_max").None? ==> r.value.calibrationMax == s.calibrationMax
    ensures r.Ok? ==> Assigned(updates, "calibration_max").Some? ==>
      Assigned(updates, "calibration_max") == Some(RealCell(r.value.calibrationMax))
  {
    AssignedBindable(updates, "location");
    AssignedBindable(updates, "type");
    AssignedBindable(updates, "status");
    AssignedBindable(updates, "calibration_min");
    AssignedBindable(updates, "calibration_max");
    var id, loc, typ := Assigned(updates, "sensor_id"), Assigned(updates, "location"), Assigned(updates, "type");
    var st, lo, hi := Assigned(updates, "status"), Assigned(updates, "calibration_min"), Assigned(updates, "calibration_max");
    if loc == Some(JsNull) || typ == Some(JsNull) then Err(NotNullViolation)
    else if Unrepresentable(updates) then Err(NotRepresented)
    else
      Ok(Sensor(
        if id.Some? then id.value.s else s.sensorId,
        if loc.Some? then loc.value.s else s.location,
        if typ.Some? then typ.value.s else s.sensorType,
        if lo.Some? then (if lo.value.JsNum? then Some(lo.value.n) else None) else s.calibrationMin,
        if hi.Some? then (if hi.value.JsNum? then Some(hi.value.n) else None) else s.calibrationMax,
        if st.Some? then (if st.value.JsStr? then Some(st.value.s) else None) else s.status,
        s.createdAt,
        now))
  }

  /** The table with the row of `id` replaced by `row`. */
  function ReplaceSensor(ss: seq<Sensor>, id: string, row: Sensor): (r: seq<Sensor>)
    ensures |r| == |ss|
    ensures forall i :: 0 <= i < |ss| ==> r[i] == if ss[i].sensorId == id then row else ss[i]
  {
    if |ss| == 0 then []
    else [if ss[0].sensorId == id then row else ss[0]] + ReplaceSensor(ss[1..], id, row)
  }

  // ---------------------------------------------------------------------
  // The sensor list of sensorOperations.getAll

  /** A row of getAll: the sensor's columns, the latest reading's columns
      (latest_moisture, latest_temperature, latest_humidity,
      latest_timestamp) and readings_count. */
  datatype SensorRow = SensorRow(
    sensor: Sensor,
    latestMoisture: Option<real>,
    latestTemperature: Option<real>,
    latestHumidity: Option<real>,
    latestTimestamp: Option<int>,
    readingsCount: nat)

  /** The newest of `rs` (the last in table order among equal timestamps). */
  function Latest(rs: seq<Reading>): (r: Option<Reading>)
    ensures r.None? <==> |rs| == 0
    ensures r.Some? ==> r.value in rs && forall x :: x in rs ==> x.timestamp <= r.value.timestamp
  {
    if |rs| == 0 then None
    else
      match Latest(rs[1..])
      case None => Some(rs[0])
      case Some(t) =>
        assert rs == [rs[0]] + rs[1..];
        if rs[0].timestamp > t.timestamp then Some(rs[0]) else Some(t)
  }

  /** How many of `rs` carry timestamp `t`. */
  function CountAt(rs: seq<Reading>, t: int): nat
  {
    if |rs| == 0 then 0 else (if rs[0].timestamp == t then 1 else 0) + CountAt(rs[1..], t)
  }

  /** The getAll row of one sensor as the SQL computes it: the LEFT JOIN on
      `md.timestamp = MAX(timestamp)` matches every reading at the latest
      timestamp, and the second LEFT JOIN multiplies that match by all the
      sensor's readings before COUNT(md2.id). */
  function RowAsWritten(s: Sensor, rs: seq<Reading>): (row: SensorRow)
    ensures row.sensor == s
    ensures row.readingsCount >= CountFor(rs, s.sensorId)
    ensures row.readingsCount == 0 <==> CountFor(rs, s.sensorId) == 0
    ensures row.latestMoisture.Some? <==> CountFor(rs, s.sensorId) > 0
  {
    var mine := ReadingsOf(rs, s.sensorId);
    match Latest(mine)
    case None => SensorRow(s, None, None, None, None, 0)
    case Some(l) =>
      CountAtMember(mine, l);
      var atLatest := CountAt(mine, l.timestamp);
      JoinRowsAtLeast(atLatest, |mine|);
      SensorRow(s, Some(l.moistureValue), l.temperature, l.humidity, Some(l.timestamp), JoinRows(atLatest, |mine|))
  }

  /** The rows of a join that pairs each of `matches` rows with all `n`
      rows of the other side: `matches * n`, written as a sum. */
  function JoinRows(matches: nat, n: nat): (r: nat)
    ensures matches == 1 ==> r == n
  {
    if matches == 0 then 0 else n + JoinRows(matches - 1, n)
  }

  /** With at least one match, the join keeps every row of the other side. */
  lemma JoinRowsAtLeast(matches: nat, n: nat)
    requires matches >= 1
    ensures JoinRows(matches, n) >= n
  {
  }

  lemma {:induction false} CountAtMember(rs: seq<Reading>, x: Reading)
    requires x in rs
    ensures CountAt(rs, x.timestamp) >= 1
  {
    if rs[0] != x {
      CountAtMember(rs[1..], x);
    }
  }

  lemma {:induction false} CountAtDistinct(rs: seq<Reading>, t: int)
    requires DistinctTimestamps(rs)
    ensures CountAt(rs, t) <= 1
  {
    if |rs| > 0 {
      var tail := rs[1..];
      assert forall i :: 0 <= i < |tail| ==> tail[i] == rs[i + 1];
      if rs[0].timestamp == t {
        CountAtAbsent(tail, t);
      } else {
        CountAtDistinct(tail, t);
      }
    }
  }

  lemma {:induction false} CountAtAbsent(rs: seq<Reading>, t: int)
    requires forall k :: 0 <= k < |rs| ==> rs[k].timestamp != t
    ensures CountAt(rs, t) == 0
  {
    if |rs| > 0 {
      assert forall k :: 0 <= k < |rs| - 1 ==> rs[1..][k] == rs[k + 1];
      CountAtAbsent(rs[1..], t);
    }
  }

  /** No two of `rs` were stored in the same second. */
  predicate DistinctTimestamps(rs: seq<Reading>)
  {
    forall i, j :: 0 <= i < j < |rs| ==> rs[i].timestamp != rs[j].timestamp
  }

  /** The getAll row with readings_count the number of the sensor's readings. */
  function Row(s: Sensor, rs: seq<Reading>): (row: SensorRow)
    ensures row.sensor == s
    ensures row.readingsCount == CountFor(rs, s.sensorId)
    ensures row.latestMoisture.Some? <==> CountFor(rs, s.sensorId) > 0
    ensures row.latestMoisture.Some? ==>
      exists x :: x in rs && x.sensorId == s.sensorId && x.moistureValue == row.latestMoisture.value
        && forall y :: y in rs && y.sensorId == s.sensorId ==> y.timestamp <= x.timestamp
  {
    var mine := ReadingsOf(rs, s.sensorId);
    match Latest(mine)
    case None => SensorRow(s, None, None, None, None, 0)
    case Some(l) =>
      SensorRow(s, Some(l.moistureValue), l.temperature, l.humidity, Some(l.timestamp), |mine|)
  }

  /** The SQL's row and the corrected row agree on everything but
      readings_count, and agree on that too when no two of the sensor's
      readings share a second. */
  lemma RowAsWrittenVersusRow(s: Sensor, rs: seq<Reading>)
    ensures RowAsWritten(s, rs).(readingsCount := 0) == Row(s, rs).(readingsCount := 0)
    ensures DistinctTimestamps(ReadingsOf(rs, s.sensorId)) ==> RowAsWritten(s, rs) == Row(s, rs)
  {
    var mine := ReadingsOf(rs, s.sensorId);
    match Latest(mine)
    case None =>
    case Some(l) =>
      if DistinctTimestamps(mine) {
        CountAtMember(mine, l);
        CountAtDistinct(mine, l.timestamp);
        assert JoinRows(CountAt(mine, l.timestamp), |mine|) == |mine|;
      }
  }

  /** getAll as the SQL computes it: every sensor's row, ORDER BY
      created_at DESC (newest table entry first). */
  function AllRows(ss: seq<Sensor>, rs: seq<Reading>): (rows: seq<SensorRow>)
    ensures |rows| == |ss|
    ensures forall i :: 0 <= i < |ss| ==> rows[i] == RowAsWritten(ss[|ss| - 1 - i], rs)
  {
    seq(|ss|, i requires 0 <= i < |ss| => RowAsWritten(ss[|ss| - 1 - i], rs))
  }

  /** getAll as evidently intended: readings_count is the number of readings. */
  function IntendedAllRows(ss: seq<Sensor>, rs: seq<Reading>): (rows: seq<SensorRow>)
    ensures |rows| == |ss|
    ensures forall i :: 0 <= i < |ss| ==> rows[i] == Row(ss[|ss| - 1 - i], rs)
  {
    seq(|ss|, i requires 0 <= i < |ss| => Row(ss[|ss| - 1 - i], rs))
  }

  /** Without two readings of one sensor in the same second, the SQL
      computes the intended list. */
  lemma AllRowsWithoutTies(ss: seq<Sensor>, rs: seq<Reading>)
    requires forall s :: s in ss ==> DistinctTimestamps(ReadingsOf(rs, s.sensorId))
    ensures AllRows(ss, rs) == IntendedAllRows(ss, rs)
  {
    forall i | 0 <= i < |ss|
      ensures AllRows(ss, rs)[i] == IntendedAllRows(ss, rs)[i]
    {
      RowAsWrittenVersusRow(ss[|ss| - 1 - i], rs);
    }
  }

  /** Two readings of one sensor at the same second: the SQL of getAll
      reports four readings instead of two. */
  lemma ReadingsCountAsWrittenOvercounts(s: Sensor, a: Reading, b: Reading)
    requires a.sensorId == s.sensorId && b.sensorId == s.sensorId
    requires a.timestamp == b.timestamp
    ensures CountFor([a, b], s.sensorId) == 2
    ensures RowAsWritten(s, [a, b]).readingsCount == 4
    ensures Row(s, [a, b]).readingsCount == 2
  {
    assert ReadingsOf([a, b], s.sensorId) == [a, b] by {
      assert [a, b][1..] == [b];
      assert ReadingsOf([b], s.sensorId) == [b] by { assert [b][1..] == []; }
    }
    assert CountAt([a, b], a.timestamp) == 2 by {
      assert [a, b][1..] == [b];
      assert CountAt([b], a.timestamp) == 1 by { assert [b][1..] == []; }
    }
  }

  // ---------------------------------------------------------------------
  // The store

  class Store {
    var sensors: seq<Sensor>
    var readings: seq<Reading>
    /** The next id AUTOINCREMENT hands out; ids are never reused. */
    var nextReadingId: nat

    ghost predicate Valid()
      reads this
    {
      && UniqueSensorIds(sensors)
      && ReadingsReferenceSensors(sensors, readings)
      && (forall i :: 0 <= i < |readings| ==> readings[i].id < nextReadingId)
    }

    constructor ()
      ensures Valid()
      ensures sensors == [] && readings == [] && nextReadingId == 1
    {
      sensors := [];
      readings := [];
      nextReadingId := 1;
    }

    /** sensorOperations.create: INSERT of the six given columns; the
        timestamps take their default, CURRENT_TIMESTAMP. A second insert of
        an existing sensor_id fails on the primary key. */
    method CreateSensor(s: NewSensor, now: int, fault: bool) returns (r: Result<(), DbError>)
      requires Valid()
      modifies this
      ensures Valid()
      ensures readings == old(readings) && nextReadingId == old(nextReadingId)
      ensures fault ==> r == Err(StorageFailure)
      ensures !fault && HasSensor(old(sensors), s.sensorId) ==> r == Err(PrimaryKeyViolation)
      ensures r.Err? ==> sensors == old(sensors)
      ensures r.Ok? <==> !fault && !HasSensor(old(sensors), s.sensorId)
      ensures r.Ok? ==> sensors == old(sensors) + [Sensor(s.sensorId, s.location, s.sensorType,
        Some(s.calibrationMin), Some(s.calibrationMax), Some(s.status), now, now)]
    {
      if fault {
        return Err(StorageFailure);
      }
      if FindSensor(sensors, s.sensorId).Some? {
        return Err(PrimaryKeyViolation);
      }
      var row := Sensor(s.sensorId, s.location, s.sensorType,
        Some(s.calibrationMin), Some(s.calibrationMax), Some(s.status), now, now);
      AddSensorKeepsReferences(sensors, readings, row);
      sensors := sensors + [row];
      r := Ok(());
    }

    /** sensorOperations.getById. */
    function GetById(id: string): (r: Option<Sensor>)
      reads this
      ensures r.Some? <==> HasSensor(sensors, id)
      ensures r.Some? ==> r.value in sensors && r.value.sensorId == id
    {
      FindSensor(sensors, id)
    }

    /** sensorOperations.getAll: one row per sensor, newest table entry
        first, with the latest reading's columns and the SQL's
        readings_count. */
    function GetAll(): (rows: seq<SensorRow>)
      reads this
      ensures rows == AllRows(sensors, readings)
      ensures |rows| == |sensors|
      ensures forall i :: 0 <= i < |rows| ==> rows[i].sensor == sensors[|sensors| - 1 - i]
      ensures forall i :: 0 <= i < |rows| ==> rows[i].readingsCount >= CountFor(readings, rows[i].sensor.sensorId)
      ensures forall i :: 0 <= i < |rows| ==>
        (rows[i].latestMoisture.Some? <==> CountFor(readings, rows[i].sensor.sensorId) > 0)
    {
      AllRows(sensors, readings)
    }

    /** sensorOperations.update: returns the number of changed rows (0 when
        no sensor has that id). Only that row changes, possibly under a new
        sensor_id; renaming onto another sensor's id fails on the primary
        key, and renaming a sensor that has readings fails on the foreign
        key, which SQLite checks at the end of the statement. Preparing and
        binding fail before any row is looked at. */
    method Update(id: string, updates: seq<(string, JsVal)>, now: int, fault: bool)
      returns (r: Result<nat, DbError>)
      requires Valid()
      modifies this
      ensures Valid()
      ensures readings == old(readings) && nextReadingId == old(nextReadingId)
      ensures r.Err? ==> sensors == old(sensors)
      ensures fault ==> r == Err(StorageFailure)
      ensures !fault && CheckUpdate(updates).Err? ==> r == Err(CheckUpdate(updates).error)
      ensures r == Ok(0) <==> !fault && CheckUpdate(updates).Ok? && !HasSensor(old(sensors), id)
      ensures r == Ok(0) ==> sensors == old(sensors)
      ensures r.Ok? ==> r == Ok(0) || r == Ok(1)
      ensures !fault && CheckUpdate(updates).Ok? && HasSensor(old(sensors), id) ==>
        var applied := ApplyUpdates(FindSensor(old(sensors), id).value, updates, now);
        && (applied.Err? ==> r == Err(applied.error))
        && (applied.Ok? && applied.value.sensorId != id && HasSensor(old(sensors), applied.value.sensorId) ==>
              r == Err(PrimaryKeyViolation))
        && ((applied.Ok? && applied.value.sensorId != id && !HasSensor(old(sensors), applied.value.sensorId)
              && CountFor(old(readings), id) > 0) ==> r == Err(ForeignKeyViolation))
        && (applied.Ok? && (applied.value.sensorId == id
              || (!HasSensor(old(sensors), applied.value.sensorId) && CountFor(old(readings), id) == 0)) ==>
              r == Ok(1) && sensors == ReplaceSensor(old(sensors), id, applied.value))
    {
      if fault {
        return Err(StorageFailure);
      }
      var checked := CheckUpdate(updates);
      if checked.Err? {
        return Err(checked.error);
      }
      var found := FindSensor(sensors, id);
      if found.None? {
        return Ok(0);
      }
      var applied := ApplyUpdates(found.value, updates, now);
      if applied.Err? {
        return Err(applied.error);
      }
      var row := applied.value;
      if row.sensorId != id && FindSensor(sensors, row.sensorId).Some? {
        return Err(PrimaryKeyViolation);
      }
      if row.sensorId != id && CountFor(readings, id) > 0 {
        return Err(ForeignKeyViolation);
      }
      ReplaceKeepsUnique(sensors, id, row);
      ReplaceKeepsReferences(sensors, readings, id, row);
      sensors := ReplaceSensor(sensors, id, row);
      r := Ok(1);
    }

    /** sensorOperations.delete, also the cleanup script's
        `DELETE FROM sensors WHERE sensor_id = ?`: removes only that sensor
        and reports how many rows went (0 or 1). A sensor that still has
        readings cannot go: the foreign key fails the statement. */
    method DeleteSensor(id: string, fault: bool) returns (r: Result<nat, DbError>)
      requires Valid()
      modifies this
      ensures Valid()
      ensures readings == old(readings) && nextReadingId == old(nextReadingId)
      ensures fault ==> r == Err(StorageFailure) && sensors == old(sensors)
      ensures !fault && CountFor(old(readings), id) > 0 ==>
        r == Err(ForeignKeyViolation) && sensors == old(sensors)
      ensures !fault && CountFor(old(readings), id) == 0 ==> sensors == SensorsNotIn(old(sensors), {id})
      ensures !fault && CountFor(old(readings), id) == 0 ==> r == Ok(|old(sensors)| - |sensors|)
      ensures !fault && CountFor(old(readings), id) == 0 ==> r == Ok(if HasSensor(old(sensors), id) then 1 else 0)
    {
      if fault {
        return Err(StorageFailure);
      }
      if CountFor(readings, id) > 0 {
        return Err(ForeignKeyViolation);
      }
      var before := sensors;
      NoReadingsOf(readings, id);
      SensorsNotInKeepsReferences(before, readings, {id});
      sensors := SensorsNotIn(sensors, {id});
      SensorsNotInUnique(before, {id});
      RemoveOneSensor(before, id);
      r := Ok(|before| - |sensors|);
    }

    /** moistureDataOperations.create: the caller supplies neither id nor
        timestamp; the store assigns the next id and the current time.
        Returns the new row's id (lastInsertRowid). The foreign key, checked
        at the end of the statement, rejects a reading of an unknown sensor. */
    method CreateReading(data: NewReading, now: int, fault: bool) returns (r: Result<nat, DbError>)
      requires Valid()
      modifies this
      ensures Valid()
      ensures sensors == old(sensors)
      ensures fault ==> r == Err(StorageFailure)
      ensures r.Err? ==> readings == old(readings) && nextReadingId == old(nextReadingId)
      ensures !fault && ReadingRow(data, old(nextReadingId), now).Err? ==>
        r == Err(ReadingRow(data, old(nextReadingId), now).error)
      ensures !fault && ReadingRow(data, old(nextReadingId), now).Ok? && !HasSensor(sensors, data.sensorId) ==>
        r == Err(ForeignKeyViolation)
      ensures r.Ok? <==> !fault && ReadingRow(data, old(nextReadingId), now).Ok? && HasSensor(sensors, data.sensorId)
      ensures r.Ok? ==> r.value == old(nextReadingId) && nextReadingId == old(nextReadingId) + 1
      ensures r.Ok? ==> readings == old(readings) + [ReadingRow(data, old(nextReadingId), now).value]
      ensures r.Ok? ==> forall i :: 0 <= i < |old(readings)| ==> old(readings)[i].id != r.value
    {
      if fault {
        return Err(StorageFailure);
      }
      var row := ReadingRow(data, nextReadingId, now);
      if row.Err? {
        return Err(row.error);
      }
      if !HasSensor(sensors, data.sensorId) {
        return Err(ForeignKeyViolation);
      }
      readings := readings + [row.value];
      r := Ok(nextReadingId);
      nextReadingId := nextReadingId + 1;
    }

    /** The cleanup script's `DELETE FROM moisture_data WHERE sensor_id = ?`. */
    method DeleteReadingsOf(id: string, fault: bool) returns (r: Result<nat, DbError>)
      requires Valid()
      modifies this
      ensures Valid()
      ensures sensors == old(sensors) && nextReadingId == old(nextReadingId)
      ensures fault ==> r == Err(StorageFailure) && readings == old(readings)
      ensures !fault ==> readings == ReadingsNotIn(old(readings), {id})
      ensures !fault ==> r == Ok(|old(readings)| - |readings|)
    {
      if fault {
        return Err(StorageFailure);
      }
      var before := readings;
      readings := ReadingsNotIn(readings, {id});
      r := Ok(|before| - |readings|);
    }

    /** moistureDataOperations.getBySensor: that sensor's readings, newest
        first, at most `limit` of them after skipping `offset`. */
    function GetBySensor(id: string, limit: nat, offset: nat): (r: seq<Reading>)
      reads this
      ensures r == Page(SortNewestFirst(ReadingsOf(readings, id)), limit, offset)
      ensures |r| <= limit
      ensures forall x :: x in r ==> x in readings && x.sensorId == id
      ensures NewestFirst(r)
      ensures offset == 0 && CountFor(readings, id) <= limit ==>
        multiset(r) == multiset(ReadingsOf(readings, id))
    {
      var mine := ReadingsOf(readings, id);
      PageOfNewestFirst(SortNewestFirst(mine), limit, offset);
      assert forall x :: x in multiset(SortNewestFirst(mine)) ==> x in mine;
      Page(SortNewestFirst(mine), limit, offset)
    }

    /** moistureDataOperations.getRecent: readings no older than `hours`
        hours, newest first. */
    function GetRecent(hours: nat, now: int): (r: seq<Reading>)
      reads this
      ensures NewestFirst(r)
      ensures forall x :: x in r <==> x in readings && x.timestamp >= now - hours * SecondsPerHour
      ensures multiset(r) == multiset(ReadingsSince(readings, now - hours * SecondsPerHour))
    {
      var r := SortNewestFirst(ReadingsSince(readings, now - hours * SecondsPerHour));
      assert forall x :: x in r <==> x in multiset(ReadingsSince(readings, now - hours * SecondsPerHour));
      r
    }

    /** moistureDataOperations.deleteOlderThan: removes exactly the readings
        older than `days` days and reports how many. */
    method DeleteOlderThan(days: nat, now: int, fault: bool) returns (r: Result<nat, DbError>)
      requires Valid()
      modifies this
      ensures Valid()
      ensures sensors == old(sensors) && nextReadingId == old(nextReadingId)
      ensures fault ==> r == Err(StorageFailure) && readings == old(readings)
      ensures !fault ==> readings == ReadingsSince(old(readings), now - days * SecondsPerDay)
      ensures !fault ==> r == Ok(|old(readings)| - |readings|)
      ensures !fault ==> forall x :: x in old(readings) && x !in readings ==>
        x.timestamp < now - days * SecondsPerDay
    {
      if fault {
        return Err(StorageFailure);
      }
      var before := readings;
      readings := ReadingsSince(readings, now - days * SecondsPerDay);
      r := Ok(|before| - |readings|);
    }
  }

  /** Filtering keeps the primary key unique. */
  lemma {:induction false} SensorsNotInUnique(ss: seq<Sensor>, ids: set<string>)
    requires UniqueSensorIds(ss)
    ensures UniqueSensorIds(SensorsNotIn(ss, ids))
  {
    if |ss| > 0 {
      SensorsNotInUnique(ss[1..], ids);
      var tail := SensorsNotIn(ss[1..], ids);
      assert forall s :: s in tail ==> s in ss[1..];
      assert forall s :: s in ss[1..] ==> s.sensorId != ss[0].sensorId;
    }
  }

  /** A new sensor row breaks no reference. */
  lemma AddSensorKeepsReferences(ss: seq<Sensor>, rs: seq<Reading>, s: Sensor)
    requires ReadingsReferenceSensors(ss, rs)
    ensures ReadingsReferenceSensors(ss + [s], rs)
  {
    forall i | 0 <= i < |rs| ensures HasSensor(ss + [s], rs[i].sensorId) {
      assert HasSensor(ss, rs[i].sensorId);
      var j :| 0 <= j < |ss| && ss[j].sensorId == rs[i].sensorId;
      assert (ss + [s])[j] == ss[j];
    }
  }

  /** A sensor without readings can go without breaking the foreign key. */
  lemma SensorsNotInKeepsReferences(ss: seq<Sensor>, rs: seq<Reading>, ids: set<string>)
    requires ReadingsReferenceSensors(ss, rs)
    requires forall i :: 0 <= i < |rs| ==> rs[i].sensorId !in ids
    ensures ReadingsReferenceSensors(SensorsNotIn(ss, ids), rs)
  {
    forall i | 0 <= i < |rs| ensures HasSensor(SensorsNotIn(ss, ids), rs[i].sensorId) {
      assert HasSensor(ss, rs[i].sensorId);
      var j :| 0 <= j < |ss| && ss[j].sensorId == rs[i].sensorId;
      var kept := SensorsNotIn(ss, ids);
      assert ss[j] in kept;
      var k :| 0 <= k < |kept| && kept[k] == ss[j];
    }
  }

  /** After a sensor's readings are deleted, none of its readings is left. */
  lemma NoneLeftOf(rs: seq<Reading>, id: string)
    ensures CountFor(ReadingsNotIn(rs, {id}), id) == 0
  {
  }

  /** CountFor is zero exactly when no reading names the sensor. */
  lemma NoReadingsOf(rs: seq<Reading>, id: string)
    ensures CountFor(rs, id) == 0 <==> forall i :: 0 <= i < |rs| ==> rs[i].sensorId != id
  {
    var mine := ReadingsOf(rs, id);
    if |mine| > 0 {
      assert mine[0] in mine;
    }
    if exists i :: 0 <= i < |rs| && rs[i].sensorId == id {
      var i :| 0 <= i < |rs| && rs[i].sensorId == id;
      assert rs[i] in mine;
    }
  }

  /** Replacing the row of `id` keeps the primary key unique when the new
      row keeps the key or takes a key no other row has. */
  lemma ReplaceKeepsUnique(ss: seq<Sensor>, id: string, row: Sensor)
    requires UniqueSensorIds(ss)
    requires row.sensorId == id || !HasSensor(ss, row.sensorId)
    ensures UniqueSensorIds(ReplaceSensor(ss, id, row))
  {
    var ss' := ReplaceSensor(ss, id, row);
    forall i, j | 0 <= i < j < |ss'| ensures ss'[i].sensorId != ss'[j].sensorId {
      if ss[i].sensorId == id && row.sensorId != id {
        assert ss[j].sensorId != row.sensorId;
      } else if ss[j].sensorId == id && row.sensorId != id {
        assert ss[i].sensorId != row.sensorId;
      }
    }
  }

  /** Replacing the row of `id` keeps every reference when the key stays, or
      when no reading names the old key. */
  lemma ReplaceKeepsReferences(ss: seq<Sensor>, rs: seq<Reading>, id: string, row: Sensor)
    requires ReadingsReferenceSensors(ss, rs)
    requires row.sensorId == id || CountFor(rs, id) == 0
    ensures ReadingsReferenceSensors(ReplaceSensor(ss, id, row), rs)
  {
    NoReadingsOf(rs, id);
    var ss' := ReplaceSensor(ss, id, row);
    forall i | 0 <= i < |rs| ensures HasSensor(ss', rs[i].sensorId) {
      assert HasSensor(ss, rs[i].sensorId);
      var j :| 0 <= j < |ss| && ss[j].sensorId == rs[i].sensorId;
      assert ss'[j].sensorId == rs[i].sensorId;
    }
  }

  /** Deleting by primary key removes one row when the key is present and
      none otherwise. */
  lemma {:induction false} RemoveOneSensor(ss: seq<Sensor>, id: string)
    requires UniqueSensorIds(ss)
    ensures |SensorsNotIn(ss, {id})| == |ss| - (if HasSensor(ss, id) then 1 else 0)
  {
    if |ss| > 0 {
      RemoveOneSensor(ss[1..], id);
      assert HasSensor(ss, id) <==> ss[0].sensorId == id || HasSensor(ss[1..], id) by {
        if HasSensor(ss, id) && ss[0].sensorId != id {
          var i :| 0 <= i < |ss| && ss[i].sensorId == id;
          assert ss[1..][i - 1].sensorId == id;
        }
        if HasSensor(ss[1..], id) {
          var i :| 0 <= i < |ss[1..]| && ss[1..][i].sensorId == id;
          assert ss[i + 1].sensorId == id;
        }
      }
      if ss[0].sensorId == id {
        forall k | 0 <= k < |ss[1..]| ensures ss[1..][k].sensorId != id {
          assert ss[1..][k] == ss[k + 1];
        }
      }
    }
  }
}
