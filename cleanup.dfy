/** scripts/cleanup-unauthorized-sensors.js: list every sensor with its
    number of readings, split the list into authorized and unauthorized
    sensors, and, when the operator answers `y` or `yes`, delete every
    unauthorized sensor and its readings in one transaction. The
    environment variable ALLOWED_SENSORS and the operator's answer are
    parameters; the console output is not modelled. */
module Cleanup {
  import opened JsValues
  import Strings
  import Database

  const AllowedPrefixes: seq<string> := ["ESP32_", "SENSOR_", "AGRI_"]
  const DefaultAllowedSensors: string := "SENSOR_01,ESP32_001,ESP32_002,ESP32_TEST"

  function TrimAll(parts: seq<string>): (r: seq<string>)
    ensures |r| == |parts|
    ensures forall i :: 0 <= i < |parts| ==> r[i] == Strings.Trim(parts[i])
  {
    if |parts| == 0 then [] else [Strings.Trim(parts[0])] + TrimAll(parts[1..])
  }

  /** `(process.env.ALLOWED_SENSORS || default).split(',').map(s => s.trim())`:
      an unset or empty variable falls back to the default list. */
  function AllowedSensorsFrom(env: Option<string>): (r: seq<string>)
    ensures var source := OrStr(env, DefaultAllowedSensors);
      && |r| == |Strings.Split(source, ',')|
      && forall i :: 0 <= i < |r| ==> r[i] == Strings.Trim(Strings.Split(source, ',')[i])
  {
    TrimAll(Strings.Split(OrStr(env, DefaultAllowedSensors), ','))
  }

  /** Without ALLOWED_SENSORS (unset or empty) the explicit list is the
      four default ids. */
  lemma DefaultAllowList(env: Option<string>)
    requires !TruthyStr(env)
    ensures AllowedSensorsFrom(env) == ["SENSOR_01", "ESP32_001", "ESP32_002", "ESP32_TEST"]
  {
    assert OrStr(env, DefaultAllowedSensors) == DefaultAllowedSensors;
    SplitDefault();
    TrimDefault();
  }

  lemma TrimDefault()
    ensures TrimAll(["SENSOR_01", "ESP32_001", "ESP32_002", "ESP32_TEST"])
            == ["SENSOR_01", "ESP32_001", "ESP32_002", "ESP32_TEST"]
  {
    var a, b, c, d := "SENSOR_01", "ESP32_001", "ESP32_002", "ESP32_TEST";
    NoSpaceTrim(a);
    NoSpaceTrim(b);
    NoSpaceTrim(c);
    NoSpaceTrim(d);
    TrimAllUnchanged([a, b, c, d]);
  }

  lemma {:induction false} TrimAllUnchanged(parts: seq<string>)
    requires forall i :: 0 <= i < |parts| ==> Strings.Trim(parts[i]) == parts[i]
    ensures TrimAll(parts) == parts
  {
  }

  lemma SplitDefault()
    ensures Strings.Split(DefaultAllowedSensors, ',') == ["SENSOR_01", "ESP32_001", "ESP32_002", "ESP32_TEST"]
  {
    var a, b, c, d := "SENSOR_01", "ESP32_001", "ESP32_002", "ESP32_TEST";
    assert DefaultAllowedSensors == a + [','] + (b + [','] + (c + [','] + d));
    SplitFour(a, b, c, d, ',');
  }

  lemma SplitFour(a: string, b: string, c: string, d: string, sep: char)
    requires sep !in a && sep !in b && sep !in c && sep !in d
    ensures Strings.Split(a + [sep] + (b + [sep] + (c + [sep] + d)), sep) == [a, b, c, d]
  {
    Strings.SplitNoSep(d, sep);
    Strings.SplitCons(c, sep, d);
    Strings.SplitCons(b, sep, c + [sep] + d);
    Strings.SplitCons(a, sep, b + [sep] + (c + [sep] + d));
  }

  lemma NoSpaceTrim(s: string)
    requires forall c :: c in s ==> 'A' <= c <= 'Z' || '0' <= c <= '9' || c == '_'
    ensures Strings.Trim(s) == s
  {
    assert forall i :: 0 <= i < |s| ==> !Strings.IsSpace(s[i]) by {
      forall i | 0 <= i < |s| ensures !Strings.IsSpace(s[i]) {
        assert s[i] in s;
      }
    }
  }

  function HasPrefixIn(prefixes: seq<string>, id: string): (r: bool)
    ensures r <==> exists i :: 0 <= i < |prefixes| && Strings.StartsWith(id, prefixes[i])
  {
    if |prefixes| == 0 then false
    else Strings.StartsWith(id, prefixes[0]) || HasPrefixIn(prefixes[1..], id)
  }

  /** isAllowedSensor: in the explicit list, or starting with one of the
      three fixed prefixes. */
  function IsAllowedSensor(allowed: seq<string>, id: string): (r: bool)
    ensures r <==> id in allowed
                   || Strings.StartsWith(id, "ESP32_")
                   || Strings.StartsWith(id, "SENSOR_")
                   || Strings.StartsWith(id, "AGRI_")
  {
    var prefixes := AllowedPrefixes;
    assert |prefixes| == 3;
    assert prefixes[0] == "ESP32_" && prefixes[1] == "SENSOR_" && prefixes[2] == "AGRI_";
    id in allowed || HasPrefixIn(prefixes, id)
  }

  // ---------------------------------------------------------------------
  // The sensor list and its categorisation

  /** A row of the script's query: the sensor, COUNT(md.id) as data_count
      and MAX(md.timestamp) as last_data. */
  datatype SensorSummary = SensorSummary(sensor: Database.Sensor, dataCount: nat, lastData: Option<int>)

  function LastData(rs: seq<Database.Reading>): Option<int>
  {
    match Database.Latest(rs)
    case None => None
    case Some(x) => Some(x.timestamp)
  }

  /** The query's rows: one per sensor (LEFT JOIN, GROUP BY sensor_id). */
  function Summaries(ss: seq<Database.Sensor>, rs: seq<Database.Reading>): (r: seq<SensorSummary>)
    ensures |r| == |ss|
    ensures forall i :: 0 <= i < |ss| ==>
      r[i].sensor == ss[i] && r[i].dataCount == Database.CountFor(rs, ss[i].sensorId)
  {
    if |ss| == 0 then []
    else
      var mine := Database.ReadingsOf(rs, ss[0].sensorId);
      [SensorSummary(ss[0], |mine|, LastData(mine))] + Summaries(ss[1..], rs)
  }

  function Authorized(allowed: seq<string>, rows: seq<SensorSummary>): (r: seq<SensorSummary>)
    ensures forall x :: x in r <==> x in rows && IsAllowedSensor(allowed, x.sensor.sensorId)
  {
    if |rows| == 0 then []
    else if IsAllowedSensor(allowed, rows[0].sensor.sensorId) then [rows[0]] + Authorized(allowed, rows[1..])
    else Authorized(allowed, rows[1..])
  }

  function Unauthorized(allowed: seq<string>, rows: seq<SensorSummary>): (r: seq<SensorSummary>)
    ensures forall x :: x in r <==> x in rows && !IsAllowedSensor(allowed, x.sensor.sensorId)
  {
    if |rows| == 0 then []
    else if IsAllowedSensor(allowed, rows[0].sensor.sensorId) then Unauthorized(allowed, rows[1..])
    else [rows[0]] + Unauthorized(allowed, rows[1..])
  }

  lemma {:induction false} AuthorizedSnoc(allowed: seq<string>, rows: seq<SensorSummary>, x: SensorSummary)
    ensures Authorized(allowed, rows + [x]) ==
      Authorized(allowed, rows) + (if IsAllowedSensor(allowed, x.sensor.sensorId) then [x] else [])
  {
    if |rows| == 0 {
      assert rows + [x] == [x];
      assert [x][1..] == [];
    } else {
      assert (rows + [x])[1..] == rows[1..] + [x];
      assert (rows + [x])[0] == rows[0];
      AuthorizedSnoc(allowed, rows[1..], x);
    }
  }

  lemma {:induction false} UnauthorizedSnoc(allowed: seq<string>, rows: seq<SensorSummary>, x: SensorSummary)
    ensures Unauthorized(allowed, rows + [x]) ==
      Unauthorized(allowed, rows) + (if IsAllowedSensor(allowed, x.sensor.sensorId) then [] else [x])
  {
    if |rows| == 0 {
      assert rows + [x] == [x];
      assert [x][1..] == [];
    } else {
      assert (rows + [x])[1..] == rows[1..] + [x];
      assert (rows + [x])[0] == rows[0];
      UnauthorizedSnoc(allowed, rows[1..], x);
    }
  }

  /** Categorisation is a partition: the two lists keep input order, their
      lengths add up to the total and together they hold every row once. */
  lemma {:induction false} CategoriesPartition(allowed: seq<string>, rows: seq<SensorSummary>)
    ensures |Authorized(allowed, rows)| + |Unauthorized(allowed, rows)| == |rows|
    ensures multiset(Authorized(allowed, rows)) + multiset(Unauthorized(allowed, rows)) == multiset(rows)
  {
    if |rows| > 0 {
      CategoriesPartition(allowed, rows[1..]);
      assert rows == [rows[0]] + rows[1..];
    }
  }

  /** The forEach that pushes each sensor onto one of the two lists. */
  method Categorise(allowed: seq<string>, rows: seq<SensorSummary>)
    returns (authorized: seq<SensorSummary>, unauthorized: seq<SensorSummary>)
    ensures authorized == Authorized(allowed, rows)
    ensures unauthorized == Unauthorized(allowed, rows)
    ensures |authorized| + |unauthorized| == |rows|
  {
    authorized, unauthorized := [], [];
    for i := 0 to |rows|
      invariant authorized == Authorized(allowed, rows[..i])
      invariant unauthorized == Unauthorized(allowed, rows[..i])
    {
      AuthorizedSnoc(allowed, rows[..i], rows[i]);
      UnauthorizedSnoc(allowed, rows[..i], rows[i]);
      assert rows[..i + 1] == rows[..i] + [rows[i]];
      if IsAllowedSensor(allowed, rows[i].sensor.sensorId) {
        authorized := authorized + [rows[i]];
      } else {
        unauthorized := unauthorized + [rows[i]];
      }
    }
    assert rows[..|rows|] == rows;
    CategoriesPartition(allowed, rows);
  }

  /** The sum of data_count over a list of rows. */
  function SumDataCount(rows: seq<SensorSummary>): nat
  {
    if |rows| == 0 then 0 else SumDataCount(rows[..|rows| - 1]) + rows[|rows| - 1].dataCount
  }

  /** The loop that accumulates totalUnauthorizedRecords. */
  method TotalRecords(rows: seq<SensorSummary>) returns (total: nat)
    ensures total == SumDataCount(rows)
  {
    total := 0;
    for i := 0 to |rows|
      invariant total == SumDataCount(rows[..i])
    {
      assert rows[..i + 1][..i] == rows[..i];
      total := total + rows[i].dataCount;
    }
    assert rows[..|rows|] == rows;
  }

  /** `answer.toLowerCase() === 'y' || answer.toLowerCase() === 'yes'`. */
  predicate Confirmed(answer: string)
  {
    Strings.ToLower(answer) == "y" || Strings.ToLower(answer) == "yes"
  }

  /** The answers that confirm are y and yes in any mix of case. */
  lemma ConfirmedAnswers(answer: string)
    ensures Confirmed(answer) <==>
      (|answer| == 1 && answer[0] in "yY")
      || (|answer| == 3 && answer[0] in "yY" && answer[1] in "eE" && answer[2] in "sS")
  {
    var l := Strings.ToLower(answer);
    if |answer| == 1 {
      assert l == "y" <==> l[0] == 'y';
    } else if |answer| == 3 {
      assert l == "yes" <==> l[0] == 'y' && l[1] == 'e' && l[2] == 's';
    } else {
      assert |l| != 1 && |l| != 3;
    }
  }

  // ---------------------------------------------------------------------
  // The deletion transaction

  /** The ids of a list of rows. */
  function IdSet(rows: seq<SensorSummary>): (ids: set<string>)
    ensures forall x :: x in rows ==> x.sensor.sensorId in ids
    ensures forall id :: id in ids ==> exists x :: x in rows && x.sensor.sensorId == id
  {
    if |rows| == 0 then {}
    else
      var init := rows[..|rows| - 1];
      assert rows == init + [rows[|rows| - 1]];
      IdSet(init) + {rows[|rows| - 1].sensor.sensorId}
  }

  lemma {:induction false} SensorsNotInGrow(ss: seq<Database.Sensor>, ids: set<string>, id: string)
    ensures Database.SensorsNotIn(Database.SensorsNotIn(ss, ids), {id}) == Database.SensorsNotIn(ss, ids + {id})
  {
    if |ss| > 0 {
      SensorsNotInGrow(ss[1..], ids, id);
    }
  }

  lemma {:induction false} ReadingsNotInGrow(rs: seq<Database.Reading>, ids: set<string>, id: string)
    ensures Database.ReadingsNotIn(Database.ReadingsNotIn(rs, ids), {id}) == Database.ReadingsNotIn(rs, ids + {id})
  {
    if |rs| > 0 {
      ReadingsNotInGrow(rs[1..], ids, id);
    }
  }

  /** deleteUnauthorized, run through db.transaction: for each sensor, its
      readings are deleted first, then the sensor row. Statement k
      (readings of sensor k/2 when k is even, sensor k/2 when k is odd)
      fails when `failAt == Some(k)`; a failure rolls both tables back. On
      success it returns deletedDataCount and deletedSensorCount. */
  method DeleteUnauthorized(db: Database.Store, toDelete: seq<SensorSummary>, failAt: Option<nat>)
    returns (r: Result<(nat, nat), Database.DbError>)
    requires db.Valid()
    modifies db
    ensures db.Valid()
    ensures r.Ok? <==> failAt.None? || failAt.value >= 2 * |toDelete|
    ensures r.Err? ==> db.sensors == old(db.sensors) && db.readings == old(db.readings)
                       && db.nextReadingId == old(db.nextReadingId)
    ensures r.Ok? ==>
      && db.sensors == Database.SensorsNotIn(old(db.sensors), IdSet(toDelete))
      && db.readings == Database.ReadingsNotIn(old(db.readings), IdSet(toDelete))
      && db.nextReadingId == old(db.nextReadingId)
      && r.value == (|old(db.readings)| - |db.readings|, |old(db.sensors)| - |db.sensors|)
  {
    var sensors0, readings0, next0 := db.sensors, db.readings, db.nextReadingId;
    var deletedDataCount, deletedSensorCount := 0, 0;
    var failIndex: int := if failAt.Some? then failAt.value else -1;
    for i := 0 to |toDelete|
      invariant db.Valid()
      invariant db.sensors == Database.SensorsNotIn(sensors0, IdSet(toDelete[..i]))
      invariant db.readings == Database.ReadingsNotIn(readings0, IdSet(toDelete[..i]))
      invariant db.nextReadingId == next0
      invariant deletedDataCount == |readings0| - |db.readings|
      invariant deletedSensorCount == |sensors0| - |db.sensors|
      invariant failIndex < 0 || failIndex >= 2 * i
    {
      DeleteStep(sensors0, readings0, toDelete, i);
      var step := DeleteOne(db, toDelete[i].sensor.sensorId, failIndex == 2 * i, failIndex == 2 * i + 1);
      if step.Err? {
        Rollback(db, sensors0, readings0, next0);
        return Err(step.error);
      }
      deletedDataCount := deletedDataCount + step.value.0;
      deletedSensorCount := deletedSensorCount + step.value.1;
    }
    assert toDelete[..|toDelete|] == toDelete;
    r := Ok((deletedDataCount, deletedSensorCount));
  }

  /** The two statements run for one sensor: its readings, then its row,
      which the foreign key lets go once no reading names it. */
  method DeleteOne(db: Database.Store, id: string, failReadings: bool, failSensor: bool)
    returns (r: Result<(nat, nat), Database.DbError>)
    requires db.Valid()
    modifies db
    ensures db.Valid()
    ensures r.Err? <==> failReadings || failSensor
    ensures r.Ok? ==>
      && db.sensors == Database.SensorsNotIn(old(db.sensors), {id})
      && db.readings == Database.ReadingsNotIn(old(db.readings), {id})
      && db.nextReadingId == old(db.nextReadingId)
      && r.value == (|old(db.readings)| - |db.readings|, |old(db.sensors)| - |db.sensors|)
  {
    var dataResult := db.DeleteReadingsOf(id, failReadings);
    if dataResult.Err? {
      return Err(dataResult.error);
    }
    Database.NoneLeftOf(old(db.readings), id);
    var sensorResult := db.DeleteSensor(id, failSensor);
    if sensorResult.Err? {
      return Err(sensorResult.error);
    }
    r := Ok((dataResult.value, sensorResult.value));
  }

  /** Deleting the next sensor of the list grows the deleted id set by its id. */
  lemma DeleteStep(ss: seq<Database.Sensor>, rs: seq<Database.Reading>, toDelete: seq<SensorSummary>, i: nat)
    requires i < |toDelete|
    ensures var id := toDelete[i].sensor.sensorId;
      && Database.SensorsNotIn(Database.SensorsNotIn(ss, IdSet(toDelete[..i])), {id})
         == Database.SensorsNotIn(ss, IdSet(toDelete[..i + 1]))
      && Database.ReadingsNotIn(Database.ReadingsNotIn(rs, IdSet(toDelete[..i])), {id})
         == Database.ReadingsNotIn(rs, IdSet(toDelete[..i + 1]))
  {
    var id := toDelete[i].sensor.sensorId;
    assert toDelete[..i + 1][..i] == toDelete[..i];
    assert IdSet(toDelete[..i + 1]) == IdSet(toDelete[..i]) + {id};
    ReadingsNotInGrow(rs, IdSet(toDelete[..i]), id);
    SensorsNotInGrow(ss, IdSet(toDelete[..i]), id);
  }

  /** The transaction's rollback: both tables and the id counter return to
      the snapshot taken when it began. */
  method Rollback(db: Database.Store, ss: seq<Database.Sensor>, rs: seq<Database.Reading>, next: nat)
    requires Database.UniqueSensorIds(ss) && Database.ReadingsReferenceSensors(ss, rs)
    requires forall i :: 0 <= i < |rs| ==> rs[i].id < next
    modifies db
    ensures db.Valid()
    ensures db.sensors == ss && db.readings == rs && db.nextReadingId == next
  {
    db.sensors, db.readings, db.nextReadingId := ss, rs, next;
  }

  // ---------------------------------------------------------------------
  // Counting what the transaction deletes

  ghost predicate DistinctIds(rows: seq<SensorSummary>)
  {
    forall i, j :: 0 <= i < j < |rows| ==> rows[i].sensor.sensorId != rows[j].sensor.sensorId
  }

  lemma {:induction false} ReadingsNotInOneCount(rs: seq<Database.Reading>, id: string)
    ensures |Database.ReadingsNotIn(rs, {id})| == |rs| - Database.CountFor(rs, id)
  {
    if |rs| > 0 {
      ReadingsNotInOneCount(rs[1..], id);
    }
  }

  lemma {:induction false} CountForNotIn(rs: seq<Database.Reading>, ids: set<string>, id: string)
    requires id !in ids
    ensures Database.CountFor(Database.ReadingsNotIn(rs, ids), id) == Database.CountFor(rs, id)
  {
    if |rs| > 0 {
      CountForNotIn(rs[1..], ids, id);
    }
  }

  /** When each row's data_count is its sensor's number of readings and no
      id repeats, the announced total is exactly the number of readings the
      transaction removes. */
  lemma {:induction false} TotalIsDeletedCount(rs: seq<Database.Reading>, rows: seq<SensorSummary>)
    requires DistinctIds(rows)
    requires forall i :: 0 <= i < |rows| ==> rows[i].dataCount == Database.CountFor(rs, rows[i].sensor.sensorId)
    ensures SumDataCount(rows) == |rs| - |Database.ReadingsNotIn(rs, IdSet(rows))|
  {
    if |rows| > 0 {
      var init, x := rows[..|rows| - 1], rows[|rows| - 1];
      var id := x.sensor.sensorId;
      TotalIsDeletedCount(rs, init);
      forall y | y in init ensures y.sensor.sensorId != id {
        var j :| 0 <= j < |init| && init[j] == y;
        assert rows[j] == y;
      }
      assert IdSet(rows) == IdSet(init) + {id};
      ReadingsNotInGrow(rs, IdSet(init), id);
      ReadingsNotInOneCount(Database.ReadingsNotIn(rs, IdSet(init)), id);
      CountForNotIn(rs, IdSet(init), id);
    }
  }

  lemma {:induction false} UnauthorizedDistinct(allowed: seq<string>, rows: seq<SensorSummary>)
    requires DistinctIds(rows)
    ensures DistinctIds(Unauthorized(allowed, rows))
  {
    if |rows| > 0 {
      UnauthorizedDistinct(allowed, rows[1..]);
      var tail := Unauthorized(allowed, rows[1..]);
      forall x | x in tail ensures x.sensor.sensorId != rows[0].sensor.sensorId {
        var j :| 0 <= j < |rows[1..]| && rows[1..][j] == x;
        assert rows[j + 1] == x;
      }
    }
  }

  lemma {:induction false} SummariesDistinct(ss: seq<Database.Sensor>, rs: seq<Database.Reading>)
    requires Database.UniqueSensorIds(ss)
    ensures DistinctIds(Summaries(ss, rs))
  {
  }

  /** A sensor of the table is in the unauthorized list exactly when it is
      not allowed. */
  lemma UnauthorizedIds(allowed: seq<string>, ss: seq<Database.Sensor>, rs: seq<Database.Reading>)
    ensures forall s :: s in ss ==>
      (s.sensorId in IdSet(Unauthorized(allowed, Summaries(ss, rs))) <==> !IsAllowedSensor(allowed, s.sensorId))
  {
    var rows := Summaries(ss, rs);
    forall s | s in ss
      ensures s.sensorId in IdSet(Unauthorized(allowed, rows)) <==> !IsAllowedSensor(allowed, s.sensorId)
    {
      var i :| 0 <= i < |ss| && ss[i] == s;
      assert rows[i].sensor == s;
      if !IsAllowedSensor(allowed, s.sensorId) {
        assert rows[i] in Unauthorized(allowed, rows);
      }
    }
  }

  // ---------------------------------------------------------------------
  // The whole script

  datatype Outcome =
    | NothingToDelete
    | Cancelled(unauthorizedSensors: nat, totalUnauthorizedRecords: nat)
    | Completed(deletedSensorCount: nat, deletedDataCount: nat, totalUnauthorizedRecords: nat)
    | RolledBack

  /** The state the script leaves after a committed transaction: only
      authorized sensors remain and all of them do, no reading is left for a
      deleted sensor, and the readings of authorized sensors are untouched.
      (Readings whose sensor is not in `sensors` at all are not in the
      script's list, so it leaves them alone.) */
  ghost predicate CleanedUp(allowed: seq<string>, ss: seq<Database.Sensor>, rs: seq<Database.Reading>,
                            ss': seq<Database.Sensor>, rs': seq<Database.Reading>)
  {
    && (forall s :: s in ss' <==> s in ss && IsAllowedSensor(allowed, s.sensorId))
    && (forall x :: x in rs' ==>
          x in rs && !(Database.HasSensor(ss, x.sensorId) && !IsAllowedSensor(allowed, x.sensorId)))
    && (forall x :: x in rs && IsAllowedSensor(allowed, x.sensorId) ==> x in rs')
  }

  /** Deleting the unauthorized list from both tables cleans them up, and
      removes exactly as many sensors as the list holds and exactly as many
      readings as the announced total. */
  lemma DeletingUnauthorized(allowed: seq<string>, ss: seq<Database.Sensor>, rs: seq<Database.Reading>)
    requires Database.UniqueSensorIds(ss)
    ensures var unauthorized := Unauthorized(allowed, Summaries(ss, rs));
      var ss' := Database.SensorsNotIn(ss, IdSet(unauthorized));
      var rs' := Database.ReadingsNotIn(rs, IdSet(unauthorized));
      && CleanedUp(allowed, ss, rs, ss', rs')
      && |ss| - |ss'| == |unauthorized|
      && |rs| - |rs'| == SumDataCount(unauthorized)
  {
    var rows := Summaries(ss, rs);
    var unauthorized := Unauthorized(allowed, rows);
    SummariesDistinct(ss, rs);
    UnauthorizedDistinct(allowed, rows);
    UnauthorizedIds(allowed, ss, rs);
    TotalIsDeletedCount(rs, unauthorized);
    RemovedCount(ss, rs, allowed);
    var rs' := Database.ReadingsNotIn(rs, IdSet(unauthorized));
    forall x | x in rs'
      ensures !(Database.HasSensor(ss, x.sensorId) && !IsAllowedSensor(allowed, x.sensorId))
    {
      if Database.HasSensor(ss, x.sensorId) {
        var i :| 0 <= i < |ss| && ss[i].sensorId == x.sensorId;
        assert ss[i] in ss;
      }
    }
  }

  /** The script from the query to the end of the transaction. */
  method Run(db: Database.Store, env: Option<string>, answer: string, failAt: Option<nat>)
    returns (outcome: Outcome)
    requires db.Valid()
    modifies db
    ensures db.Valid()
    ensures var allowed := AllowedSensorsFrom(env);
      var unauthorized := Unauthorized(allowed, Summaries(old(db.sensors), old(db.readings)));
      && (outcome.NothingToDelete? <==> unauthorized == [])
      && (outcome.Cancelled? <==> unauthorized != [] && !Confirmed(answer))
      && (outcome.Cancelled? ==> outcome.totalUnauthorizedRecords == SumDataCount(unauthorized))
      && (outcome.Completed? || outcome.RolledBack? ==> unauthorized != [] && Confirmed(answer))
      && (outcome.Completed? <==>
            unauthorized != [] && Confirmed(answer) && (failAt.None? || failAt.value >= 2 * |unauthorized|))
      && (!outcome.Completed? ==>
            db.sensors == old(db.sensors) && db.readings == old(db.readings)
            && db.nextReadingId == old(db.nextReadingId))
      && (outcome.Completed? ==>
            && db.sensors == Database.SensorsNotIn(old(db.sensors), IdSet(unauthorized))
            && db.readings == Database.ReadingsNotIn(old(db.readings), IdSet(unauthorized))
            && db.nextReadingId == old(db.nextReadingId)
            && CleanedUp(allowed, old(db.sensors), old(db.readings), db.sensors, db.readings)
            && outcome.deletedSensorCount == |old(db.sensors)| - |db.sensors| == |unauthorized|
            && outcome.deletedDataCount == |old(db.readings)| - |db.readings|
            && outcome.deletedDataCount == outcome.totalUnauthorizedRecords == SumDataCount(unauthorized))
  {
    var allowed := AllowedSensorsFrom(env);
    var sensors := Summaries(db.sensors, db.readings);
    var authorizedSensors, unauthorizedSensors := Categorise(allowed, sensors);
    if |unauthorizedSensors| == 0 {
      return NothingToDelete;
    }
    var totalUnauthorizedRecords := TotalRecords(unauthorizedSensors);
    if !Confirmed(answer) {
      return Cancelled(|unauthorizedSensors|, totalUnauthorizedRecords);
    }
    DeletingUnauthorized(allowed, db.sensors, db.readings);
    var result := DeleteUnauthorized(db, unauthorizedSensors, failAt);
    if result.Err? {
      return RolledBack;
    }
    outcome := Completed(result.value.1, result.value.0, totalUnauthorizedRecords);
  }

  /** The number of sensors the transaction removes is the length of the
      unauthorized list. */
  lemma {:induction false} RemovedCount(ss: seq<Database.Sensor>, rs: seq<Database.Reading>, allowed: seq<string>)
    requires Database.UniqueSensorIds(ss)
    ensures |ss| - |Database.SensorsNotIn(ss, IdSet(Unauthorized(allowed, Summaries(ss, rs))))|
            == |Unauthorized(allowed, Summaries(ss, rs))|
  {
    if |ss| > 0 {
      RemovedCount(ss[1..], rs, allowed);
      var rows := Summaries(ss, rs);
      assert rows[1..] == Summaries(ss[1..], rs);
      var u := Unauthorized(allowed, rows);
      var u1 := Unauthorized(allowed, rows[1..]);
      UnauthorizedIds(allowed, ss, rs);
      UnauthorizedIds(allowed, ss[1..], rs);
      assert Database.SensorsNotIn(ss[1..], IdSet(u)) == Database.SensorsNotIn(ss[1..], IdSet(u1)) by {
        SensorsNotInSameOn(ss[1..], IdSet(u), IdSet(u1));
      }
    }
  }

  /** SensorsNotIn only looks at the ids that occur in the table. */
  lemma {:induction false} SensorsNotInSameOn(ss: seq<Database.Sensor>, a: set<string>, b: set<string>)
    requires forall s :: s in ss ==> (s.sensorId in a <==> s.sensorId in b)
    ensures Database.SensorsNotIn(ss, a) == Database.SensorsNotIn(ss, b)
  {
    if |ss| > 0 {
      assert ss[0] in ss;
      SensorsNotInSameOn(ss[1..], a, b);
    }
  }
}
