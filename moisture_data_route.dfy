/** app/api/moisture-data/route.ts: GET picks one of three queries from the
    search parameters and sorts the rows in place by ascending timestamp;
    POST validates a reading and inserts it. */
module MoistureDataRoute {
  import opened JsValues
  import opened Http
  import Database

  /** getRecent's window when no range and no sensor is given. */
  const RecentHours: nat := 24

  /** searchParams.get of sensor_id, from and to (None: the parameter is absent). */
  datatype Query = Query(sensorId: Option<string>, from: Option<string>, to: Option<string>)

  /** The query GET runs. */
  datatype Source = DateRange(from: string, to: string) | BySensor(sensorId: string) | Recent

  /** `if (from && to) … else if (sensorId) … else …`. */
  function SourceOf(q: Query): (s: Source)
    ensures s.DateRange? <==> TruthyStr(q.from) && TruthyStr(q.to)
    ensures s.DateRange? ==> s.from == q.from.value && s.to == q.to.value
    ensures s.BySensor? <==> !(TruthyStr(q.from) && TruthyStr(q.to)) && TruthyStr(q.sensorId)
    ensures s.BySensor? ==> s.sensorId == q.sensorId.value
  {
    if TruthyStr(q.from) && TruthyStr(q.to) then DateRange(q.from.value, q.to.value)
    else if TruthyStr(q.sensorId) then BySensor(q.sensorId.value)
    else Recent
  }

  /** getByDateRange is not part of this model: the rows it returns are the
      readings that `inRange(from, to, ·)` accepts, in table order. */
  function ByDateRange(rs: seq<Database.Reading>, from: string, to: string,
                       inRange: (string, string, Database.Reading) -> bool): (r: seq<Database.Reading>)
    ensures forall x :: x in r <==> x in rs && inRange(from, to, x)
  {
    if |rs| == 0 then []
    else if inRange(from, to, rs[0]) then [rs[0]] + ByDateRange(rs[1..], from, to, inRange)
    else ByDateRange(rs[1..], from, to, inRange)
  }

  /** The rows the selected query returns. */
  function Selected(db: Database.Store, source: Source, now: int,
                    inRange: (string, string, Database.Reading) -> bool): (r: seq<Database.Reading>)
    reads db
    ensures source.BySensor? ==>
      r == Database.Page(Database.SortNewestFirst(Database.ReadingsOf(db.readings, source.sensorId)),
                         Database.DefaultLimit, Database.DefaultOffset)
    ensures source.BySensor? ==>
      |r| <= Database.DefaultLimit && forall x :: x in r ==> x in db.readings && x.sensorId == source.sensorId
    ensures source.Recent? ==>
      forall x :: x in r <==> x in db.readings && x.timestamp >= now - RecentHours * Database.SecondsPerHour
    ensures source.Recent? ==>
      && Database.NewestFirst(r)
      && multiset(r) == multiset(Database.ReadingsSince(db.readings, now - RecentHours * Database.SecondsPerHour))
    ensures source.DateRange? ==>
      forall x :: x in r <==> x in db.readings && inRange(source.from, source.to, x)
  {
    match source
    case DateRange(from, to) => ByDateRange(db.readings, from, to, inRange)
    case BySensor(id) => db.GetBySensor(id, Database.DefaultLimit, Database.DefaultOffset)
    case Recent => db.GetRecent(RecentHours, now)
  }

  predicate Ascending(rs: seq<Database.Reading>)
  {
    forall i, j :: 0 <= i < j < |rs| ==> rs[i].timestamp <= rs[j].timestamp
  }

  /** `data.sort((a, b) => time(a) - time(b))`, as an insertion sort by
      adjacent swaps: the array ends up a permutation of its old contents in
      ascending timestamp order. */
  method SortByTimestamp(a: array<Database.Reading>)
    modifies a
    ensures Ascending(a[..])
    ensures multiset(a[..]) == multiset(old(a[..]))
  {
    for i := 0 to a.Length
      invariant Ascending(a[..i])
      invariant multiset(a[..]) == multiset(old(a[..]))
    {
      InsertAt(a, i);
    }
    assert a[..a.Length] == a[..];
  }

  /** Moves a[i] left past every larger timestamp, so that a[..i+1] is
      ascending; the rest of the array is untouched. */
  method InsertAt(a: array<Database.Reading>, i: nat)
    requires i < a.Length
    requires Ascending(a[..i])
    modifies a
    ensures Ascending(a[..i + 1])
    ensures multiset(a[..]) == multiset(old(a[..]))
  {
    var j := i;
    InsertStart(a[..], i);
    while j > 0 && a[j - 1].timestamp > a[j].timestamp
      invariant 0 <= j <= i
      invariant Inserting(a[..], i, j)
      invariant multiset(a[..]) == multiset(old(a[..]))
    {
      ghost var before := a[..];
      InsertStep(before, i, j);
      a[j - 1], a[j] := a[j], a[j - 1];
      assert a[..] == Swap(before, j - 1, j);
      j := j - 1;
    }
    InsertDone(a[..], i, j);
  }

  function Swap(s: seq<Database.Reading>, p: nat, q: nat): (r: seq<Database.Reading>)
    requires p < |s| && q < |s|
    ensures |r| == |s|
    ensures multiset(r) == multiset(s)
  {
    s[p := s[q]][q := s[p]]
  }

  /** While a[i]'s value sits at j: a[..i+1] without position j is
      ascending, and the value at j is no later than anything right of it. */
  ghost predicate Inserting(s: seq<Database.Reading>, i: nat, j: nat)
  {
    && j <= i < |s|
    && (forall m, n :: 0 <= m < n <= i && m != j && n != j ==> s[m].timestamp <= s[n].timestamp)
    && (forall n :: j < n <= i ==> s[j].timestamp <= s[n].timestamp)
  }

  lemma InsertStart(s: seq<Database.Reading>, i: nat)
    requires i < |s| && Ascending(s[..i])
    ensures Inserting(s, i, i)
  {
    forall m, n | 0 <= m < n <= i && m != i && n != i ensures s[m].timestamp <= s[n].timestamp {
      assert s[m] == s[..i][m] && s[n] == s[..i][n];
    }
  }

  lemma InsertStep(s: seq<Database.Reading>, i: nat, j: nat)
    requires 0 < j && Inserting(s, i, j) && s[j - 1].timestamp > s[j].timestamp
    ensures Inserting(Swap(s, j - 1, j), i, j - 1)
  {
  }

  lemma InsertDone(s: seq<Database.Reading>, i: nat, j: nat)
    requires Inserting(s, i, j) && (j == 0 || s[j - 1].timestamp <= s[j].timestamp)
    ensures Ascending(s[..i + 1])
  {
    forall m, n | 0 <= m < n <= i ensures s[m].timestamp <= s[n].timestamp {
      if n == j && m < j - 1 {
        assert s[m].timestamp <= s[j - 1].timestamp;
      }
    }
  }

  /** GET: the selected rows sorted ascending, or 500 when the query fails. */
  method Get(db: Database.Store, q: Query, now: int, inRange: (string, string, Database.Reading) -> bool,
             fault: bool) returns (r: Response<seq<Database.Reading>>)
    ensures r.Json? <==> !fault
    ensures r.Fail? ==> r == Fail(StatusServerError, "Internal Server Error")
    ensures r.Json? ==>
      && r.status == StatusOk
      && Ascending(r.value)
      && multiset(r.value) == multiset(Selected(db, SourceOf(q), now, inRange))
  {
    if fault {
      return Fail(StatusServerError, "Internal Server Error");
    }
    var rows := Selected(db, SourceOf(q), now, inRange);
    var data := new Database.Reading[|rows|](i requires 0 <= i < |rows| => rows[i]);
    assert data[..] == rows;
    SortByTimestamp(data);
    r := Json(StatusOk, data[..]);
  }

  /** `const { sensor_id, moisture_value } = body`. */
  datatype ReadingBody = ReadingBody(sensorId: Option<JsVal>, moistureValue: Option<JsVal>)

  /** Destructuring the parsed body; destructuring null throws (None). */
  function Destructure(body: Payload): (r: Option<ReadingBody>)
    ensures r.None? <==> body == Scalar(JsNull)
    ensures r.Some? ==>
      PropertyIs(body, "sensor_id", r.value.sensorId) && PropertyIs(body, "moisture_value", r.value.moistureValue)
  {
    match (Field(body, "sensor_id"), Field(body, "moisture_value"))
    case (Ok(id), Ok(m)) => Some(ReadingBody(id, m))
    case _ => None
  }

  /** `!sensor_id || moisture_value === undefined` rejects: a moisture of 0
      (or null) passes this check. */
  predicate Validated(b: ReadingBody)
  {
    Truthy(b.sensorId) && b.moistureValue.Some?
  }

  /** The argument of moistureDataOperations.create: no temperature and no
      humidity; a sensor id that is not a string cannot be bound. */
  function ReadingToCreate(b: ReadingBody): (r: Result<Database.NewReading, Database.DbError>)
    ensures r.Ok? <==> b.sensorId.Some? && b.sensorId.value.JsStr?
    ensures r.Ok? ==> b.sensorId == Some(JsStr(r.value.sensorId)) && r.value.moistureValue == b.moistureValue
    ensures r.Ok? ==> r.value.temperature.None? && r.value.humidity.None?
  {
    match b.sensorId
    case Some(JsStr(id)) => Ok(Database.NewReading(id, b.moistureValue, None, None))
    case _ => Err(Database.BindFailure)
  }

  /** POST: 201 with the id the store assigned, 400 for a missing field,
      500 for everything else, a reading of a sensor not in the table
      (the foreign key) included. */
  method Post(db: Database.Store, body: Option<Payload>, now: int, fault: bool) returns (r: Response<nat>)
    requires db.Valid()
    modifies db
    ensures db.Valid()
    ensures db.sensors == old(db.sensors)
    ensures r.status in {StatusCreated, StatusBadRequest, StatusServerError}
    ensures r.status != StatusCreated ==> db.readings == old(db.readings) && db.nextReadingId == old(db.nextReadingId)
    ensures r.Fail? && r.status == StatusServerError ==> r.error == "Failed to record data"
    ensures r.status == StatusBadRequest <==>
      body.Some? && Destructure(body.value).Some? && !Validated(Destructure(body.value).value)
    ensures r.status == StatusCreated <==>
      && body.Some? && Destructure(body.value).Some? && Validated(Destructure(body.value).value)
      && !fault
      && (exists id, m :: Destructure(body.value).value == ReadingBody(Some(JsStr(id)), Some(JsNum(m)))
                          && Database.HasSensor(old(db.sensors), id))
    ensures r.status == StatusCreated ==>
      && r.Json? && r.value == old(db.nextReadingId)
      && var b := Destructure(body.value).value;
         db.readings == old(db.readings) + [Database.Reading(old(db.nextReadingId), b.sensorId.value.s, now,
                                                             b.moistureValue.value.n, None, None)]
  {
    if body.None? {
      return Fail(StatusServerError, "Failed to record data");
    }
    var fields := Destructure(body.value);
    if fields.None? {
      return Fail(StatusServerError, "Failed to record data");
    }
    if !Validated(fields.value) {
      return Fail(StatusBadRequest, "sensor_id and moisture_value are required");
    }
    var data := ReadingToCreate(fields.value);
    if data.Err? {
      return Fail(StatusServerError, "Failed to record data");
    }
    var result := db.CreateReading(data.value, now, fault);
    if result.Err? {
      return Fail(StatusServerError, "Failed to record data");
    }
    r := Json(StatusCreated, result.value);
  }
}
