/** app/api/sensors/route.ts: GET lists every sensor with its latest
    reading; POST validates a new sensor, fills in the defaults and inserts
    it. The request body is what request.json() returned (None when it
    threw). */
module SensorsRoute {
  import opened JsValues
  import opened Http
  import Database

  const DefaultType: string := "soil_moisture"
  const DefaultCalibrationMin: real := 0.0
  const DefaultCalibrationMax: real := 1023.0
  const ActiveStatus: string := "active"

  /** `const { sensor_id, location, type, calibration_min, calibration_max } = body`. */
  datatype SensorBody = SensorBody(
    sensorId: Option<JsVal>,
    location: Option<JsVal>,
    sensorType: Option<JsVal>,
    calibrationMin: Option<JsVal>,
    calibrationMax: Option<JsVal>)

  /** Destructuring the parsed body; destructuring null throws (None). */
  function Destructure(body: Payload): (r: Option<SensorBody>)
    ensures r.None? <==> body == Scalar(JsNull)
    ensures r.Some? ==>
      && PropertyIs(body, "sensor_id", r.value.sensorId)
      && PropertyIs(body, "location", r.value.location)
      && PropertyIs(body, "type", r.value.sensorType)
      && PropertyIs(body, "calibration_min", r.value.calibrationMin)
      && PropertyIs(body, "calibration_max", r.value.calibrationMax)
  {
    match (Field(body, "sensor_id"), Field(body, "location"), Field(body, "type"),
           Field(body, "calibration_min"), Field(body, "calibration_max"))
    case (Ok(id), Ok(loc), Ok(t), Ok(lo), Ok(hi)) => Some(SensorBody(id, loc, t, lo, hi))
    case _ => None
  }

  /** The request is accepted only with a truthy sensor_id and location. */
  predicate Validated(b: SensorBody)
  {
    Truthy(b.sensorId) && Truthy(b.location)
  }

  /** A bound TEXT value: only a string is stored as text here. */
  function Text(v: Option<JsVal>): Result<string, Database.DbError>
  {
    match v
    case Some(JsStr(s)) => Ok(s)
    case _ => Err(Database.BindFailure)
  }

  /** A bound REAL value. */
  function Number(v: Option<JsVal>): Result<real, Database.DbError>
  {
    match v
    case Some(JsNum(n)) => Ok(n)
    case _ => Err(Database.BindFailure)
  }

  /** The argument passed to sensorOperations.create: `type || "soil_moisture"`,
      `calibration_min || 0`, `calibration_max || 1023`, status "active". A
      value the database cannot bind is an error. */
  function SensorToCreate(b: SensorBody): (r: Result<Database.NewSensor, Database.DbError>)
    ensures r.Ok? ==> r.value.status == ActiveStatus
    ensures r.Ok? ==> Some(JsStr(r.value.sensorId)) == b.sensorId && Some(JsStr(r.value.location)) == b.location
    ensures r.Ok? && !Truthy(b.sensorType) ==> r.value.sensorType == DefaultType
    ensures r.Ok? && Truthy(b.sensorType) ==> b.sensorType == Some(JsStr(r.value.sensorType))
    ensures r.Ok? && !Truthy(b.calibrationMin) ==> r.value.calibrationMin == DefaultCalibrationMin
    ensures r.Ok? && Truthy(b.calibrationMin) ==> b.calibrationMin == Some(JsNum(r.value.calibrationMin))
    ensures r.Ok? && !Truthy(b.calibrationMax) ==> r.value.calibrationMax == DefaultCalibrationMax
    ensures r.Ok? && Truthy(b.calibrationMax) ==> b.calibrationMax == Some(JsNum(r.value.calibrationMax))
    ensures r.Ok? <==>
      && b.sensorId.Some? && b.sensorId.value.JsStr?
      && b.location.Some? && b.location.value.JsStr?
      && (!Truthy(b.sensorType) || b.sensorType.value.JsStr?)
      && (!Truthy(b.calibrationMin) || b.calibrationMin.value.JsNum?)
      && (!Truthy(b.calibrationMax) || b.calibrationMax.value.JsNum?)
  {
    match (Text(b.sensorId), Text(b.location), Text(Or(b.sensorType, Some(JsStr(DefaultType)))),
           Number(Or(b.calibrationMin, Some(JsNum(DefaultCalibrationMin)))),
           Number(Or(b.calibrationMax, Some(JsNum(DefaultCalibrationMax)))))
    case (Ok(id), Ok(loc), Ok(t), Ok(lo), Ok(hi)) => Ok(Database.NewSensor(id, loc, t, lo, hi, ActiveStatus))
    case (Err(e), _, _, _, _) => Err(e)
    case (_, Err(e), _, _, _) => Err(e)
    case (_, _, Err(e), _, _) => Err(e)
    case (_, _, _, Err(e), _) => Err(e)
    case (_, _, _, _, Err(e)) => Err(e)
  }

  /** `||` defaulting replaces a calibration_max of 0 by 1023 and an empty
      type by "soil_moisture": falsy values count as missing. */
  lemma FalsyValuesTakeDefaults(id: string, location: string)
    ensures var b := SensorBody(Some(JsStr(id)), Some(JsStr(location)), Some(JsStr("")),
                                Some(JsNum(0.0)), Some(JsNum(0.0)));
      SensorToCreate(b) == Ok(Database.NewSensor(id, location, DefaultType, 0.0, 1023.0, ActiveStatus))
  {
    var b := SensorBody(Some(JsStr(id)), Some(JsStr(location)), Some(JsStr("")),
                        Some(JsNum(0.0)), Some(JsNum(0.0)));
    assert !Truthy(b.sensorType) && !Truthy(b.calibrationMin) && !Truthy(b.calibrationMax);
  }

  /** The response to a failed create: 409 for a duplicate key, else 500. */
  function CreateFailure(e: Database.DbError): (r: Response<string>)
    ensures r.Fail?
    ensures r.status == StatusConflict <==> e == Database.PrimaryKeyViolation
    ensures r.status != StatusConflict ==> r == Fail(StatusServerError, "Failed to create sensor")
  {
    if e == Database.PrimaryKeyViolation then Fail(StatusConflict, "Sensor ID already exists")
    else Fail(StatusServerError, "Failed to create sensor")
  }

  /** GET: the store's sensor list, or 500 when the query fails. */
  function Get(db: Database.Store, fault: bool): (r: Response<seq<Database.SensorRow>>)
    reads db
    ensures r.Json? <==> !fault
    ensures r.Json? ==> r.status == StatusOk && r.value == db.GetAll() && |r.value| == |db.sensors|
    ensures r.Fail? ==> r == Fail(StatusServerError, "Failed to fetch sensors")
  {
    if fault then Fail(StatusServerError, "Failed to fetch sensors") else Json(StatusOk, db.GetAll())
  }

  /** POST. `body` is request.json()'s result (None: it threw); `fault`
      stands for a storage failure in the insert. The 201 body's rowid is
      not modelled; its message is returned. */
  method Post(db: Database.Store, body: Option<Payload>, now: int, fault: bool) returns (r: Response<string>)
    requires db.Valid()
    modifies db
    ensures db.Valid()
    ensures db.readings == old(db.readings) && db.nextReadingId == old(db.nextReadingId)
    ensures r.status in {StatusCreated, StatusBadRequest, StatusConflict, StatusServerError}
    ensures r.status != StatusCreated ==> db.sensors == old(db.sensors)
    ensures body.None? ==> r == Fail(StatusServerError, "Failed to create sensor")
    ensures r.status == StatusBadRequest <==>
      body.Some? && Destructure(body.value).Some? && !Validated(Destructure(body.value).value)
    ensures r.status == StatusCreated <==>
      && body.Some? && Destructure(body.value).Some? && Validated(Destructure(body.value).value)
      && SensorToCreate(Destructure(body.value).value).Ok?
      && !fault && !Database.HasSensor(old(db.sensors), SensorToCreate(Destructure(body.value).value).value.sensorId)
    ensures r.status == StatusConflict <==>
      && body.Some? && Destructure(body.value).Some? && Validated(Destructure(body.value).value)
      && SensorToCreate(Destructure(body.value).value).Ok?
      && !fault && Database.HasSensor(old(db.sensors), SensorToCreate(Destructure(body.value).value).value.sensorId)
    ensures r.status == StatusCreated ==>
      var s := SensorToCreate(Destructure(body.value).value).value;
      db.sensors == old(db.sensors) + [Database.Sensor(s.sensorId, s.location, s.sensorType,
        Some(s.calibrationMin), Some(s.calibrationMax), Some(s.status), now, now)]
  {
    if body.None? {
      return Fail(StatusServerError, "Failed to create sensor");
    }
    var fields := Destructure(body.value);
    if fields.None? {
      return Fail(StatusServerError, "Failed to create sensor");
    }
    if !Validated(fields.value) {
      return Fail(StatusBadRequest, "sensor_id and location are required");
    }
    var sensor := SensorToCreate(fields.value);
    if sensor.Err? {
      return CreateFailure(sensor.error);
    }
    var result := db.CreateSensor(sensor.value, now, fault);
    if result.Err? {
      return CreateFailure(result.error);
    }
    r := Json(StatusCreated, "Sensor created successfully");
  }
}
