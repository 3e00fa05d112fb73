/** app/api/allowed-sensors/route.ts: GET returns the allow-list, POST adds
    an id to it or removes one. The list is the shared object behind
    getMQTTClient()'s getAllowedSensors / addAllowedSensor /
    removeAllowedSensor, modelled as a set of the ids exactly as the request
    carried them. `fault` stands for any exception from that object. */
module AllowedSensorsRoute {
  import opened JsValues
  import opened Http

  class AllowList {
    var ids: set<JsVal>

    constructor (initial: set<JsVal>)
      ensures ids == initial
    {
      ids := initial;
    }

    method Add(id: JsVal)
      modifies this
      ensures ids == old(ids) + {id}
    {
      ids := ids + {id};
    }

    method Remove(id: JsVal)
      modifies this
      ensures ids == old(ids) - {id}
    {
      ids := ids - {id};
    }
  }

  /** `const { sensorId, action } = body`; destructuring null throws (None). */
  function Destructure(body: Payload): (r: Option<(Option<JsVal>, Option<JsVal>)>)
    ensures r.None? <==> body == Scalar(JsNull)
    ensures r.Some? ==> PropertyIs(body, "sensorId", r.value.0) && PropertyIs(body, "action", r.value.1)
  {
    match (Field(body, "sensorId"), Field(body, "action"))
    case (Ok(id), Ok(action)) => Some((id, action))
    case _ => None
  }

  /** What POST asks for. */
  datatype Action = AddId(id: JsVal) | RemoveId(id: JsVal) | Invalid(message: string)

  /** The action switch: 400 unless both fields are truthy, then "add",
      "remove" or a 400 for anything else. */
  function Decide(sensorId: Option<JsVal>, action: Option<JsVal>): (a: Action)
    ensures !Truthy(sensorId) || !Truthy(action) <==> a == Invalid("sensorId and action are required")
    ensures a.AddId? <==> Truthy(sensorId) && action == Some(JsStr("add"))
    ensures a.RemoveId? <==> Truthy(sensorId) && action == Some(JsStr("remove"))
    ensures a.AddId? || a.RemoveId? ==> sensorId == Some(a.id)
    ensures Truthy(sensorId) && Truthy(action) && action != Some(JsStr("add")) && action != Some(JsStr("remove"))
            ==> a == Invalid("Action must be 'add' or 'remove'")
  {
    if !Truthy(sensorId) || !Truthy(action) then Invalid("sensorId and action are required")
    else if action == Some(JsStr("add")) then AddId(sensorId.value)
    else if action == Some(JsStr("remove")) then RemoveId(sensorId.value)
    else Invalid("Action must be 'add' or 'remove'")
  }

  /** GET: the current list, or 500. */
  function Get(list: AllowList, fault: bool): (r: Response<set<JsVal>>)
    reads list
    ensures r.Json? <==> !fault
    ensures r.Json? ==> r.status == StatusOk && r.value == list.ids
    ensures r.Fail? ==> r == Fail(StatusServerError, "Failed to fetch allowed sensors")
  {
    if fault then Fail(StatusServerError, "Failed to fetch allowed sensors") else Json(StatusOk, list.ids)
  }

  /** POST: the reply is the id that was added or removed. */
  method Post(list: AllowList, body: Option<Payload>, fault: bool) returns (r: Response<JsVal>)
    modifies list
    ensures r.status in {StatusOk, StatusBadRequest, StatusServerError}
    ensures body.None? || body == Some(Scalar(JsNull)) ==>
      r == Fail(StatusServerError, "Failed to manage allowed sensors") && list.ids == old(list.ids)
    ensures body.Some? && body.value != Scalar(JsNull) ==>
      var a := Decide(Destructure(body.value).value.0, Destructure(body.value).value.1);
      && (a.Invalid? ==> r == Fail(StatusBadRequest, a.message) && list.ids == old(list.ids))
      && (a.AddId? && !fault ==> r == Json(StatusOk, a.id) && list.ids == old(list.ids) + {a.id})
      && (a.RemoveId? && !fault ==> r == Json(StatusOk, a.id) && list.ids == old(list.ids) - {a.id})
      && (!a.Invalid? && fault ==>
            r == Fail(StatusServerError, "Failed to manage allowed sensors") && list.ids == old(list.ids))
  {
    if body.None? {
      return Fail(StatusServerError, "Failed to manage allowed sensors");
    }
    var fields := Destructure(body.value);
    if fields.None? {
      return Fail(StatusServerError, "Failed to manage allowed sensors");
    }
    var a := Decide(fields.value.0, fields.value.1);
    match a
    case Invalid(message) =>
      r := Fail(StatusBadRequest, message);
    case AddId(id) =>
      if fault {
        return Fail(StatusServerError, "Failed to manage allowed sensors");
      }
      list.Add(id);
      r := Json(StatusOk, id);
    case RemoveId(id) =>
      if fault {
        return Fail(StatusServerError, "Failed to manage allowed sensors");
      }
      list.Remove(id);
      r := Json(StatusOk, id);
  }
}
