/** The request schemas of the routine endpoints: `RoutineRequest` (with the 1..7 range on
    `days`) and `ModifyRoutineRequest`, validated from the decoded request body. */
module Schemas {
  import opened Wrappers
  import opened JsonData
  import opened Models

  /** What a routine is asked for. Only `goals` is required; `days` may be absent. */
  datatype RoutineRequest = RoutineRequest(
    goals: string,
    equipment: string,
    days: Option<int>,
    experienceLevel: string,
    availableEquipment: string,
    timePerSession: string,
    healthConditions: string,
    userId: int)

  /** The body of the HTTP modify endpoint. */
  datatype ModifyRoutineRequest = ModifyRoutineRequest(message: string)

  /** Which field a rejected request failed on. */
  datatype ValidationError = NotAnObject | BadField(field: string)

  /** The constraint `Field(default=None, ge=1, le=7)` on `days`. */
  predicate DaysInRange(days: Option<int>) {
    days.None? || 1 <= days.value <= 7
  }

  /** A request every field of which satisfies the schema. */
  predicate ValidRequest(q: RoutineRequest) {
    DaysInRange(q.days)
  }

  /** A `str = ""` field. */
  function TextFieldOr(f: map<string, Json>, key: string): Option<string> {
    if key !in f then Some("") else if f[key].JStr? then Some(f[key].s) else None
  }

  /** The `days` field: absent or `null` is `None`; an integer must lie in 1..7. */
  function DaysField(f: map<string, Json>): Option<Option<int>> {
    if "days" !in f || f["days"] == JNull then Some(None)
    else if f["days"].JNum? && 1 <= f["days"].n <= 7 then Some(Some(f["days"].n))
    else None
  }

  /** `RoutineRequest(**body)`. */
  function RoutineRequestFromJson(j: Json): (r: Result<RoutineRequest, ValidationError>)
    ensures r.Success? ==> ValidRequest(r.value)
    ensures r.Success? ==> j.JObj? && "goals" in j.fields && j.fields["goals"] == JStr(r.value.goals)
    ensures r.Success? ==> (r.value.days.Some? <==> "days" in j.fields && j.fields["days"] != JNull)
    ensures r.Success? && r.value.days.Some? ==> j.fields["days"] == JNum(r.value.days.value)
    ensures r.Success? && "user_id" !in j.fields ==> r.value.userId == DefaultUserId
    ensures r.Success? && "equipment" !in j.fields ==> r.value.equipment == ""
    ensures r.Success? && "experience_level" !in j.fields ==> r.value.experienceLevel == ""
    ensures r.Success? && "available_equipment" !in j.fields ==> r.value.availableEquipment == ""
    ensures r.Success? && "time_per_session" !in j.fields ==> r.value.timePerSession == ""
    ensures r.Success? && "health_conditions" !in j.fields ==> r.value.healthConditions == ""
    ensures j.JObj? && "goals" !in j.fields ==> r.Failure?
    ensures j.JObj? && "days" in j.fields && j.fields["days"].JNum? && !(1 <= j.fields["days"].n <= 7) ==> r.Failure?
  {
    if !j.JObj? then Failure(NotAnObject)
    else
      var f := j.fields;
      var goals := TextField(f, "goals");
      var equipment := TextFieldOr(f, "equipment");
      var days := DaysField(f);
      var experience := TextFieldOr(f, "experience_level");
      var available := TextFieldOr(f, "available_equipment");
      var time := TextFieldOr(f, "time_per_session");
      var health := TextFieldOr(f, "health_conditions");
      var userId := IntFieldOr(f, "user_id", DefaultUserId);
      if goals.None? then Failure(BadField("goals"))
      else if equipment.None? then Failure(BadField("equipment"))
      else if days.None? then Failure(BadField("days"))
      else if experience.None? then Failure(BadField("experience_level"))
      else if available.None? then Failure(BadField("available_equipment"))
      else if time.None? then Failure(BadField("time_per_session"))
      else if health.None? then Failure(BadField("health_conditions"))
      else if userId.None? then Failure(BadField("user_id"))
      else Success(RoutineRequest(goals.value, equipment.value, days.value, experience.value,
                                  available.value, time.value, health.value, userId.value))
  }

  /** `ModifyRoutineRequest(**body)`: `message` is required text. */
  function ModifyRoutineRequestFromJson(j: Json): (r: Result<ModifyRoutineRequest, ValidationError>)
    ensures r.Success? <==> j.JObj? && "message" in j.fields && j.fields["message"].JStr?
    ensures r.Success? ==> j.fields["message"] == JStr(r.value.message)
  {
    if !j.JObj? then Failure(NotAnObject)
    else if "message" in j.fields && j.fields["message"].JStr? then Success(ModifyRoutineRequest(j.fields["message"].s))
    else Failure(BadField("message"))
  }

  /** The body a client sends for a request. */
  function RoutineRequestToJson(q: RoutineRequest): Json {
    JObj(map["goals" := JStr(q.goals), "equipment" := JStr(q.equipment), "days" := OptIntToJson(q.days),
             "experience_level" := JStr(q.experienceLevel), "available_equipment" := JStr(q.availableEquipment),
             "time_per_session" := JStr(q.timePerSession), "health_conditions" := JStr(q.healthConditions),
             "user_id" := JNum(q.userId)])
  }

  /** A request is accepted back exactly when its `days` lies in range. */
  lemma RequestRoundTrip(q: RoutineRequest)
    ensures RoutineRequestFromJson(RoutineRequestToJson(q)).Success? <==> ValidRequest(q)
    ensures ValidRequest(q) ==> RoutineRequestFromJson(RoutineRequestToJson(q)) == Success(q)
  {
  }

  /** A body holding only `goals` is a request for an unspecified number of days by user 1,
      every other text field empty. */
  lemma GoalsOnlyRequest(goals: string)
    ensures RoutineRequestFromJson(JObj(map["goals" := JStr(goals)]))
         == Success(RoutineRequest(goals, "", None, "", "", "", "", DefaultUserId))
  {
  }
}
