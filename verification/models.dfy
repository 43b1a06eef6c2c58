/** The routine document: `Exercise`, `Day`, `Routine` and `ChatMessage`, with the field
    defaults of the domain model, `Routine.model_validate` on a decoded JSON value and the
    `model_dump` that goes the other way. */
module Models {
  import opened Wrappers
  import opened JsonData

  /** A `datetime` as the domain model carries it; its calendar structure plays no part here. */
  type Timestamp = string

  /** One exercise of a training day. `reps` and `rest` are free text ("8-12", "60 seg"). */
  datatype Exercise = Exercise(name: string, sets: int, reps: string, rest: string, equipment: string)

  /** A training day; its exercises are ordered and addressed by position. */
  datatype Day = Day(dayName: string, focus: string, exercises: seq<Exercise>)

  /** A routine; `id` is absent until the routine is stored. */
  datatype Routine = Routine(
    id: Option<int>,
    userId: int,
    routineName: string,
    days: seq<Day>,
    createdAt: Option<Timestamp>,
    updatedAt: Option<Timestamp>)

  /** One message of a routine's chat; `sender` is "user" or "assistant". */
  datatype ChatMessage = ChatMessage(routineId: int, sender: string, content: string, timestamp: Option<Timestamp>)

  /** The single-tenant user every routine belongs to unless told otherwise. */
  const DefaultUserId: int := 1

  /** `Routine(routine_name=..., days=..., ...)`: the fields left out take their declared defaults. */
  function NewRoutine(
    routineName: string,
    days: seq<Day>,
    id: Option<int> := None,
    userId: int := DefaultUserId,
    createdAt: Option<Timestamp> := None,
    updatedAt: Option<Timestamp> := None): (r: Routine)
    ensures r.routineName == routineName && r.days == days
    ensures r.id == id && r.userId == userId && r.createdAt == createdAt && r.updatedAt == updatedAt
  {
    Routine(id, userId, routineName, days, createdAt, updatedAt)
  }

  /** `ChatMessage(routine_id=..., sender=..., content=...)`: the timestamp is left to storage. */
  function NewChatMessage(routineId: int, sender: string, content: string, timestamp: Option<Timestamp> := None): (m: ChatMessage)
    ensures m.routineId == routineId && m.sender == sender && m.content == content && m.timestamp == timestamp
  {
    ChatMessage(routineId, sender, content, timestamp)
  }

  /** A routine built from its required fields alone has no id, belongs to user 1 and
      carries no timestamps. */
  lemma RoutineDefaults(routineName: string, days: seq<Day>)
    ensures NewRoutine(routineName, days).id == None
    ensures NewRoutine(routineName, days).userId == 1
    ensures NewRoutine(routineName, days).createdAt == None && NewRoutine(routineName, days).updatedAt == None
  {
  }

  // ---------------------------------------------------------------------------------------
  // model_dump: a routine as the JSON object it serialises to

  function OptIntToJson(v: Option<int>): Json {
    if v.Some? then JNum(v.value) else JNull
  }

  function OptTimestampToJson(v: Option<Timestamp>): Json {
    if v.Some? then JStr(v.value) else JNull
  }

  function ExerciseToJson(e: Exercise): Json {
    JObj(map["name" := JStr(e.name), "sets" := JNum(e.sets), "reps" := JStr(e.reps),
             "rest" := JStr(e.rest), "equipment" := JStr(e.equipment)])
  }

  function ExercisesToJson(es: seq<Exercise>): (r: seq<Json>)
    ensures |r| == |es|
  {
    if es == [] then [] else [ExerciseToJson(es[0])] + ExercisesToJson(es[1..])
  }

  function DayToJson(d: Day): Json {
    JObj(map["day_name" := JStr(d.dayName), "focus" := JStr(d.focus),
             "exercises" := JArr(ExercisesToJson(d.exercises))])
  }

  function DaysToJson(ds: seq<Day>): (r: seq<Json>)
    ensures |r| == |ds|
  {
    if ds == [] then [] else [DayToJson(ds[0])] + DaysToJson(ds[1..])
  }

  function RoutineToJson(r: Routine): Json {
    JObj(map["id" := OptIntToJson(r.id), "user_id" := JNum(r.userId),
             "routine_name" := JStr(r.routineName), "days" := JArr(DaysToJson(r.days)),
             "created_at" := OptTimestampToJson(r.createdAt),
             "updated_at" := OptTimestampToJson(r.updatedAt)])
  }

  // ---------------------------------------------------------------------------------------
  // model_validate: a decoded JSON value checked against the document shape

  /** A required text field. */
  function TextField(f: map<string, Json>, key: string): Option<string> {
    if key in f && f[key].JStr? then Some(f[key].s) else None
  }

  /** A required integer field. */
  function IntField(f: map<string, Json>, key: string): Option<int> {
    if key in f && f[key].JNum? then Some(f[key].n) else None
  }

  /** An `Optional[int] = None` field: absent and `null` both give `None`; the outer
      `None` means the value has the wrong type. */
  function OptIntField(f: map<string, Json>, key: string): Option<Option<int>> {
    if key !in f || f[key] == JNull then Some(None)
    else if f[key].JNum? then Some(Some(f[key].n))
    else None
  }

  /** An `int = d` field. */
  function IntFieldOr(f: map<string, Json>, key: string, d: int): Option<int> {
    if key !in f then Some(d) else if f[key].JNum? then Some(f[key].n) else None
  }

  /** An `Optional[datetime] = None` field. */
  function OptTimestampField(f: map<string, Json>, key: string): Option<Option<Timestamp>> {
    if key !in f || f[key] == JNull then Some(None)
    else if f[key].JStr? then Some(Some(f[key].s))
    else None
  }

  function ExerciseFromJson(j: Json): (r: Option<Exercise>)
    ensures r.Some? ==> j.JObj? && var dump := ExerciseToJson(r.value).fields;
              forall k :: k in dump ==> k in j.fields && j.fields[k] == dump[k]
  {
    if !j.JObj? then None
    else
      var f := j.fields;
      var name := TextField(f, "name");
      var sets := IntField(f, "sets");
      var reps := TextField(f, "reps");
      var rest := TextField(f, "rest");
      var equipment := TextField(f, "equipment");
      if name.Some? && sets.Some? && reps.Some? && rest.Some? && equipment.Some? then
        Some(Exercise(name.value, sets.value, reps.value, rest.value, equipment.value))
      else None
  }

  function ExercisesFromJson(items: seq<Json>): (r: Option<seq<Exercise>>)
    ensures r.Some? <==> forall i :: 0 <= i < |items| ==> ExerciseFromJson(items[i]).Some?
    ensures r.Some? ==> |r.value| == |items|
    ensures r.Some? ==> forall i :: 0 <= i < |items| ==> ExerciseFromJson(items[i]) == Some(r.value[i])
  {
    if items == [] then Some([])
    else
      match (ExerciseFromJson(items[0]), ExercisesFromJson(items[1..]))
      case (Some(e), Some(es)) => Some([e] + es)
      case _ => None
  }

  function DayFromJson(j: Json): (r: Option<Day>)
    ensures r.Some? ==> j.JObj? && "day_name" in j.fields && j.fields["day_name"] == JStr(r.value.dayName)
    ensures r.Some? ==> "focus" in j.fields && j.fields["focus"] == JStr(r.value.focus)
    ensures r.Some? ==> "exercises" in j.fields && j.fields["exercises"].JArr?
    ensures r.Some? ==> |r.value.exercises| == |j.fields["exercises"].items|
    ensures r.Some? ==> forall i :: 0 <= i < |r.value.exercises| ==>
              ExerciseFromJson(j.fields["exercises"].items[i]) == Some(r.value.exercises[i])
  {
    if !j.JObj? then None
    else
      var f := j.fields;
      var dayName := TextField(f, "day_name");
      var focus := TextField(f, "focus");
      var exercises := if "exercises" in f && f["exercises"].JArr? then ExercisesFromJson(f["exercises"].items) else None;
      if dayName.Some? && focus.Some? && exercises.Some? then Some(Day(dayName.value, focus.value, exercises.value))
      else None
  }

  function DaysFromJson(items: seq<Json>): (r: Option<seq<Day>>)
    ensures r.Some? <==> forall i :: 0 <= i < |items| ==> DayFromJson(items[i]).Some?
    ensures r.Some? ==> |r.value| == |items|
    ensures r.Some? ==> forall i :: 0 <= i < |items| ==> DayFromJson(items[i]) == Some(r.value[i])
  {
    if items == [] then Some([])
    else
      match (DayFromJson(items[0]), DaysFromJson(items[1..]))
      case (Some(d), Some(ds)) => Some([d] + ds)
      case _ => None
  }

  /** `Routine.model_validate(d)`. Unknown keys are ignored; `id`, `user_id` and the
      timestamps fall back to their defaults when absent. */
  function RoutineFromJson(j: Json): (r: Option<Routine>)
    ensures r.Some? ==> j.JObj? && "routine_name" in j.fields && j.fields["routine_name"] == JStr(r.value.routineName)
    ensures r.Some? ==> "days" in j.fields && j.fields["days"].JArr? && |r.value.days| == |j.fields["days"].items|
    ensures r.Some? ==> if "id" in j.fields then j.fields["id"] == OptIntToJson(r.value.id) else r.value.id == None
    ensures r.Some? ==> if "user_id" in j.fields then j.fields["user_id"] == JNum(r.value.userId) else r.value.userId == DefaultUserId
    ensures r.Some? ==> forall i :: 0 <= i < |r.value.days| ==>
              DayFromJson(j.fields["days"].items[i]) == Some(r.value.days[i])
    ensures r.Some? && ("created_at" !in j.fields || j.fields["created_at"] == JNull) ==> r.value.createdAt == None
    ensures r.Some? && "created_at" in j.fields && j.fields["created_at"] != JNull ==>
              r.value.createdAt.Some? && j.fields["created_at"] == JStr(r.value.createdAt.value)
    ensures r.Some? && ("updated_at" !in j.fields || j.fields["updated_at"] == JNull) ==> r.value.updatedAt == None
    ensures r.Some? && "updated_at" in j.fields && j.fields["updated_at"] != JNull ==>
              r.value.updatedAt.Some? && j.fields["updated_at"] == JStr(r.value.updatedAt.value)
  {
    if !j.JObj? then None
    else
      var f := j.fields;
      var id := OptIntField(f, "id");
      var userId := IntFieldOr(f, "user_id", DefaultUserId);
      var name := TextField(f, "routine_name");
      var days := if "days" in f && f["days"].JArr? then DaysFromJson(f["days"].items) else None;
      var createdAt := OptTimestampField(f, "created_at");
      var updatedAt := OptTimestampField(f, "updated_at");
      if id.Some? && userId.Some? && name.Some? && days.Some? && createdAt.Some? && updatedAt.Some? then
        Some(Routine(id.value, userId.value, name.value, days.value, createdAt.value, updatedAt.value))
      else None
  }

  // ---------------------------------------------------------------------------------------
  // Round trips: validating what model_dump produced gives the routine back

  lemma {:induction false} ExercisesRoundTrip(es: seq<Exercise>)
    ensures ExercisesFromJson(ExercisesToJson(es)) == Some(es)
  {
    if es != [] {
      var js := ExercisesToJson(es);
      assert js[0] == ExerciseToJson(es[0]);
      assert js[1..] == ExercisesToJson(es[1..]);
      ExercisesRoundTrip(es[1..]);
      ExerciseRoundTrip(es[0]);
      assert [es[0]] + es[1..] == es;
    }
  }

  lemma ExerciseRoundTrip(e: Exercise)
    ensures ExerciseFromJson(ExerciseToJson(e)) == Some(e)
  {
  }

  lemma {:induction false} DaysRoundTrip(ds: seq<Day>)
    ensures DaysFromJson(DaysToJson(ds)) == Some(ds)
  {
    if ds != [] {
      var js := DaysToJson(ds);
      assert js[0] == DayToJson(ds[0]);
      assert js[1..] == DaysToJson(ds[1..]);
      DaysRoundTrip(ds[1..]);
      DayRoundTrip(ds[0]);
      assert [ds[0]] + ds[1..] == ds;
    }
  }

  lemma DayRoundTrip(d: Day)
    ensures DayFromJson(DayToJson(d)) == Some(d)
  {
    ExercisesRoundTrip(d.exercises);
  }

  /** Validating the dump of a routine gives back the same routine. */
  lemma RoutineRoundTrip(r: Routine)
    ensures RoutineFromJson(RoutineToJson(r)) == Some(r)
  {
    IdentityRead(r);
    ContentRead(r);
    DaysRoundTrip(r.days);
  }

  /** The identity fields of a routine's dump read back as the routine's. */
  lemma IdentityRead(r: Routine)
    ensures var f := RoutineToJson(r).fields;
      OptIntField(f, "id") == Some(r.id) && IntFieldOr(f, "user_id", DefaultUserId) == Some(r.userId)
  {
  }

  /** The name, days and timestamps of a routine's dump read back as the routine's. */
  lemma ContentRead(r: Routine)
    ensures var f := RoutineToJson(r).fields;
      TextField(f, "routine_name") == Some(r.routineName) && "days" in f && f["days"] == JArr(DaysToJson(r.days)) &&
      OptTimestampField(f, "created_at") == Some(r.createdAt) && OptTimestampField(f, "updated_at") == Some(r.updatedAt)
  {
  }
}
