/** What both adapters do with the object they extracted from a reply before trusting it:
    reject a falsy value, overwrite the identity fields the model must not choose
    (`routine_dict["user_id"] = ...`, and `["id"]` when modifying), then validate the
    result as a `Routine`. A value that is not a `dict` fails at the item assignment. */
module Adoption {
  import opened Wrappers
  import opened JsonData
  import opened Models
  import opened Schemas

  /** The extracted value of a `create_initial_routine` reply, with the requesting user
      written in; `None` where the source raises. */
  function AdoptCreated(d: Json, request: RoutineRequest): (r: Option<Routine>)
    ensures r.Some? ==> r.value.userId == request.userId
    ensures !d.JObj? || d == EmptyObject ==> r == None
  {
    if !Truthy(d) then None
    else
      var stamped := SetKey(d, "user_id", JNum(request.userId));
      if stamped.None? then None else RoutineFromJson(stamped.value)
  }

  /** The extracted value of a `modify_routine` reply, with the id and user of the routine
      being modified written in; `None` where the source raises. */
  function AdoptModified(d: Json, current: Routine): (r: Option<Routine>)
    ensures r.Some? ==> r.value.id == current.id && r.value.userId == current.userId
    ensures !d.JObj? || d == EmptyObject ==> r == None
  {
    if !Truthy(d) then None
    else
      var withId := SetKey(d, "id", OptIntToJson(current.id));
      if withId.None? then None
      else
        var stamped := SetKey(withId.value, "user_id", JNum(current.userId)).value;
        var r := RoutineFromJson(stamped);
        if r.Some? then
          OptIntToJsonInjective(r.value.id, current.id);
          r
        else None
  }

  lemma OptIntToJsonInjective(a: Option<int>, b: Option<int>)
    requires OptIntToJson(a) == OptIntToJson(b)
    ensures a == b
  {
  }

  /** A reply that is the dump of a routine is adopted as that routine, owned by the
      requesting user. */
  lemma CreatedFromDump(r: Routine, request: RoutineRequest)
    ensures AdoptCreated(RoutineToJson(r), request) == Some(r.(userId := request.userId))
  {
    DumpWithUser(r, request.userId);
    RoutineRoundTrip(r.(userId := request.userId));
  }

  /** A reply that is the dump of a routine is adopted as that routine, under the id and
      user of the routine it modifies: whatever identity the reply claims is discarded. */
  lemma ModifiedFromDump(r: Routine, current: Routine)
    ensures AdoptModified(RoutineToJson(r), current) == Some(r.(id := current.id, userId := current.userId))
  {
    var adopted := r.(id := current.id, userId := current.userId);
    DumpWithId(r, current.id);
    DumpWithUser(r.(id := current.id), current.userId);
    assert r.(id := current.id).(userId := current.userId) == adopted;
    RoutineRoundTrip(adopted);
  }

  /** Writing `id` into a routine's dump gives the dump of the routine with that id. */
  lemma DumpWithId(r: Routine, id: Option<int>)
    ensures SetKey(RoutineToJson(r), "id", OptIntToJson(id)) == Some(RoutineToJson(r.(id := id)))
  {
    var written := RoutineToJson(r).fields["id" := OptIntToJson(id)];
    var dumped := RoutineToJson(r.(id := id)).fields;
    assert written.Keys == dumped.Keys;
    assert forall k | k in dumped :: written[k] == dumped[k];
    assert written == dumped;
  }

  /** Writing `user_id` into a routine's dump gives the dump of the routine with that user. */
  lemma DumpWithUser(r: Routine, userId: int)
    ensures SetKey(RoutineToJson(r), "user_id", JNum(userId)) == Some(RoutineToJson(r.(userId := userId)))
  {
    var written := RoutineToJson(r).fields["user_id" := JNum(userId)];
    var dumped := RoutineToJson(r.(userId := userId)).fields;
    assert written.Keys == dumped.Keys;
    assert forall k | k in dumped :: written[k] == dumped[k];
    assert written == dumped;
  }
}
