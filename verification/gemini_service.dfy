/** The Gemini adapter (`GeminiRoutineGenerator`): one provider call per operation, a
    two-way search for the JSON object in the reply, the identity overwrite, and on any
    failure the rule-based generator's answer instead. It has no configuration guard.
    `json.loads` is the parameter `parse`. */
module GeminiService {
  import opened Wrappers
  import opened Text
  import opened JsonData
  import opened Models
  import opened Schemas
  import opened Catalog
  import opened Fences
  import opened Provider
  import opened Adoption
  import RoutineService
  import GroqService

  /** `_extract_json_from_text`: the first fenced block when the reply has one, otherwise
      the whole stripped text; `{}` when that one candidate does not parse. */
  function ExtractJson(text: string, parse: string -> Option<Json>): (j: Json)
    ensures FirstFence(text).None? && parse(Strip(text)).Some? ==> j == parse(Strip(text)).value
  {
    var candidate := match FirstFence(text) case Some(body) => body case None => Strip(text);
    match parse(candidate)
    case Some(v) => v
    case None => EmptyObject
  }

  /** A fenced block surrounded by prose gives the object in the block, whether or not
      the whole reply would parse. */
  lemma FencedReplyExtracts(prose: string, tagged: bool, body: string, rest: string, parse: string -> Option<Json>, j: Json)
    requires '`' !in prose && '`' !in body
    requires !tagged ==> body == [] || body[0] != 'j'
    requires parse(Strip(body)) == Some(j)
    ensures ExtractJson(prose + Fence + (if tagged then Tag else "") + body + Fence + rest, parse) == j
  {
    FenceFound(prose, tagged, body, rest);
  }

  /** A first fenced block that does not parse gives `{}`: the whole text is not tried. */
  lemma MalformedFenceGivesEmpty(text: string, parse: string -> Option<Json>)
    requires FirstFence(text).Some? && parse(FirstFence(text).value).None?
    ensures ExtractJson(text, parse) == EmptyObject
  {
  }

  /** The two adapters try their stages in different orders: a reply that parses as a
      whole but holds a fenced block that does not (a JSON text with three backticks in a
      string, say) is the whole object for the Groq adapter and `{}` here. */
  lemma StageOrdersDiffer(text: string, parse: string -> Option<Json>, j: Json)
    requires FirstFence(text).Some? && parse(FirstFence(text).value).None?
    requires parse(Strip(text)) == Some(j)
    ensures GroqService.ExtractJson(text, parse) == j
    ensures ExtractJson(text, parse) == EmptyObject
  {
  }

  /** There is no brace stage: prose around a bare object, without fences, gives `{}` here
      whenever the whole text does not parse, where the Groq adapter finds the object. */
  lemma ProseAroundObjectIsLost(prose: string, block: string, rest: string, parse: string -> Option<Json>, j: Json)
    requires '`' !in prose + block + rest
    requires '{' !in prose && '}' !in rest
    requires block != [] && block[0] == '{' && block[|block| - 1] == '}'
    requires parse(Strip(prose + block + rest)) == None && parse(block) == Some(j)
    ensures ExtractJson(prose + block + rest, parse) == EmptyObject
    ensures GroqService.ExtractJson(prose + block + rest, parse) == j
  {
    NoBacktickNoFence(prose + block + rest);
    GroqService.BracedReplyExtracts(prose, block, rest, parse);
  }

  /** The routine the provider path yields for `create_initial_routine`, or `None` where
      the source falls back. */
  function Created(reply: Reply, request: RoutineRequest, parse: string -> Option<Json>): (r: Option<Routine>)
    ensures r.Some? ==> reply.Completed? && r.value.userId == request.userId
  {
    if reply.ProviderFailed? then None else AdoptCreated(ExtractJson(reply.text, parse), request)
  }

  /** The routine the provider path yields for `modify_routine`, or `None` where the
      source falls back. */
  function Modified(reply: Reply, current: Routine, parse: string -> Option<Json>): (r: Option<Routine>)
    ensures r.Some? ==> reply.Completed? && r.value.id == current.id && r.value.userId == current.userId
  {
    if reply.ProviderFailed? then None else AdoptModified(ExtractJson(reply.text, parse), current)
  }

  /** A fenced dump of a routine in a reply is adopted under the modified routine's id and
      user. */
  lemma ModifyAdoptsFencedDump(current: Routine, r: Routine, prose: string, body: string, rest: string, parse: string -> Option<Json>)
    requires '`' !in prose && '`' !in body
    requires parse(Strip(body)) == Some(RoutineToJson(r))
    ensures Modified(Completed(prose + Fence + Tag + body + Fence + rest), current, parse)
      == Some(r.(id := current.id, userId := current.userId))
  {
    FencedReplyExtracts(prose, true, body, rest, parse, RoutineToJson(r));
    assert prose + Fence + (if true then Tag else "") + body + Fence + rest == prose + Fence + Tag + body + Fence + rest;
    ModifiedFromDump(r, current);
  }

  /** What `modify_routine` may return given the provider's reply: the adopted routine
      when the reply yields one, otherwise a rule-based modification of `current` as the
      request asks. */
  ghost predicate ModifiedBy(reply: Reply, current: Routine, userRequest: string, parse: string -> Option<Json>, r: Routine) {
    var m := Modified(reply, current, parse);
    if m.Some? then r == m.value else RoutineService.ModifiedAsAsked(current, r, userRequest)
  }

  /** What `explain_routine_changes` may return given the provider's reply: the reply's
      stripped text, otherwise a rule-based account of the changes from `before` to `after`. */
  ghost predicate ExplainedBy(reply: Reply, before: Routine, after: Routine, explanation: string) {
    if reply.Completed? then explanation == Strip(reply.text) else RoutineService.ExplainsChanges(before, after, explanation)
  }

  class GeminiRoutineGenerator {
    /** The module-level `GenerativeModel` the methods call. */
    var client: CompletionClient

    constructor (client: CompletionClient)
      ensures this.client == client
    {
      this.client := client;
    }

    /** `create_initial_routine`. The fallback is the rule-based generator with the focus
        table `muscleGroups`; its own failures propagate. */
    method CreateInitialRoutine(request: RoutineRequest, muscleGroups: map<string, seq<string>>, parse: string -> Option<Json>)
      returns (result: Result<Routine, RoutineService.GenerationError>)
      requires GroupsInCatalog(muscleGroups)
      modifies client
      ensures client.sent == old(client.sent) + [InitialPrompt(request)]
      ensures client.script == Rest(old(client.script))
      ensures var c := Created(NextReply(old(client.script)), request, parse);
        c.Some? ==> result == Success(c.value)
      ensures var c := Created(NextReply(old(client.script)), request, parse);
        c.None? ==> (result.Success? ==> request.days.Some? && RoutineService.GeneratedFor(result.value, request, muscleGroups))
      ensures var c := Created(NextReply(old(client.script)), request, parse);
        c.None? && request.days.None? ==> result == Failure(RoutineService.DaysMissing)
      ensures var c := Created(NextReply(old(client.script)), request, parse);
        c.None? && request.days.Some? ==>
          (result.Failure? <==>
             RoutineService.FocusMissing(RoutineTypes[RoutineService.DetermineRoutineType(request.goals)].focusMap,
                                         RoutineService.Min(request.days.value, 7), muscleGroups))
      ensures result.Success? ==> result.value.userId == request.userId
    {
      var reply := client.Complete(InitialPrompt(request));
      var created := Created(reply, request, parse);
      if created.Some? {
        return Success(created.value);
      }
      result := RoutineService.CreateInitialRoutine(request, muscleGroups);
    }

    /** `modify_routine`: the provider's routine, or the rule-based modification; either way
        under the id and user of `current`. */
    method ModifyRoutine(current: Routine, userRequest: string, parse: string -> Option<Json>) returns (r: Routine)
      modifies client
      ensures client.sent == old(client.sent) + [ModificationPrompt(current, userRequest)]
      ensures client.script == Rest(old(client.script))
      ensures ModifiedBy(NextReply(old(client.script)), current, userRequest, parse, r)
      ensures r.id == current.id && r.userId == current.userId
    {
      var reply := client.Complete(ModificationPrompt(current, userRequest));
      var modified := Modified(reply, current, parse);
      if modified.Some? {
        return modified.value;
      }
      r := RoutineService.ModifyRoutine(current, userRequest);
    }

    /** `explain_routine_changes`: the provider's stripped text, or the rule-based
        explanation of the difference between the two routines. */
    method ExplainRoutineChanges(before: Routine, after: Routine, userRequest: string) returns (explanation: string)
      modifies client
      ensures client.sent == old(client.sent) + [ExplanationPrompt(userRequest)]
      ensures client.script == Rest(old(client.script))
      ensures ExplainedBy(NextReply(old(client.script)), before, after, explanation)
    {
      var reply := client.Complete(ExplanationPrompt(userRequest));
      if reply.Completed? {
        return Strip(reply.text);
      }
      explanation := RoutineService.ExplainRoutineChanges(before, after, userRequest);
    }
  }
}
