/** The Groq adapter (`RoutineGenerator` of the AI service): a guard on the configuration,
    one provider call per operation, a three-stage search for the JSON object in the reply,
    the identity overwrite, and every failure surfaced as a `ValueError`; it never falls
    back to the rule-based generator. `json.loads` is the parameter `parse`. */
module GroqService {
  import opened Wrappers
  import opened Text
  import opened JsonData
  import opened Models
  import opened Schemas
  import opened Fences
  import opened Provider
  import opened Adoption

  /** The `ValueError`s the adapter raises: the configuration guard's, and the one each
      operation wraps any failure of its call, extraction or validation in. */
  datatype AiError = NotConfigured | GenerationFailed | ModificationFailed | ExplanationFailed

  /** Stage three: `text[text.index("{"):text.rindex("}") + 1]`, or `None` when either
      brace is missing (`index` and `rindex` raise). The bounds may cross, and the slice is
      then empty. */
  function BraceSpan(text: string): (r: Option<string>)
    ensures r.Some? ==> r.value == [] || (r.value[0] == '{' && r.value[|r.value| - 1] == '}')
    ensures r.None? ==> !Contains(text, "{") || '}' !in text
  {
    var start := FindFrom(text, "{", 0);
    var last := LastIndexOf(text, '}');
    if start == -1 || last == -1 then None
    else
      assert text[start..start + 1] == "{";
      Some(Slice(text, start, last + 1))
  }

  /** `_extract_json_from_text`: the whole stripped text, else the first fenced block, else
      the brace span, the first that `parse` accepts; `{}` when none is accepted. */
  function ExtractJson(text: string, parse: string -> Option<Json>): (j: Json)
    ensures parse(Strip(text)).Some? ==> j == parse(Strip(text)).value
  {
    var whole := parse(Strip(text));
    var fenced := FirstFence(text);
    var span := BraceSpan(text);
    if whole.Some? then whole.value
    else if fenced.Some? && parse(fenced.value).Some? then parse(fenced.value).value
    else if span.Some? && parse(span.value).Some? then parse(span.value).value
    else EmptyObject
  }

  /** A fenced block surrounded by prose, in a reply that does not parse as a whole, gives
      the object in the block. */
  lemma FencedReplyExtracts(prose: string, tagged: bool, body: string, rest: string, parse: string -> Option<Json>, j: Json)
    requires '`' !in prose && '`' !in body
    requires !tagged ==> body == [] || body[0] != 'j'
    requires var text := prose + Fence + (if tagged then Tag else "") + body + Fence + rest;
      parse(Strip(text)) == None
    requires parse(Strip(body)) == Some(j)
    ensures ExtractJson(prose + Fence + (if tagged then Tag else "") + body + Fence + rest, parse) == j
  {
    FenceFound(prose, tagged, body, rest);
  }

  /** With no fence and a whole text that does not parse, the span from the first `{` to
      the last `}` is what is parsed: prose before the object without an opening brace,
      prose after it without a closing one. */
  lemma BracedReplyExtracts(prose: string, block: string, rest: string, parse: string -> Option<Json>)
    requires '`' !in prose + block + rest
    requires '{' !in prose && '}' !in rest
    requires block != [] && block[0] == '{' && block[|block| - 1] == '}'
    requires parse(Strip(prose + block + rest)) == None
    ensures ExtractJson(prose + block + rest, parse) == if parse(block).Some? then parse(block).value else EmptyObject
  {
    NoBacktickNoFence(prose + block + rest);
    BraceSpanOf(prose, block, rest);
  }

  /** The brace span of prose, a braced block and more prose is the block, when the first
      prose has no opening brace and the last no closing one. */
  lemma BraceSpanOf(prose: string, block: string, rest: string)
    requires '{' !in prose && '}' !in rest
    requires block != [] && block[0] == '{' && block[|block| - 1] == '}'
    ensures BraceSpan(prose + block + rest) == Some(block)
  {
    var text := prose + block + rest;
    assert FindFrom(text, "{", 0) == |prose| by {
      FindPast([], prose, "{", block[1..] + rest);
      assert [] + prose + "{" + (block[1..] + rest) == text;
    }
    var last := |prose| + |block| - 1;
    assert LastIndexOf(text, '}') == last by {
      assert text[last] == '}';
      assert forall i :: last < i < |text| ==> text[i] == rest[i - |prose| - |block|];
      LastIndexIs(text, '}', last);
    }
    assert text[|prose|..last + 1] == block;
  }

  /** The last index holding `c` is the one `LastIndexOf` reports. */
  lemma LastIndexIs(s: string, c: char, k: nat)
    requires k < |s| && s[k] == c
    requires forall i :: k < i < |s| ==> s[i] != c
    ensures LastIndexOf(s, c) == k
  {
  }

  /** Extraction never fails: when `parse` accepts nothing, the result is `{}`. */
  lemma NothingParsesGivesEmpty(text: string, parse: string -> Option<Json>)
    requires forall s :: parse(s) == None
    ensures ExtractJson(text, parse) == EmptyObject
  {
  }

  // ---------------------------------------------------------------------------------------
  // The public operations, as functions of the reply they get

  /** `create_initial_routine` after the guard, given the provider's reply. */
  function CreateOutcome(reply: Reply, request: RoutineRequest, parse: string -> Option<Json>): (r: Result<Routine, AiError>)
    ensures r.Failure? ==> r.error == GenerationFailed
    ensures r.Success? ==> reply.Completed? && r.value.userId == request.userId
  {
    if reply.ProviderFailed? then Failure(GenerationFailed)
    else
      var adopted := AdoptCreated(ExtractJson(reply.text, parse), request);
      if adopted.Some? then Success(adopted.value) else Failure(GenerationFailed)
  }

  /** `modify_routine` after the guard, given the provider's reply. */
  function ModifyOutcome(reply: Reply, current: Routine, parse: string -> Option<Json>): (r: Result<Routine, AiError>)
    ensures r.Failure? ==> r.error == ModificationFailed
    ensures r.Success? ==> reply.Completed? && r.value.id == current.id && r.value.userId == current.userId
  {
    if reply.ProviderFailed? then Failure(ModificationFailed)
    else
      var adopted := AdoptModified(ExtractJson(reply.text, parse), current);
      if adopted.Some? then Success(adopted.value) else Failure(ModificationFailed)
  }

  /** `explain_routine_changes` after the guard, given the provider's reply. */
  function ExplainOutcome(reply: Reply): (r: Result<string, AiError>)
    ensures reply.Completed? <==> r.Success?
    ensures r.Success? ==> r.value == Strip(reply.text)
    ensures r.Failure? ==> r.error == ExplanationFailed
  {
    if reply.Completed? then Success(Strip(reply.text)) else Failure(ExplanationFailed)
  }

  /** A reply that is the routine's dump, bare or with surrounding whitespace, is adopted
      as that routine owned by the requesting user, whatever user it names. */
  lemma CreateAdoptsDump(request: RoutineRequest, r: Routine, text: string, parse: string -> Option<Json>)
    requires parse(Strip(text)) == Some(RoutineToJson(r))
    ensures CreateOutcome(Completed(text), request, parse) == Success(r.(userId := request.userId))
  {
    CreatedFromDump(r, request);
  }

  /** A reply that is a routine's dump is adopted under the modified routine's id and user. */
  lemma ModifyAdoptsDump(current: Routine, r: Routine, text: string, parse: string -> Option<Json>)
    requires parse(Strip(text)) == Some(RoutineToJson(r))
    ensures ModifyOutcome(Completed(text), current, parse) == Success(r.(id := current.id, userId := current.userId))
  {
    ModifiedFromDump(r, current);
  }

  /** The day count of the request is not checked on this path: a reply with any number
      of days is accepted. */
  lemma DayCountNotEnforced(request: RoutineRequest, r: Routine, text: string, parse: string -> Option<Json>)
    requires parse(Strip(text)) == Some(RoutineToJson(r))
    ensures var o := CreateOutcome(Completed(text), request, parse);
      o.Success? && |o.value.days| == |r.days|
  {
    CreateAdoptsDump(request, r, text, parse);
  }

  /** The adapter. `configured` is the settings' verdict, cleared when the client could not
      be built; the client is absent exactly when the adapter is not configured. */
  class GroqRoutineGenerator {
    var configured: bool
    var client: CompletionClient?

    ghost predicate Valid()
      reads this
    {
      configured <==> client != null
    }

    /** `__init__`: `built` is the client construction's outcome, `null` when it raised. */
    constructor (aiConfigured: bool, built: CompletionClient?)
      ensures configured == (aiConfigured && built != null)
      ensures client == (if configured then built else null)
      ensures Valid()
    {
      configured := aiConfigured && built != null;
      client := if aiConfigured && built != null then built else null;
    }

    method CreateInitialRoutine(request: RoutineRequest, parse: string -> Option<Json>) returns (result: Result<Routine, AiError>)
      requires Valid()
      modifies client
      ensures !configured ==> result == Failure(NotConfigured)
      ensures configured ==> client.sent == old(client.sent) + [InitialPrompt(request)]
      ensures configured ==> client.script == Rest(old(client.script))
      ensures configured ==> result == CreateOutcome(NextReply(old(client.script)), request, parse)
    {
      if !configured {
        return Failure(NotConfigured);
      }
      var reply := client.Complete(InitialPrompt(request));
      result := CreateOutcome(reply, request, parse);
    }

    method ModifyRoutine(current: Routine, userRequest: string, parse: string -> Option<Json>) returns (result: Result<Routine, AiError>)
      requires Valid()
      modifies client
      ensures !configured ==> result == Failure(NotConfigured)
      ensures configured ==> client.sent == old(client.sent) + [ModificationPrompt(current, userRequest)]
      ensures configured ==> client.script == Rest(old(client.script))
      ensures configured ==> result == ModifyOutcome(NextReply(old(client.script)), current, parse)
    {
      if !configured {
        return Failure(NotConfigured);
      }
      var reply := client.Complete(ModificationPrompt(current, userRequest));
      result := ModifyOutcome(reply, current, parse);
    }

    /** Only the request text reaches the prompt; the two routines do not. */
    method ExplainRoutineChanges(before: Routine, after: Routine, userRequest: string) returns (result: Result<string, AiError>)
      requires Valid()
      modifies client
      ensures !configured ==> result == Failure(NotConfigured)
      ensures configured ==> client.sent == old(client.sent) + [ExplanationPrompt(userRequest)]
      ensures configured ==> client.script == Rest(old(client.script))
      ensures configured ==> result == ExplainOutcome(NextReply(old(client.script)))
    {
      if !configured {
        return Failure(NotConfigured);
      }
      var reply := client.Complete(ExplanationPrompt(userRequest));
      result := ExplainOutcome(reply);
    }
  }
}
