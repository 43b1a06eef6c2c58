/** The websocket chat handler (`WebSocketRoutes`): frame dispatch, the chat turn (look up
    the routine, save the user's message, modify, explain, save the routine, save the
    explanation, broadcast) and the image-analysis turn. Each turn is specified by a
    function giving the events it appends to the world's trace; the methods are proved
    against those functions. A send to the sender's own socket that raises inside the
    turn's error handler escapes the turn: `escaped`. */
module ChatRoutes {
  import opened Wrappers
  import opened Text
  import opened JsonData
  import opened Models
  import opened Provider
  import opened Environment
  import opened Connections
  import RoutineService
  import GeminiService

  /** What `websocket.receive()` hands the loop: a text frame, a binary frame, or a
      message with neither. The end of the sequence is the client's disconnect. */
  datatype Frame = TextFrame(text: string) | BytesFrame | OtherFrame

  /** How a text message is routed. */
  datatype Kind = Ping | AnalyzeImage(fields: map<string, Json>) | Instruction

  /** The routing of `_handle_text_message`: a JSON object whose `type` is `"ping"` or
      `"analyze_image"`, and anything else (other JSON, or text `json.loads` rejects) is an
      instruction for the routine. */
  function Classify(message: string, parse: string -> Option<Json>): (k: Kind)
    ensures parse(message).None? ==> k == Instruction
    ensures k.Ping? ==> parse(message).Some? && parse(message).value.JObj?
    ensures k.AnalyzeImage? ==> parse(message) == Some(JObj(k.fields)) && Get(k.fields, "type") == Some(JStr("analyze_image"))
  {
    match parse(message)
    case Some(JObj(fields)) =>
      if Get(fields, "type") == Some(JStr("ping")) then Ping
      else if Get(fields, "type") == Some(JStr("analyze_image")) then AnalyzeImage(fields)
      else Instruction
    case _ => Instruction
  }

  /** Only an object tagged `ping` or `analyze_image` escapes the chat path: an object with
      any other `type`, or none, is an instruction, and so is every JSON value that is not
      an object. */
  lemma OnlyTaggedObjectsAreCommands(message: string, parse: string -> Option<Json>)
    requires parse(message).Some?
    requires !parse(message).value.JObj?
      || (var t := Get(parse(message).value.fields, "type"); t != Some(JStr("ping")) && t != Some(JStr("analyze_image")))
    ensures Classify(message, parse) == Instruction
  {
  }

  /** The request `_handle_image_analysis` makes of the analyser, or `None` when
      `image_data` is absent or falsy. `action` defaults to `"analyze_form"`; any other
      value, `null` included, asks for variations. */
  function ImageRequestFor(fields: map<string, Json>): (r: Option<ImageRequest>)
    ensures r.None? <==> Get(fields, "image_data").None? || !Truthy(fields["image_data"])
    ensures r.Some? ==> r.value.imageData == fields["image_data"]
    ensures r.Some? ==> (r.value.AnalyzeForm? <==> Get(fields, "action") in {None, Some(JStr("analyze_form"))})
    ensures r.Some? && r.value.AnalyzeForm? ==> r.value.exerciseName == if "exercise_name" in fields then fields["exercise_name"] else JNull
  {
    match Get(fields, "image_data")
    case None => None
    case Some(imageData) =>
      if !Truthy(imageData) then None
      else
        var action := if "action" in fields then fields["action"] else JStr("analyze_form");
        var exerciseName := if "exercise_name" in fields then fields["exercise_name"] else JNull;
        if action == JStr("analyze_form") then Some(AnalyzeForm(imageData, exerciseName))
        else Some(SuggestVariations(imageData))
  }

  // ---------------------------------------------------------------------------------------
  // Turns as functions of the world they start in

  /** The events a turn appends, and whether it escaped to the connection loop. */
  datatype TurnResult = TurnResult(events: seq<Event>, escaped: bool)

  /** Sending `message` to the sender: recorded when its socket takes it; otherwise the
      error handler's own reply raises too, and the turn escapes with nothing recorded. */
  function ReplyTo(c: ConnId, broken: set<ConnId>, message: Outgoing): (t: TurnResult)
    ensures t.escaped <==> c in broken
    ensures t.events == if c in broken then [] else [Sent(c, message)]
  {
    if c in broken then TurnResult([], true) else TurnResult([Sent(c, message)], false)
  }

  /** `events` followed by what `t` does. */
  function Then(events: seq<Event>, t: TurnResult): TurnResult {
    TurnResult(events + t.events, t.escaped)
  }

  /** The turn's trace and verdict, as observed. */
  predicate Recorded(before: seq<Event>, after: seq<Event>, escaped: bool, t: TurnResult) {
    after == before + t.events && escaped == t.escaped
  }

  /** A turn that first appends `events` and then does `t` is recorded as `Then(events, t)`. */
  lemma Chained(before: seq<Event>, mid: seq<Event>, after: seq<Event>, events: seq<Event>, escaped: bool, t: TurnResult)
    requires mid == before + events && Recorded(mid, after, escaped, t)
    ensures Recorded(before, after, escaped, Then(events, t))
  {
    assert before + events + t.events == before + (events + t.events);
  }

  /** The rows written for a chat message. */
  function UserSaved(routineId: int, message: string): Event {
    MessageSaved(NewChatMessage(routineId, "user", message))
  }

  function AssistantSaved(routineId: int, content: string): Event {
    MessageSaved(NewChatMessage(routineId, "assistant", content))
  }

  /** Whether the generator is reached: the routine was found and the user's message
      saved. Repository operations are numbered from the lookup, 0. */
  predicate GeneratorRuns(routines: map<int, Routine>, faults: seq<bool>, routineId: int) {
    Fetch(routines, faults, routineId).Found? && !Fault(faults, 1)
  }

  /** What the generator's two calls hand the chat turn: the modified routine and the
      explanation, or an exception from either call (the Groq adapter raises `ValueError`
      when unconfigured or when the provider's reply does not validate). */
  datatype GenerationOutcome = Produced(modified: Routine, explanation: string) | GenerationRaised

  /** Whether `save_routine` succeeds. */
  predicate RoutineWritten(routines: map<int, Routine>, faults: seq<bool>, routineId: int, g: GenerationOutcome) {
    GeneratorRuns(routines, faults, routineId) && g.Produced? && !Fault(faults, 2)
  }

  /** The end of a turn that reached its broadcast: the sends up to the first broken
      socket, then, when one raised, the error handler's reply with `reason`. */
  function Broadcasting(c: ConnId, conns: seq<ConnId>, broken: set<ConnId>, message: Outgoing, reason: ErrorReason): (t: TurnResult)
    ensures t.escaped ==> c in broken
  {
    Then(SendsTo(Reached(conns, broken), message),
         if AllHealthy(conns, broken) then TurnResult([], false) else ReplyTo(c, broken, ErrorReply(reason)))
  }

  /** The chat turn after generation: save the routine, save the explanation, broadcast
      the update; `faults` is numbered from `save_routine`. */
  function Persisting(c: ConnId, routineId: int, m: Routine, e: string, faults: seq<bool>,
                      conns: seq<ConnId>, broken: set<ConnId>): (t: TurnResult)
    ensures t.escaped ==> c in broken
  {
    if Fault(faults, 0) then ReplyTo(c, broken, ErrorReply(ProcessingFailed))
    else Then([RoutineSaved(routineId, m)],
              if Fault(faults, 1) then ReplyTo(c, broken, ErrorReply(ProcessingFailed))
              else Then([AssistantSaved(routineId, e)], Broadcasting(c, conns, broken, RoutineUpdate(m, e), ProcessingFailed)))
  }

  /** The chat turn once the routine is found: save the user's message, then generate, then
      persist and broadcast; a generation that raises goes to the error handler. `faults` is
      numbered from that first save. */
  function Answering(c: ConnId, routineId: int, message: string, g: GenerationOutcome, faults: seq<bool>,
                     conns: seq<ConnId>, broken: set<ConnId>): (t: TurnResult)
    ensures t.escaped ==> c in broken
  {
    if Fault(faults, 0) then ReplyTo(c, broken, ErrorReply(ProcessingFailed))
    else Then([UserSaved(routineId, message)],
              match g
              case GenerationRaised => ReplyTo(c, broken, ErrorReply(ProcessingFailed))
              case Produced(m, e) => Persisting(c, routineId, m, e, Skip(faults, 1), conns, broken))
  }

  /** `_handle_text_message` on an instruction: `g` stands for what the generator hands
      back when it is reached; `conns` is the routine's registered sockets. Every failure
      after the lookup lands in one error handler, which replies to the sender alone. */
  function ChatTurn(c: ConnId, routineId: int, message: string, routines: map<int, Routine>, faults: seq<bool>,
                    g: GenerationOutcome, conns: seq<ConnId>, broken: set<ConnId>): (t: TurnResult)
    ensures t.escaped ==> c in broken
  {
    match Fetch(routines, faults, routineId)
    case FetchFailed => ReplyTo(c, broken, ErrorReply(ProcessingFailed))
    case NotFound => ReplyTo(c, broken, ErrorReply(RoutineNotFound))
    case Found(_) => Answering(c, routineId, message, g, Skip(faults, 1), conns, broken)
  }

  /** How many repository operations the tail of the chat turn performs. */
  function PersistOps(faults: seq<bool>): nat {
    if Fault(faults, 0) then 1 else 2
  }

  /** How many repository operations the chat turn performs once the routine is found. */
  function AnswerOps(faults: seq<bool>, g: GenerationOutcome): nat {
    if Fault(faults, 0) || g.GenerationRaised? then 1 else 1 + PersistOps(Skip(faults, 1))
  }

  /** How many repository operations the chat turn performs. */
  function ChatOps(routines: map<int, Routine>, faults: seq<bool>, routineId: int, g: GenerationOutcome): nat {
    if !Fetch(routines, faults, routineId).Found? then 1
    else 1 + AnswerOps(Skip(faults, 1), g)
  }

  /** One chat turn's use of the generator: the routine it modified, the request, the
      parser, the provider's script when the turn began, and what came out. */
  datatype Generation = Generation(current: Routine, message: string, parse: string -> Option<Json>, script: seq<Reply>,
                                   modified: Routine, explanation: string)

  /** What the generator's two calls produce from the provider's script: the adopted
      routine or the rule-based modification, then the provider's stripped text or the
      rule-based explanation. */
  ghost predicate Generated(g: Generation) {
    && GeminiService.ModifiedBy(NextReply(g.script), g.current, g.message, g.parse, g.modified)
    && GeminiService.ExplainedBy(NextReply(Rest(g.script)), g.current, g.modified, g.explanation)
  }

  /** `_handle_image_analysis`: `analysis` is the analyser's answer when it is asked. Its
      own error handler replies `ImageAnalysisFailed` to the sender alone. */
  function ImageTurn(c: ConnId, routineId: int, request: Option<ImageRequest>, analysis: string, faults: seq<bool>,
                     conns: seq<ConnId>, broken: set<ConnId>): (t: TurnResult)
    ensures t.escaped ==> c in broken
  {
    if request.None? then ReplyTo(c, broken, ErrorReply(ImageDataMissing))
    else if Fault(faults, 0) then ReplyTo(c, broken, ErrorReply(ImageAnalysisFailed))
    else Then([AssistantSaved(routineId, analysis)], Broadcasting(c, conns, broken, ImageAnalysisUpdate(analysis), ImageAnalysisFailed))
  }

  // ---------------------------------------------------------------------------------------
  // What the turns guarantee

  /** A routine update is broadcast only after the generator produced a routine and an
      explanation and the user's message, the routine and the explanation are all saved;
      it carries the saved routine and explanation. */
  lemma UpdateOnlyAfterSaves(c: ConnId, routineId: int, message: string, routines: map<int, Routine>, faults: seq<bool>,
                             g: GenerationOutcome, conns: seq<ConnId>, broken: set<ConnId>, i: nat)
    requires var t := ChatTurn(c, routineId, message, routines, faults, g, conns, broken);
      i < |t.events| && t.events[i].Sent? && t.events[i].outgoing.RoutineUpdate?
    ensures g.Produced?
    ensures var t := ChatTurn(c, routineId, message, routines, faults, g, conns, broken);
      3 <= i && t.events[..3] == [UserSaved(routineId, message), RoutineSaved(routineId, g.modified), AssistantSaved(routineId, g.explanation)]
      && t.events[i].outgoing == RoutineUpdate(g.modified, g.explanation)
  {
    var t := ChatTurn(c, routineId, message, routines, faults, g, conns, broken);
    assert RoutineWritten(routines, faults, routineId, g) && !Fault(faults, 3) by {
      if !(RoutineWritten(routines, faults, routineId, g) && !Fault(faults, 3)) {
        NoBroadcastOnFailure(c, routineId, message, routines, faults, g, conns, broken);
      }
    }
    var m, e := g.modified, g.explanation;
    var prefix := [UserSaved(routineId, message), RoutineSaved(routineId, m), AssistantSaved(routineId, e)];
    var b := Broadcasting(c, conns, broken, RoutineUpdate(m, e), ProcessingFailed);
    assert t.events == [prefix[0]] + ([prefix[1]] + ([prefix[2]] + b.events));
    assert [prefix[0]] + ([prefix[1]] + ([prefix[2]] + b.events)) == [prefix[0], prefix[1], prefix[2]] + b.events;
    assert t.events[..3] == prefix;
    var sends := SendsTo(Reached(conns, broken), RoutineUpdate(m, e));
    assert b.events == sends + (if AllHealthy(conns, broken) then [] else ReplyTo(c, broken, ErrorReply(ProcessingFailed)).events);
    assert t.events[i] == b.events[i - 3];
  }

  /** A turn that fails before the broadcast, for any reason (a repository operation or the
      generator raising), sends nothing but one error reply to the sender: no other socket
      hears of it. */
  lemma NoBroadcastOnFailure(c: ConnId, routineId: int, message: string, routines: map<int, Routine>, faults: seq<bool>,
                             g: GenerationOutcome, conns: seq<ConnId>, broken: set<ConnId>)
    requires !Fetch(routines, faults, routineId).Found? || Fault(faults, 1) || g.GenerationRaised? || Fault(faults, 2) || Fault(faults, 3)
    ensures var t := ChatTurn(c, routineId, message, routines, faults, g, conns, broken);
      forall ev :: ev in t.events && ev.Sent? ==> ev.conn == c && ev.outgoing.ErrorReply?
    ensures var t := ChatTurn(c, routineId, message, routines, faults, g, conns, broken);
      forall ev :: ev in t.events ==> !(ev.Sent? && ev.outgoing.RoutineUpdate?)
  {
  }

  /** A generator that raises, once the user's message is saved, leaves exactly that row and
      one error reply to the sender: no routine or explanation is saved. */
  lemma GenerationFailureKeepsOnlyMessage(c: ConnId, routineId: int, message: string, routines: map<int, Routine>, faults: seq<bool>,
                                          conns: seq<ConnId>, broken: set<ConnId>)
    requires GeneratorRuns(routines, faults, routineId)
    ensures ChatTurn(c, routineId, message, routines, faults, GenerationRaised, conns, broken)
      == Then([UserSaved(routineId, message)], ReplyTo(c, broken, ErrorReply(ProcessingFailed)))
  {
  }

  /** Writes are not rolled back: once the user's message is saved it stays in the trace,
      first, whatever happens after. */
  lemma UserMessageNotRolledBack(c: ConnId, routineId: int, message: string, routines: map<int, Routine>, faults: seq<bool>,
                                 g: GenerationOutcome, conns: seq<ConnId>, broken: set<ConnId>)
    requires GeneratorRuns(routines, faults, routineId)
    ensures var t := ChatTurn(c, routineId, message, routines, faults, g, conns, broken);
      t.events != [] && t.events[0] == UserSaved(routineId, message)
  {
  }

  /** A missing routine is answered with an error to the sender only; nothing is saved. */
  lemma MissingRoutineTouchesNothing(c: ConnId, routineId: int, message: string, routines: map<int, Routine>, faults: seq<bool>,
                                     g: GenerationOutcome, conns: seq<ConnId>, broken: set<ConnId>)
    requires routineId !in routines
    ensures var t := ChatTurn(c, routineId, message, routines, faults, g, conns, broken);
      forall ev :: ev in t.events ==> ev == Sent(c, ErrorReply(if Fault(faults, 0) then ProcessingFailed else RoutineNotFound))
  {
  }

  /** A routine is saved exactly when `save_routine` is reached and succeeds, and then it is
      the generator's routine under the turn's own id. */
  lemma RoutineSavedIffWritten(c: ConnId, routineId: int, message: string, routines: map<int, Routine>, faults: seq<bool>,
                               g: GenerationOutcome, conns: seq<ConnId>, broken: set<ConnId>)
    ensures var t := ChatTurn(c, routineId, message, routines, faults, g, conns, broken);
      g.Produced? ==> (RoutineSaved(routineId, g.modified) in t.events <==> RoutineWritten(routines, faults, routineId, g))
    ensures var t := ChatTurn(c, routineId, message, routines, faults, g, conns, broken);
      forall ev :: ev in t.events && ev.RoutineSaved? ==> RoutineWritten(routines, faults, routineId, g) && ev == RoutineSaved(routineId, g.modified)
  {
    var t := ChatTurn(c, routineId, message, routines, faults, g, conns, broken);
    if RoutineWritten(routines, faults, routineId, g) {
      assert t.events[1] == RoutineSaved(routineId, g.modified);
    }
  }

  /** With every save succeeding and every registered socket healthy, each of them gets the
      update, in registration order, and the turn ends quietly. */
  lemma BroadcastFanOut(c: ConnId, routineId: int, message: string, routines: map<int, Routine>, faults: seq<bool>,
                        m: Routine, e: string, conns: seq<ConnId>, broken: set<ConnId>)
    requires RoutineWritten(routines, faults, routineId, Produced(m, e)) && !Fault(faults, 3)
    requires AllHealthy(conns, broken)
    ensures ChatTurn(c, routineId, message, routines, faults, Produced(m, e), conns, broken)
      == TurnResult([UserSaved(routineId, message), RoutineSaved(routineId, m), AssistantSaved(routineId, e)]
                      + SendsTo(conns, RoutineUpdate(m, e)), false)
  {
    ReachedAllIffHealthy(conns, broken);
  }

  /** The broadcast is not isolated: with the `k`-th registered socket broken, the sockets
      before it get the update, the later ones do not, and the sender, if healthy, gets an
      error as well, after the update went out to others. */
  lemma PartialFanOut(c: ConnId, routineId: int, message: string, routines: map<int, Routine>, faults: seq<bool>,
                      m: Routine, e: string, conns: seq<ConnId>, broken: set<ConnId>, k: nat)
    requires RoutineWritten(routines, faults, routineId, Produced(m, e)) && !Fault(faults, 3)
    requires k < |conns| && conns[k] in broken && c !in broken
    requires forall j :: 0 <= j < k ==> conns[j] !in broken
    ensures ChatTurn(c, routineId, message, routines, faults, Produced(m, e), conns, broken)
      == TurnResult([UserSaved(routineId, message), RoutineSaved(routineId, m), AssistantSaved(routineId, e)]
                      + SendsTo(conns[..k], RoutineUpdate(m, e)) + [Sent(c, ErrorReply(ProcessingFailed))], false)
  {
    ReachedStopsAt(conns, broken, k);
    assert !AllHealthy(conns, broken);
  }

  /** An image request without image data saves nothing and broadcasts nothing. */
  lemma MissingImageTouchesNothing(c: ConnId, routineId: int, fields: map<string, Json>, analysis: string, faults: seq<bool>,
                                   conns: seq<ConnId>, broken: set<ConnId>)
    requires "image_data" !in fields
    ensures ImageTurn(c, routineId, ImageRequestFor(fields), analysis, faults, conns, broken)
      == ReplyTo(c, broken, ErrorReply(ImageDataMissing))
  {
  }

  /** The analysis is saved before it is broadcast, and a healthy registry receives it
      whole. */
  lemma AnalysisSavedThenBroadcast(c: ConnId, routineId: int, request: ImageRequest, analysis: string, faults: seq<bool>,
                                   conns: seq<ConnId>, broken: set<ConnId>)
    requires !Fault(faults, 0) && AllHealthy(conns, broken)
    ensures ImageTurn(c, routineId, Some(request), analysis, faults, conns, broken)
      == TurnResult([AssistantSaved(routineId, analysis)] + SendsTo(conns, ImageAnalysisUpdate(analysis)), false)
  {
    ReachedAllIffHealthy(conns, broken);
  }

  // ---------------------------------------------------------------------------------------
  // The handler

  class WebSocketRoutes {
    const manager: ConnectionManager
    const generator: GeminiService.GeminiRoutineGenerator
    const analyzer: ImageAnalyzer
    /** Every use of the generator by a chat turn, oldest first. */
    ghost var generations: seq<Generation>

    /** Each routine and explanation a chat turn broadcast came from the generator as its
        contract allows. */
    ghost predicate Valid()
      reads this
    {
      forall i :: 0 <= i < |generations| ==> Generated(generations[i])
    }

    constructor (manager: ConnectionManager, generator: GeminiService.GeminiRoutineGenerator, analyzer: ImageAnalyzer)
      ensures this.manager == manager && this.generator == generator && this.analyzer == analyzer
      ensures generations == [] && Valid()
    {
      this.manager := manager;
      this.generator := generator;
      this.analyzer := analyzer;
      generations := [];
    }

    /** The error handler of `_handle_text_message`: reply with the reason; when that send
        raises too, the exception escapes the turn. */
    method ReportError(world: World, c: ConnId, reason: ErrorReason) returns (escaped: bool)
      modifies world
      ensures Recorded(old(world.trace), world.trace, escaped, ReplyTo(c, old(world.broken), ErrorReply(reason)))
      ensures world.broken == old(world.broken) && world.routines == old(world.routines) && world.faults == old(world.faults)
    {
      var sent := world.Send(c, ErrorReply(reason));
      escaped := !sent;
    }

    /** A reply inside the text handler's `try`: when it raises, the error handler runs. */
    method Reply(world: World, c: ConnId, message: Outgoing) returns (escaped: bool)
      modifies world
      ensures Recorded(old(world.trace), world.trace, escaped, ReplyTo(c, old(world.broken), message))
      ensures world.broken == old(world.broken) && world.routines == old(world.routines) && world.faults == old(world.faults)
    {
      var sent := world.Send(c, message);
      escaped := false;
      if !sent {
        escaped := ReportError(world, c, ProcessingFailed);
      }
    }

    /** The error handler of `_handle_image_analysis`; when its reply raises, the text
        handler's error handler runs. */
    method ReportImageError(world: World, c: ConnId) returns (escaped: bool)
      modifies world
      ensures Recorded(old(world.trace), world.trace, escaped, ReplyTo(c, old(world.broken), ErrorReply(ImageAnalysisFailed)))
      ensures world.broken == old(world.broken) && world.routines == old(world.routines) && world.faults == old(world.faults)
    {
      var sent := world.Send(c, ErrorReply(ImageAnalysisFailed));
      escaped := false;
      if !sent {
        escaped := ReportError(world, c, ProcessingFailed);
      }
    }

    /** The generator's two calls of a chat turn: modify, then explain the difference. */
    method Generate(current: Routine, message: string, parse: string -> Option<Json>) returns (m: Routine, e: string)
      requires Valid()
      modifies this, generator.client
      ensures Valid()
      ensures generations == old(generations) + [Generation(current, message, parse, old(generator.client.script), m, e)]
      ensures generator.client.sent == old(generator.client.sent) + [ModificationPrompt(current, message), ExplanationPrompt(message)]
      ensures generator.client.script == Rest(Rest(old(generator.client.script)))
    {
      ghost var script := generator.client.script;
      m := generator.ModifyRoutine(current, message, parse);
      e := generator.ExplainRoutineChanges(current, m, message);
      generations := generations + [Generation(current, message, parse, script, m, e)];
    }

    /** `broadcast` inside a turn; when a send raises, `report` is the error handler that
        runs (`ProcessingFailed` for the chat turn, `ImageAnalysisFailed` for the image
        turn, whose handler falls back on the chat turn's). */
    method Announce(world: World, c: ConnId, routineId: int, message: Outgoing, report: ErrorReason) returns (escaped: bool)
      requires report in {ProcessingFailed, ImageAnalysisFailed}
      modifies world
      ensures Recorded(old(world.trace), world.trace, escaped,
                       Broadcasting(c, Registered(manager.active, routineId), old(world.broken), message, report))
      ensures world.broken == old(world.broken) && world.routines == old(world.routines) && world.faults == old(world.faults)
    {
      var ok := manager.Broadcast(world, routineId, message);
      ghost var sends := SendsTo(Reached(Registered(manager.active, routineId), old(world.broken)), message);
      ghost var sent := world.trace;
      escaped := false;
      if !ok {
        if report == ProcessingFailed {
          escaped := ReportError(world, c, ProcessingFailed);
        } else {
          escaped := ReportImageError(world, c);
        }
        Chained(old(world.trace), sent, world.trace, sends, escaped, ReplyTo(c, old(world.broken), ErrorReply(report)));
      } else {
        assert sends + [] == sends;
      }
    }

    /** The chat turn after generation: `save_routine`, `save_chat_message` of the
        explanation, then the broadcast of the update. */
    method Persist(world: World, c: ConnId, routineId: int, m: Routine, e: string) returns (escaped: bool)
      requires routineId in world.routines
      modifies world
      ensures Recorded(old(world.trace), world.trace, escaped,
                       Persisting(c, routineId, m, e, old(world.faults), Registered(manager.active, routineId), old(world.broken)))
      ensures world.routines == if Fault(old(world.faults), 0) then old(world.routines) else old(world.routines)[routineId := m]
      ensures world.faults == Skip(old(world.faults), PersistOps(old(world.faults)))
      ensures world.broken == old(world.broken)
    {
      DropIsSkip(old(world.faults));
      DropSkip(old(world.faults), 1);
      var ok := world.SaveRoutine(m, routineId);
      if !ok {
        escaped := ReportError(world, c, ProcessingFailed);
        return;
      }
      ghost var routineSaved := world.trace;
      ok := world.SaveChatMessage(routineId, "assistant", e);
      if !ok {
        escaped := ReportError(world, c, ProcessingFailed);
        Chained(old(world.trace), routineSaved, world.trace, [RoutineSaved(routineId, m)], escaped,
                ReplyTo(c, old(world.broken), ErrorReply(ProcessingFailed)));
        return;
      }
      ghost var explanationSaved := world.trace;
      escaped := Announce(world, c, routineId, RoutineUpdate(m, e), ProcessingFailed);
      ghost var conns := Registered(manager.active, routineId);
      Chained(routineSaved, explanationSaved, world.trace, [AssistantSaved(routineId, e)], escaped,
              Broadcasting(c, conns, old(world.broken), RoutineUpdate(m, e), ProcessingFailed));
      Chained(old(world.trace), routineSaved, world.trace, [RoutineSaved(routineId, m)], escaped,
              Then([AssistantSaved(routineId, e)], Broadcasting(c, conns, old(world.broken), RoutineUpdate(m, e), ProcessingFailed)));
    }

    /** The chat turn after the user's message is saved: generate, then persist and
        broadcast. */
    method Modify(world: World, c: ConnId, routineId: int, message: string, current: Routine, parse: string -> Option<Json>)
      returns (escaped: bool, m: Routine, e: string)
      requires Valid() && routineId in world.routines
      modifies this, world, generator.client
      ensures Valid()
      ensures Recorded(old(world.trace), world.trace, escaped,
                       Persisting(c, routineId, m, e, old(world.faults), Registered(manager.active, routineId), old(world.broken)))
      ensures world.routines == if Fault(old(world.faults), 0) then old(world.routines) else old(world.routines)[routineId := m]
      ensures world.faults == Skip(old(world.faults), PersistOps(old(world.faults)))
      ensures world.broken == old(world.broken)
      ensures generations == old(generations) + [Generation(current, message, parse, old(generator.client.script), m, e)]
      ensures generator.client.sent == old(generator.client.sent) + [ModificationPrompt(current, message), ExplanationPrompt(message)]
      ensures generator.client.script == Rest(Rest(old(generator.client.script)))
    {
      m, e := Generate(current, message, parse);
      escaped := Persist(world, c, routineId, m, e);
    }

    /** The chat turn once the routine `current` is found. */
    method Answer(world: World, c: ConnId, routineId: int, message: string, current: Routine, parse: string -> Option<Json>)
      returns (escaped: bool, ghost m: Routine, ghost e: string)
      requires Valid() && routineId in world.routines
      modifies this, world, generator.client
      ensures Valid()
      ensures Recorded(old(world.trace), world.trace, escaped,
                       Answering(c, routineId, message, Produced(m, e), old(world.faults), Registered(manager.active, routineId), old(world.broken)))
      ensures world.routines == if Fault(old(world.faults), 0) || Fault(old(world.faults), 1) then old(world.routines)
                                else old(world.routines)[routineId := m]
      ensures world.faults == Skip(old(world.faults), AnswerOps(old(world.faults), Produced(m, e)))
      ensures world.broken == old(world.broken)
      ensures !Fault(old(world.faults), 0) ==>
        generations == old(generations) + [Generation(current, message, parse, old(generator.client.script), m, e)]
        && generator.client.sent == old(generator.client.sent) + [ModificationPrompt(current, message), ExplanationPrompt(message)]
        && generator.client.script == Rest(Rest(old(generator.client.script)))
      ensures Fault(old(world.faults), 0) ==>
        generations == old(generations)
        && generator.client.sent == old(generator.client.sent) && generator.client.script == old(generator.client.script)
    {
      m, e := current, "";
      var ok := world.SaveChatMessage(routineId, "user", message);
      DropIsSkip(old(world.faults));
      if !ok {
        escaped := ReportError(world, c, ProcessingFailed);
        return;
      }
      ghost var userSaved := world.trace;
      escaped, m, e := Modify(world, c, routineId, message, current, parse);
      SkipSkip(old(world.faults), 1, PersistOps(Skip(old(world.faults), 1)));
      Chained(old(world.trace), userSaved, world.trace, [UserSaved(routineId, message)], escaped,
              Persisting(c, routineId, m, e, Skip(old(world.faults), 1), Registered(manager.active, routineId), old(world.broken)));
    }

    /** `_handle_text_message` past the routing, for an instruction. */
    method HandleChat(world: World, c: ConnId, routineId: int, message: string, parse: string -> Option<Json>)
      returns (escaped: bool, ghost m: Routine, ghost e: string)
      requires Valid()
      modifies this, world, generator.client
      ensures Valid()
      ensures Recorded(old(world.trace), world.trace, escaped,
                       ChatTurn(c, routineId, message, old(world.routines), old(world.faults), Produced(m, e),
                                Registered(manager.active, routineId), old(world.broken)))
      ensures world.routines == if RoutineWritten(old(world.routines), old(world.faults), routineId, Produced(m, e))
                                then old(world.routines)[routineId := m] else old(world.routines)
      ensures world.faults == Skip(old(world.faults), ChatOps(old(world.routines), old(world.faults), routineId, Produced(m, e)))
      ensures world.broken == old(world.broken)
      ensures var fetched := Fetch(old(world.routines), old(world.faults), routineId);
        GeneratorRuns(old(world.routines), old(world.faults), routineId) ==>
          generations == old(generations) + [Generation(fetched.routine, message, parse, old(generator.client.script), m, e)]
          && generator.client.sent == old(generator.client.sent) + [ModificationPrompt(fetched.routine, message), ExplanationPrompt(message)]
          && generator.client.script == Rest(Rest(old(generator.client.script)))
      ensures !GeneratorRuns(old(world.routines), old(world.faults), routineId) ==>
        generations == old(generations)
        && generator.client.sent == old(generator.client.sent) && generator.client.script == old(generator.client.script)
    {
      m, e := NewRoutine("", []), "";
      var fetched := world.GetRoutine(routineId);
      if fetched.FetchFailed? {
        escaped := ReportError(world, c, ProcessingFailed);
        return;
      }
      if fetched.NotFound? {
        escaped := Reply(world, c, ErrorReply(RoutineNotFound));
        return;
      }
      DropIsSkip(old(world.faults));
      escaped, m, e := Answer(world, c, routineId, message, fetched.routine, parse);
      SkipSkip(old(world.faults), 1, AnswerOps(Skip(old(world.faults), 1), Produced(m, e)));
    }

    /** `_handle_image_analysis`. */
    method HandleImageAnalysis(world: World, c: ConnId, routineId: int, fields: map<string, Json>) returns (escaped: bool)
      modifies world, analyzer
      ensures Recorded(old(world.trace), world.trace, escaped,
                       ImageTurn(c, routineId, ImageRequestFor(fields), NextAnswer(old(analyzer.answers)), old(world.faults),
                                 Registered(manager.active, routineId), old(world.broken)))
      ensures analyzer.requests == old(analyzer.requests) + match ImageRequestFor(fields) case None => [] case Some(q) => [q]
      ensures ImageRequestFor(fields).None? ==> analyzer.answers == old(analyzer.answers) && world.faults == old(world.faults)
      ensures ImageRequestFor(fields).Some? ==> analyzer.answers == Remaining(old(analyzer.answers)) && world.faults == Drop(old(world.faults))
      ensures world.broken == old(world.broken) && world.routines == old(world.routines)
    {
      var request := ImageRequestFor(fields);
      if request.None? {
        var sent := world.Send(c, ErrorReply(ImageDataMissing));
        escaped := false;
        if !sent {
          escaped := ReportImageError(world, c);
        }
        return;
      }
      var analysis := analyzer.Analyze(request.value);
      var ok := world.SaveChatMessage(routineId, "assistant", analysis);
      if !ok {
        escaped := ReportImageError(world, c);
        return;
      }
      ghost var analysisSaved := world.trace;
      escaped := Announce(world, c, routineId, ImageAnalysisUpdate(analysis), ImageAnalysisFailed);
      Chained(old(world.trace), analysisSaved, world.trace, [AssistantSaved(routineId, analysis)], escaped,
              Broadcasting(c, Registered(manager.active, routineId), old(world.broken), ImageAnalysisUpdate(analysis), ImageAnalysisFailed));
    }

    /** `_handle_text_message`: route the message, then answer a ping, run the image turn
        or run the chat turn. A ping touches no repository, the generator or the
        analyser. */
    method HandleTextMessage(world: World, c: ConnId, routineId: int, message: string, parse: string -> Option<Json>)
      returns (escaped: bool, ghost m: Routine, ghost e: string)
      requires Valid()
      modifies this, world, generator.client, analyzer
      ensures Valid()
      ensures escaped ==> c in old(world.broken)
      ensures world.broken == old(world.broken)
      ensures Classify(message, parse).Ping? ==>
        Recorded(old(world.trace), world.trace, escaped, ReplyTo(c, old(world.broken), Pong))
        && world.routines == old(world.routines) && world.faults == old(world.faults)
      ensures Classify(message, parse).AnalyzeImage? ==>
        Recorded(old(world.trace), world.trace, escaped,
                 ImageTurn(c, routineId, ImageRequestFor(Classify(message, parse).fields), NextAnswer(old(analyzer.answers)),
                           old(world.faults), Registered(manager.active, routineId), old(world.broken)))
        && world.routines == old(world.routines)
      ensures Classify(message, parse).Instruction? ==>
        Recorded(old(world.trace), world.trace, escaped,
                 ChatTurn(c, routineId, message, old(world.routines), old(world.faults), Produced(m, e),
                          Registered(manager.active, routineId), old(world.broken)))
        && world.routines == (if RoutineWritten(old(world.routines), old(world.faults), routineId, Produced(m, e))
                              then old(world.routines)[routineId := m] else old(world.routines))
      ensures Classify(message, parse).Instruction? && GeneratorRuns(old(world.routines), old(world.faults), routineId) ==>
        generations == old(generations)
                       + [Generation(Fetch(old(world.routines), old(world.faults), routineId).routine, message, parse,
                                     old(generator.client.script), m, e)]
      ensures !(Classify(message, parse).Instruction? && GeneratorRuns(old(world.routines), old(world.faults), routineId)) ==>
        generations == old(generations) && generator.client.sent == old(generator.client.sent)
      ensures !Classify(message, parse).AnalyzeImage? ==> analyzer.requests == old(analyzer.requests)
    {
      m, e := NewRoutine("", []), "";
      var kind := Classify(message, parse);
      match kind
      case Ping =>
        escaped := Reply(world, c, Pong);
      case AnalyzeImage(fields) =>
        escaped := HandleImageAnalysis(world, c, routineId, fields);
      case Instruction =>
        escaped, m, e := HandleChat(world, c, routineId, message, parse);
    }

    /** One pass of the connection loop: a text frame is a turn; a binary frame or one
        with neither payload gets an error reply, and escapes when that reply raises. */
    method HandleFrame(world: World, c: ConnId, routineId: int, frame: Frame, parse: string -> Option<Json>) returns (escaped: bool)
      requires Valid()
      modifies this, world, generator.client, analyzer
      ensures Valid()
      ensures old(world.trace) <= world.trace
      ensures escaped ==> c in old(world.broken)
      ensures world.broken == old(world.broken)
      ensures frame.BytesFrame? ==> Recorded(old(world.trace), world.trace, escaped, ReplyTo(c, old(world.broken), ErrorReply(BinaryNotSupported)))
      ensures frame.OtherFrame? ==> Recorded(old(world.trace), world.trace, escaped, ReplyTo(c, old(world.broken), ErrorReply(UnrecognisedFrame)))
    {
      match frame {
        case TextFrame(text) =>
          ghost var m, e;
          escaped, m, e := HandleTextMessage(world, c, routineId, text, parse);
        case BytesFrame =>
          var sent := world.Send(c, ErrorReply(BinaryNotSupported));
          escaped := !sent;
        case OtherFrame =>
          var sent := world.Send(c, ErrorReply(UnrecognisedFrame));
          escaped := !sent;
      }
    }

    /** The connection loop of `handle_websocket`: answer frames until they run out (the
        client disconnects) or a turn escapes, whose exception the loop's own handler
        catches; its error reply to the gone client fails in turn and is ignored. */
    method Serve(world: World, c: ConnId, routineId: int, frames: seq<Frame>, parse: string -> Option<Json>)
      requires Valid()
      modifies this, world, generator.client, analyzer
      ensures Valid()
      ensures old(world.trace) <= world.trace
      ensures world.broken == old(world.broken)
    {
      var i := 0;
      while i < |frames|
        invariant 0 <= i <= |frames|
        invariant Valid()
        invariant old(world.trace) <= world.trace
        invariant world.broken == old(world.broken)
      {
        var escaped := HandleFrame(world, c, routineId, frames[i], parse);
        if escaped {
          var sent := world.Send(c, ErrorReply(ServerError));
          break;
        }
        i := i + 1;
      }
    }

    /** `handle_websocket`: register the socket, then answer frames until the client
        disconnects or a turn escapes; either way the socket is unregistered. When the
        accept itself raises, nothing is registered. */
    method HandleWebsocket(world: World, c: ConnId, routineId: int, frames: seq<Frame>, parse: string -> Option<Json>)
      returns (accepted: bool)
      requires Valid()
      modifies this, world, manager, generator.client, analyzer
      ensures Valid()
      ensures accepted == (c !in world.refused)
      ensures !accepted ==> world.trace == old(world.trace) && manager.active == old(manager.active)
      ensures accepted ==> old(world.trace) + [Accepted(c)] <= world.trace
      ensures accepted ==> manager.active == old(manager.active)[routineId := RemoveFirst(Registered(old(manager.active), routineId) + [c], c)]
      ensures accepted && c !in Registered(old(manager.active), routineId) ==>
        manager.active == old(manager.active)[routineId := Registered(old(manager.active), routineId)]
      ensures world.broken == old(world.broken)
    {
      accepted := manager.Connect(world, c, routineId);
      if !accepted {
        return;
      }
      ghost var registered := manager.active;
      Serve(world, c, routineId, frames, parse);
      manager.Disconnect(c, routineId);
      assert registered[routineId] == Registered(old(manager.active), routineId) + [c];
      assert manager.active == old(manager.active)[routineId := RemoveFirst(Registered(old(manager.active), routineId) + [c], c)];
      if c !in Registered(old(manager.active), routineId) {
        ConnectThenDisconnect(old(manager.active), routineId, c);
      }
    }
  }
}
