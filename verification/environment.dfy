/** What the chat handler acts on besides the registry: the sockets, the routine and chat
    repositories, and the image analyser. One trace records, in order, every accepted
    socket, every message sent and every row written. A socket whose handshake fails is
    `refused`; a socket whose sends raise (its client has gone) is `broken` for good; each repository operation takes the next entry of a fault script
    (`true`: it raises), and runs cleanly once the script is exhausted. */
module Environment {
  import opened Wrappers
  import opened JsonData
  import opened Models

  /** A connected socket, compared by identity. */
  type ConnId = int

  /** The error replies the handler sends, one per distinct message text. */
  datatype ErrorReason =
    | BinaryNotSupported
    | UnrecognisedFrame
    | ServerError
    | RoutineNotFound
    | ProcessingFailed
    | ImageDataMissing
    | ImageAnalysisFailed

  /** The JSON messages the handler sends. */
  datatype Outgoing =
    | Pong
    | ErrorReply(reason: ErrorReason)
    | RoutineUpdate(routine: Routine, explanation: string)
    | ImageAnalysisUpdate(analysis: string)

  datatype Event =
    | Accepted(conn: ConnId)
    | Sent(conn: ConnId, outgoing: Outgoing)
    | MessageSaved(saved: ChatMessage)
    | RoutineSaved(routineId: int, routine: Routine)

  /** What `get_routine` gives: a failure, no row, or the stored routine under its id. */
  datatype Fetched = FetchFailed | NotFound | Found(routine: Routine)

  /** Whether the `k`-th repository operation from now raises. */
  function Fault(faults: seq<bool>, k: nat): bool {
    k < |faults| && faults[k]
  }

  /** The fault script after one operation. */
  function Drop(faults: seq<bool>): (r: seq<bool>)
    ensures forall k: nat :: Fault(r, k) == Fault(faults, k + 1)
  {
    if faults == [] then [] else faults[1..]
  }

  /** The fault script after `n` operations. */
  function Skip(faults: seq<bool>, n: nat): (r: seq<bool>)
    ensures forall k: nat :: Fault(r, k) == Fault(faults, k + n)
  {
    if n <= |faults| then faults[n..] else []
  }

  /** One more operation after `n` leaves the script `n + 1` operations on. */
  lemma DropSkip(faults: seq<bool>, n: nat)
    ensures Drop(Skip(faults, n)) == Skip(faults, n + 1)
  {
  }

  /** One operation is the same as skipping one. */
  lemma DropIsSkip(faults: seq<bool>)
    ensures Drop(faults) == Skip(faults, 1)
  {
  }

  /** Skipping `a` operations and then `b` skips `a + b`. */
  lemma SkipSkip(faults: seq<bool>, a: nat, b: nat)
    ensures Skip(Skip(faults, a), b) == Skip(faults, a + b)
  {
  }

  /** `get_routine(routine_id)`: the stored routine with its id filled in. */
  function Fetch(routines: map<int, Routine>, faults: seq<bool>, routineId: int): (r: Fetched)
    ensures r.Found? ==> routineId in routines && r.routine.id == Some(routineId)
    ensures r.NotFound? ==> routineId !in routines
  {
    if Fault(faults, 0) then FetchFailed
    else if routineId in routines then Found(routines[routineId].(id := Some(routineId)))
    else NotFound
  }

  class World {
    const refused: set<ConnId>
    var trace: seq<Event>
    var broken: set<ConnId>
    var routines: map<int, Routine>
    var faults: seq<bool>

    constructor (refused: set<ConnId>, broken: set<ConnId>, routines: map<int, Routine>, faults: seq<bool>)
      ensures this.refused == refused
      ensures this.trace == [] && this.broken == broken && this.routines == routines && this.faults == faults
    {
      this.refused := refused;
      this.trace := [];
      this.broken := broken;
      this.routines := routines;
      this.faults := faults;
    }

    /** `websocket.accept()`. */
    method Accept(c: ConnId) returns (ok: bool)
      modifies this
      ensures ok == (c !in refused)
      ensures trace == old(trace) + (if ok then [Accepted(c)] else [])
      ensures broken == old(broken) && routines == old(routines) && faults == old(faults)
    {
      ok := c !in refused;
      if ok {
        trace := trace + [Accepted(c)];
      }
    }

    /** `websocket.send_json(message)`; `false` where it raises. */
    method Send(c: ConnId, message: Outgoing) returns (ok: bool)
      modifies this
      ensures ok == (c !in broken)
      ensures trace == old(trace) + (if ok then [Sent(c, message)] else [])
      ensures broken == old(broken) && routines == old(routines) && faults == old(faults)
    {
      ok := c !in broken;
      if ok {
        trace := trace + [Sent(c, message)];
      }
    }

    /** `routine_repository.get_routine(routine_id)`. */
    method GetRoutine(routineId: int) returns (r: Fetched)
      modifies this
      ensures r == Fetch(old(routines), old(faults), routineId)
      ensures faults == Drop(old(faults))
      ensures trace == old(trace) && broken == old(broken) && routines == old(routines)
    {
      r := Fetch(routines, faults, routineId);
      faults := Drop(faults);
    }

    /** `chat_repository.save_chat_message(routine_id, sender, content)`; the timestamp is
        left to the database. */
    method SaveChatMessage(routineId: int, sender: string, content: string) returns (ok: bool)
      modifies this
      ensures ok == !Fault(old(faults), 0)
      ensures trace == old(trace) + (if ok then [MessageSaved(NewChatMessage(routineId, sender, content))] else [])
      ensures faults == Drop(old(faults))
      ensures broken == old(broken) && routines == old(routines)
    {
      ok := !Fault(faults, 0);
      faults := Drop(faults);
      if ok {
        trace := trace + [MessageSaved(NewChatMessage(routineId, sender, content))];
      }
    }

    /** `routine_repository.save_routine(routine, routine_id=routine_id)`: an update of an
        existing row, which raises when there is none. */
    method SaveRoutine(routine: Routine, routineId: int) returns (ok: bool)
      modifies this
      ensures ok == (!Fault(old(faults), 0) && routineId in old(routines))
      ensures routines == if ok then old(routines)[routineId := routine] else old(routines)
      ensures trace == old(trace) + (if ok then [RoutineSaved(routineId, routine)] else [])
      ensures faults == Drop(old(faults))
      ensures broken == old(broken)
    {
      ok := !Fault(faults, 0) && routineId in routines;
      faults := Drop(faults);
      if ok {
        routines := routines[routineId := routine];
        trace := trace + [RoutineSaved(routineId, routine)];
      }
    }
  }

  /** The two requests the image analyser serves. */
  datatype ImageRequest =
    | AnalyzeForm(imageData: Json, exerciseName: Json)
    | SuggestVariations(imageData: Json)

  /** The image analyser (image decoding and its vendor call are outside the model). It
      never raises: its own failures come back as apology texts, the scripted answers. */
  class ImageAnalyzer {
    var requests: seq<ImageRequest>
    var answers: seq<string>

    constructor (answers: seq<string>)
      ensures this.requests == [] && this.answers == answers
    {
      this.requests := [];
      this.answers := answers;
    }

    method Analyze(request: ImageRequest) returns (analysis: string)
      modifies this
      ensures requests == old(requests) + [request]
      ensures analysis == NextAnswer(old(answers))
      ensures answers == Remaining(old(answers))
    {
      requests := requests + [request];
      analysis := NextAnswer(answers);
      if answers != [] {
        answers := answers[1..];
      }
    }
  }

  /** The answers after one request. */
  function Remaining(answers: seq<string>): seq<string> {
    if answers == [] then [] else answers[1..]
  }

  /** The analyser's next answer; an exhausted script stands for its generic apology. */
  function NextAnswer(answers: seq<string>): string {
    if answers == [] then "No se pudo analizar la imagen. Por favor, inténtalo de nuevo." else answers[0]
  }
}
