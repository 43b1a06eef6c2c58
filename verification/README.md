# gym-AI routine core in Dafny

This project models the core of gym-AI, a FastAPI service that builds weekly training
routines, lets a user reshape them by chatting over a websocket, and keeps every
connected client in step. The model covers six parts:

- **Domain models.** An `Exercise`, a `Day` and a `Routine` (`app/models/models.py`), a
  `ChatMessage`, and the request schemas (`app/schemas/routines.py`). Validation of a
  JSON object is modelled as a partial function. Dumping is its inverse.
- **Rule-based generator.** The `RoutineGenerator` of `app/services/routine_service.py`
  holds the exercise catalog and the routine-type and muscle-group tables. Its
  operations are: choose a routine type from the goals, filter exercises by equipment,
  generate a routine, modify a routine from a free-text request, and explain the
  difference between two routines.
- **Groq adapter.** `app/services/ai_service.py` holds a configuration guard, one
  completion call per operation, and a three-stage search for the JSON object in the
  reply. It overwrites the identity fields and raises `ValueError` on any failure.
- **Gemini adapter.** `app/services/gemini_service.py` does the same with a two-stage
  search. On any failure it falls back to the rule-based generator.
- **Connection registry.** `app/websocket/manager.py` keeps, for each routine id, the
  list of sockets watching it, and broadcasts to them.
- **Websocket chat handler.** `app/websocket/routes.py` dispatches frames and runs the
  chat turn: look up the routine, save the user's message, modify, explain, save the
  routine, save the explanation, broadcast. It also runs the image-analysis turn.

## How the model is built

The pure parts are datatypes, functions and lemmas. Loops in the source are methods with
loop invariants, each proved against a specification function or predicate.

Random choices are nondeterministic. Each `random.sample`, `random.choice` and
`random.randint` becomes a choice the contract constrains only as far as the source does:
the count, membership in the pool, distinct names.

The outside world is explicit:

- **`Provider.CompletionClient`** stands for the Groq or Gemini endpoint. It logs every
  prompt and answers from a script. An exhausted script answers `ProviderFailed`.
- **`Environment.World`** holds four things:
  - a trace of accepted sockets, sent messages and written rows;
  - the set of `broken` sockets, whose sends raise;
  - the stored routines;
  - a fault script with one boolean per repository operation (`true` means that
    operation raises).
- **`Environment.ImageAnalyzer`** answers image requests from a script.

`json.loads` is a parameter `parse: string -> Option<Json>` of every operation that
parses. No property depends on how it parses.

Each websocket turn is specified by a function. `ChatRoutes.ChatTurn` and
`ChatRoutes.ImageTurn` give the events the turn appends to the trace, and whether it
`escaped`. A turn escapes when the error handler's own reply to the sender raises, which
hands the exception to the connection loop. The handler methods are proved against these
functions, and the lemmas about the functions state what the source promises:

- saves come before the broadcast;
- a failure is answered to the sender alone;
- writes are not rolled back;
- the fan-out stops at the first broken socket.

## Model

| member | source | states |
|---|---|---|
| Models.RoutineDefaults | app/models/models.py:30-38 | A routine built from a name and days alone has no id, user id 1 and no timestamps |
| Models.RoutineFromJson | app/models/models.py:30-38 | Validation accepts only an object whose `routine_name` is text and whose `days` is an array; day `i` of the routine is the validation of element `i`. `id` and `user_id` are read back when present, or default to `None` and 1. A timestamp that is absent or `null` is `None`, and a present one is the text given |
| Models.NewChatMessage | app/models/models.py:41-47 | The message carries the given routine, sender and content; its timestamp is `None` unless one is given, and storage fills it in |
| Models.ExerciseFromJson | app/models/models.py:12-19 | An accepted exercise is an object whose fields include every field of the exercise's own dump, with the same values |
| Models.ExercisesFromJson | app/models/models.py:27 | A list is accepted exactly when each element is, and then holds each element's exercise in order |
| Models.DayFromJson | app/models/models.py:22-27 | An accepted day is an object whose `day_name` and `focus` are its texts and whose `exercises` array holds, element by element, its exercises |
| Models.DaysFromJson | app/models/models.py:36 | A list of days is accepted exactly when each element is, and then holds each element's day in order |
| Models.ExerciseRoundTrip | app/models/models.py:12-19 | Validating the dump of an exercise gives the exercise back |
| Models.ExercisesRoundTrip | app/models/models.py:12-19 | Validating the dumps of a list of exercises gives the list back, in order |
| Models.DayRoundTrip | app/models/models.py:22-27 | Validating the dump of a day gives the day back |
| Models.DaysRoundTrip | app/models/models.py:22-27 | Validating the dumps of a list of days gives the list back, in order |
| Models.IdentityRead | app/models/models.py:32-34 | A routine's dump reads back its id (possibly `None`) and its user id |
| Models.ContentRead | app/models/models.py:35-38 | A routine's dump reads back its name, its days array and both timestamps |
| Models.RoutineRoundTrip | app/models/models.py:30-38 | `model_validate(model_dump(r)) == r` for every routine |
| Schemas.RoutineRequestFromJson | app/schemas/routines.py:11-21 | An accepted request has `goals` from the body and `days` in 1..7 or `None`. Every absent optional field takes its default. A body without `goals`, or with `days` outside 1..7, is rejected |
| Schemas.ModifyRoutineRequestFromJson | app/schemas/routines.py:24-27 | A body is accepted exactly when it is an object whose `message` is text, and the request carries that text |
| Schemas.RequestRoundTrip | app/schemas/routines.py:11-21 | A request's dump validates exactly when its day count is in range, and then gives the request back |
| Schemas.GoalsOnlyRequest | app/schemas/routines.py:14-21 | A body with only `goals` gives empty strings, no day count and user 1 |
| Catalog.TablesAreConsistent | app/services/routine_service.py:12-113 | The key orders list exactly the keys. Every routine type rotates three foci. Every group named by the focus table is in the catalog |
| Catalog.CatalogNamesDistinct | app/services/routine_service.py:12-62 | Every catalog group holds five entries with distinct names |
| Catalog.GroupsResolve | app/services/routine_service.py:102-113 | Every muscle group named by the focus table, and by the corrected table, is a catalog group |
| Catalog.CorrectedTableCoversRotations | app/services/routine_service.py:65-113 | Every focus of every routine type's rotation is a key of the corrected focus table |
| RoutineService.FirstGoalMatch | app/services/routine_service.py:119-127 | Returns the first keyword row from `k` on that the goals mention; no earlier row is mentioned |
| RoutineService.DetermineRoutineType | app/services/routine_service.py:115-128 | The result is a routine type with three foci. It is row `j`'s type when the lower-cased goals mention a keyword of row `j` and of no earlier row. It is `mantenimiento` exactly when no row is mentioned |
| RoutineService.StrengthGoalSelectsStrength | app/services/routine_service.py:115-128 | The goal "fuerza" selects the `fuerza` type |
| RoutineService.KeepUsable | app/services/routine_service.py:157-162 | An entry is kept exactly when its lower-cased equipment names an available term, bodyweight or "ninguno" |
| RoutineService.EquipmentFilter | app/services/routine_service.py:130-168 | The result is an order-preserving sublist of the input, and distinct names stay distinct |
| RoutineService.EquipmentFilterKeepsUsable | app/services/routine_service.py:143-162 | Without a full-gym word, an entry survives exactly when it is usable with the terms the equipment text mentions (the home set when none is mentioned or "casa" is) |
| RoutineService.EverythingFilterKeepsAll | app/services/routine_service.py:149-151 | Filtering with "todo" returns the input unchanged |
| RoutineService.FallbackIsEmpty | app/services/routine_service.py:164-166 | When the filter keeps nothing, the bodyweight fallback is empty too |
| RoutineService.FilterByEquipment | app/services/routine_service.py:130-168 | The loop computes `EquipmentFilter` |
| RoutineService.Sample | app/services/routine_service.py:199 | Picks `k` entries of the pool, with distinct names when the pool's are distinct |
| RoutineService.SampleExercises | app/services/routine_service.py:196-210 | Returns min(num, pool size) exercises of the filtered pool, each with the routine type's sets, reps and rest, with distinct names |
| RoutineService.GroupExercises | app/services/routine_service.py:193-210 | Returns one group's draw: min(2, n) or min(3, n) prescribed exercises of the group's filtered pool, with distinct names |
| RoutineService.FocusLabel | app/services/routine_service.py:214 | A day's label holds no `/`; a focus without `/` is just capitalised; a focus that does not open with `/` has its first letter upper-cased |
| RoutineService.GenerateDay | app/services/routine_service.py:183-217 | Day `i` is named `days_of_week[i]` and labelled with its rotated focus. Its exercises are, group by group in the focus's order, each group's own draw of two or three distinct prescribed entries of that group's pool |
| RoutineService.DayBounds | app/services/routine_service.py:193-210 | A generated day's exercise count lies between the 2-per-group and 3-per-group bounds, and each exercise is prescribed and drawn from one of the focus's groups |
| RoutineService.ConcatBounds | app/services/routine_service.py:193-210 | The same count bounds and provenance hold for any sequence of per-group draws laid end to end |
| RoutineService.BlocksGrow | app/services/routine_service.py:193-195 | Appending the next group's draw keeps the day's exercises equal to the draws of the groups so far, in order |
| RoutineService.GenerateDays | app/services/routine_service.py:183-218 | Fails exactly when some day's focus is missing from the table, and otherwise yields the first `n` days of the rotation, each built group by group from per-group draws |
| RoutineService.CreateInitialRoutine | app/services/routine_service.py:170-225 | A request without a day count fails. A generation fails exactly when a focus is missing. A success is named "Rutina de T - N días" for the chosen type and min(days, 7), has no id and the requester's user id, and carries the generated days |
| RoutineService.StrengthRotationMissesLegs | app/services/routine_service.py:82 | With the source's focus table, any `fuerza` routine of three or more days reaches the `piernas` focus, which the table lacks |
| RoutineService.NoMassKeyword | app/services/routine_service.py:119 | The goal "fuerza" mentions no keyword of the `masa` row |
| RoutineService.NoDefinitionKeyword | app/services/routine_service.py:121 | The goal "fuerza" mentions no keyword of the `definición` row |
| RoutineService.StrengthRequestOfThreeDaysFails | app/services/routine_service.py:189 | A request with goals "fuerza" and 3 days reaches a focus the table lacks |
| RoutineService.CorrectedTableResolvesEveryDay | app/services/routine_service.py:183-189 | With the corrected focus table, no routine type and day count reaches a missing focus |
| RoutineService.FindMentionedExercise | app/services/routine_service.py:245-252 | Returns the first exercise, in day order and then position, whose lower-cased name the request contains; `None` when there is none |
| RoutineService.FirstMentionedUnique | app/services/routine_service.py:245-252 | Only one position is the first mentioned one |
| RoutineService.GroupIndexOf | app/services/routine_service.py:259-263 | Returns the first catalog group from `k` on that holds the name, case-insensitively; no earlier group holds it |
| RoutineService.GroupsAreCatalogued | app/services/routine_service.py:260 | Every group in the catalog's key order is a catalog key |
| RoutineService.FindGroupOf | app/services/routine_service.py:259-263 | The loop returns the first catalog group holding the name, or -1 |
| RoutineService.ScanGroup | app/services/routine_service.py:261 | Reports whether some entry of the group has the name, case-insensitively |
| RoutineService.OtherThan | app/services/routine_service.py:273 | Keeps exactly the entries whose lower-cased name differs from the old exercise's |
| RoutineService.NotAmong | app/services/routine_service.py:313 | Keeps exactly the entries whose lower-cased name is not on the day, and keeps names distinct |
| RoutineService.LowerNames | app/services/routine_service.py:304 | Lists the lower-cased name of each exercise of the day, in order |
| RoutineService.FirstKeyMentioned | app/services/routine_service.py:288-292 | Returns the first key from `k` on that the request contains; no earlier key is contained |
| RoutineService.FindKeyMentioned | app/services/routine_service.py:336-339 | The loop returns the first key the request contains, or -1 |
| RoutineService.DayNames | app/services/routine_service.py:296-297 | Lists the lower-cased name of each day, in order |
| RoutineService.FindDayMentioned | app/services/routine_service.py:295-299 | Returns the first day whose lower-cased name the request contains, or -1 |
| RoutineService.SwapAt | app/services/routine_service.py:255-283 | Exercise `i` of day `d` becomes another entry of its own catalog group, with the old sets, reps and rest. It stays unchanged when the group is unknown or has no other entry. Nothing else changes |
| RoutineService.SwapExercise | app/services/routine_service.py:236-283 | Swaps the first mentioned exercise as `SwapAt` does; the routine is unchanged when none is mentioned |
| RoutineService.AppendWithReference | app/services/routine_service.py:320-331 | Each selected entry becomes an exercise with the prescription of the day's first exercise, or 3 × "10-12", "60 seg" when the day is empty |
| RoutineService.AddToDay | app/services/routine_service.py:302-331 | Appends one entry, or min(2, available) entries, of the group that are not on the day yet, with distinct names and the reference prescription. The existing exercises stay a prefix, and no other day changes |
| RoutineService.AddExercises | app/services/routine_service.py:286-331 | With a group and a day both named, adds as `AddToDay` does; otherwise the routine is unchanged |
| RoutineService.Refocus | app/services/routine_service.py:334-351 | With a routine type named, the routine is renamed "Rutina de T - N días" and every exercise takes that type's sets, reps and rest. Names, equipment, days, ids and timestamps are kept. Otherwise the routine is unchanged |
| RoutineService.RefocusIsIdempotent | app/services/routine_service.py:334-351 | Refocusing twice with the same request gives the routine of refocusing once |
| RoutineService.ModifyRoutine | app/services/routine_service.py:227-353 | Applies at most one of swap, add and refocus, chosen by the first kind of request word found. Id, user, timestamps, day names and foci are kept. A request with no request word changes nothing |
| RoutineService.SetOrder | app/services/routine_service.py:373 | Lists each element of the set exactly once |
| RoutineService.FirstNamedIn | app/services/routine_service.py:380-383 | Returns the first exercise from `k` on whose name is in the set; no earlier one is |
| RoutineService.FindNamedIn | app/services/routine_service.py:380-383 | The loop returns the first exercise whose name is new, or -1 |
| RoutineService.AddedPart | app/services/routine_service.py:369-373 | Empty exactly when the day gained no name. Otherwise it is one "Añadí" line listing the added names once each |
| RoutineService.ReplacedPart | app/services/routine_service.py:375-383 | For every removed name there is a "Reemplacé" line naming it and the first new exercise of the day. It is empty when no name was added |
| RoutineService.AdjustedPart | app/services/routine_service.py:386-388 | Holds one "Ajusté" line per position where the name is kept but the sets or reps change, and is empty exactly when there is none |
| RoutineService.AdjustedLineAppended | app/services/routine_service.py:386-388 | Appending the line for position `i` keeps the lines of earlier positions in the text |
| RoutineService.PartsReported | app/services/routine_service.py:369-388 | The three parts together carry every line the comparison of two days calls for |
| RoutineService.ExplainDay | app/services/routine_service.py:364-388 | A day's text is empty exactly when the day has nothing to report, and otherwise carries every line due |
| RoutineService.ExplainDays | app/services/routine_service.py:364-388 | The body is empty exactly when no shared day has anything to report, and otherwise carries every day's lines |
| RoutineService.ExplainRoutineChanges | app/services/routine_service.py:355-393 | Starts with the header. A new name gives the rename line right after it. The text carries every shared day's lines, and is the header plus the no-change note exactly when nothing is reportable |
| RoutineService.SameRoutineIsNotReported | app/services/routine_service.py:390-392 | Comparing a routine with itself reports nothing |
| RoutineService.RemovalIsNotReported | app/services/routine_service.py:375-383 | Removing an exercise, with nothing added, reports nothing: the removal goes unmentioned |
| RoutineService.RestChangeIsNotReported | app/services/routine_service.py:386-388 | Changing only an exercise's rest reports nothing |
| RoutineService.AdditionIsReported | app/services/routine_service.py:302-331 | Any routine the add request actually changes is reported |
| Text.FindFrom | app/services/ai_service.py:119 | Returns the first occurrence at or after `start`, or -1 when there is none |
| Text.LastIndexOf | app/services/ai_service.py:120 | Returns the last index holding the character, or -1 |
| Text.Strip | app/services/ai_service.py:104 | The result is the input without its leading and trailing whitespace |
| Text.Lower | app/services/routine_service.py:117 | Lower-cases each character, keeping the length |
| Text.Capitalize | app/services/routine_service.py:179 | Upper-cases the first character and lower-cases the rest |
| Text.CapitalizeKeepsAbsent | app/services/routine_service.py:214 | Capitalising text neither creates nor removes a character that is not a letter, such as `/` |
| Text.ReplaceChar | app/services/routine_service.py:214 | Replacing a character removes every occurrence when the replacement does not hold it, keeps every other character, and changes nothing when the character is absent |
| JsonData.SetKey | app/services/ai_service.py:157 | Writing a key into an object sets that key and keeps every other one. A non-object fails |
| JsonData.Truthy | app/services/ai_service.py:154 | A decoded value is falsy exactly when it is `null`, `false`, `0`, `""`, `[]` or `{}`, as `if not routine_dict` (also app/services/gemini_service.py:132 and app/websocket/routes.py:113) tests it |
| Fences.FirstFence | app/services/gemini_service.py:102-107 | A found block comes from a text with a fence, and holds no fence itself |
| Fences.FenceFound | app/services/gemini_service.py:102-107 | Prose without a backtick, then a fence, an optional `json` tag, a body and a closing fence gives the stripped body |
| Fences.NoBacktickNoFence | app/services/ai_service.py:108-113 | A text without a backtick has no fenced block |
| Provider.CompletionClient.Complete | app/services/ai_service.py:139-152 | Logs the prompt and returns the next scripted reply |
| Adoption.AdoptCreated | app/services/ai_service.py:154-160 | An adopted routine carries the requester's user id. A non-object or `{}` is not adopted |
| Adoption.AdoptModified | app/services/ai_service.py:185-193 | An adopted routine carries the current routine's id and user. A non-object or `{}` is not adopted |
| Adoption.CreatedFromDump | app/services/ai_service.py:154-158 | The dump of a routine is adopted as that routine under the requester's user id |
| Adoption.ModifiedFromDump | app/services/ai_service.py:188-193 | The dump of a routine is adopted as that routine under the current id and user |
| Adoption.DumpWithId | app/services/ai_service.py:191 | Overwriting `id` in a routine's dump gives the dump of the routine with that id |
| Adoption.DumpWithUser | app/services/ai_service.py:192 | Overwriting `user_id` in a routine's dump gives the dump of the routine with that user |
| Adoption.OptIntToJsonInjective | app/models/models.py:33 | Distinct optional ids dump differently |
| GroqService.BraceSpan | app/services/ai_service.py:117-121 | The span runs from the first `{` to the last `}`, and is empty when they cross. It is `None` when either brace is missing |
| GroqService.ExtractJson | app/services/ai_service.py:100-124 | A stripped reply that parses as a whole is the result, whatever it holds |
| GroqService.FencedReplyExtracts | app/services/ai_service.py:108-113 | A fenced block in prose, in a reply that does not parse as a whole, gives the block's object |
| GroqService.BracedReplyExtracts | app/services/ai_service.py:117-124 | With no fence, the span from the first `{` to the last `}` is what gets parsed |
| GroqService.BraceSpanOf | app/services/ai_service.py:118-121 | Prose, a braced block and more prose span exactly the block |
| GroqService.LastIndexIs | app/services/ai_service.py:120 | The last index holding the character is what `rindex` reports |
| GroqService.NothingParsesGivesEmpty | app/services/ai_service.py:122-124 | When no candidate parses, extraction gives `{}` |
| GroqService.CreateOutcome | app/services/ai_service.py:137-164 | Every failure is the generation error. A success needs a completed reply and carries the requester's user id |
| GroqService.ModifyOutcome | app/services/ai_service.py:171-197 | Every failure is the modification error. A success keeps the current id and user |
| GroqService.ExplainOutcome | app/services/ai_service.py:210-226 | Succeeds exactly when the call completes, with the stripped text. Otherwise it is the explanation error |
| GroqService.CreateAdoptsDump | app/services/ai_service.py:152-160 | A reply that is a routine's dump yields that routine under the requester's user id |
| GroqService.ModifyAdoptsDump | app/services/ai_service.py:185-193 | A reply that is a routine's dump yields that routine under the current id and user |
| GroqService.DayCountNotEnforced | app/services/ai_service.py:152-160 | A reply with any number of days is accepted. The requested count is not checked |
| GroqService.GroqRoutineGenerator.constructor | app/services/ai_service.py:22-37 | The adapter is configured exactly when the settings say so and the client could be built |
| GroqService.GroqRoutineGenerator.CreateInitialRoutine | app/services/ai_service.py:128-164 | An unconfigured adapter raises its guard error. Otherwise it sends the initial prompt once and returns `CreateOutcome` of the reply |
| GroqService.GroqRoutineGenerator.ModifyRoutine | app/services/ai_service.py:166-197 | An unconfigured adapter raises its guard error. Otherwise it sends the modification prompt once and returns `ModifyOutcome` of the reply |
| GroqService.GroqRoutineGenerator.ExplainRoutineChanges | app/services/ai_service.py:199-226 | An unconfigured adapter raises its guard error. Otherwise it sends the explanation prompt once and returns `ExplainOutcome` of the reply |
| GeminiService.ExtractJson | app/services/gemini_service.py:98-117 | Without a fence, a stripped text that parses is the result |
| GeminiService.FencedReplyExtracts | app/services/gemini_service.py:102-108 | A fenced block in prose gives the block's object, whether or not the whole reply parses |
| GeminiService.MalformedFenceGivesEmpty | app/services/gemini_service.py:105-117 | A first block that does not parse gives `{}`; the whole text is not tried |
| GeminiService.StageOrdersDiffer | app/services/gemini_service.py:98-117 | A reply that parses whole but holds a broken fence gives the object to the Groq adapter and `{}` to this one |
| GeminiService.ProseAroundObjectIsLost | app/services/gemini_service.py:98-117 | An unfenced object in prose gives `{}` here, where the Groq adapter finds it |
| GeminiService.Created | app/services/gemini_service.py:126-140 | A routine comes only from a completed reply, and carries the requester's user id |
| GeminiService.Modified | app/services/gemini_service.py:156-171 | A routine comes only from a completed reply, and keeps the current id and user |
| GeminiService.ModifyAdoptsFencedDump | app/services/gemini_service.py:156-171 | A fenced dump in a reply is adopted under the current id and user |
| GeminiService.GeminiRoutineGenerator.CreateInitialRoutine | app/services/gemini_service.py:119-147 | Returns the provider's routine when there is one. Otherwise it returns the rule-based generator's result, which fails exactly where that generator fails. Either way the routine carries the requester's user id |
| GeminiService.GeminiRoutineGenerator.ModifyRoutine | app/services/gemini_service.py:149-178 | Returns the adopted routine, or the rule-based modification, in both cases under the current id and user |
| GeminiService.GeminiRoutineGenerator.ExplainRoutineChanges | app/services/gemini_service.py:180-196 | Returns the stripped reply, or the rule-based account of the changes when the call fails |
| Environment.Fetch | app/websocket/routes.py:76-77 | A found routine is stored and carries its id. A missing one is not stored |
| Environment.World.GetRoutine | app/repositories/routine_repository.py:82-94 | The lookup consumes one fault entry and returns `Fetch` |
| Environment.World.Accept | app/websocket/manager.py:14 | The accept succeeds exactly when the client has not refused it, and only a success is recorded; nothing else changes |
| Environment.World.SaveChatMessage | app/repositories/chat_repository.py:17-30 | A save that does not fault records the message row |
| Environment.World.SaveRoutine | app/repositories/routine_repository.py:51-64 | An update succeeds exactly when it does not fault and the row exists. Only then is the routine stored and recorded |
| Environment.World.Send | app/websocket/routes.py:103 | A send succeeds, and is recorded, exactly when the socket is not broken |
| Environment.ImageAnalyzer.Analyze | app/websocket/routes.py:116-119 | Logs the request and returns the next scripted answer |
| Connections.RemoveFirst | app/websocket/manager.py:21-23 | Removing a socket that is not in the list returns the list unchanged |
| Connections.RemoveFirstCount | app/websocket/manager.py:23 | `remove` takes out one occurrence of the socket when there is one, and nothing else |
| Connections.RemoveFirstAt | app/websocket/manager.py:23 | What goes is the first occurrence; the list before it and after it are kept |
| Connections.Reached | app/websocket/manager.py:25-29 | A broadcast reaches a prefix of the list. None of the reached sockets is broken, and the first one not reached is |
| Connections.ReachedAllIffHealthy | app/websocket/manager.py:28-29 | Every registered socket is reached exactly when none is broken |
| Connections.ReachedStopsAt | app/websocket/manager.py:28-29 | The sockets reached are exactly those before the first broken one |
| Connections.SendsTo | app/websocket/manager.py:28-29 | One send of the message to each listed socket, in order |
| Connections.ConnectThenDisconnect | app/websocket/manager.py:12-23 | Connecting and then disconnecting a new socket leaves every list as it was |
| Connections.RemoveAppended | app/websocket/manager.py:17-23 | Removing a socket just appended to a list that lacked it gives the list back |
| Connections.ConnectionManager.constructor | app/websocket/manager.py:8-10 | A new manager has no connections for any routine |
| Connections.ConnectionManager.Connect | app/websocket/manager.py:12-17 | Accepts the socket and appends it to its routine's list, creating the list. A socket whose accept raises is not registered |
| Connections.ConnectionManager.Disconnect | app/websocket/manager.py:19-23 | Drops the socket's first registration. The id keeps its list, possibly empty |
| Connections.ConnectionManager.Broadcast | app/websocket/manager.py:25-29 | Sends to the registered sockets in order up to the first broken one, and succeeds exactly when none is broken |
| ChatRoutes.Classify | app/websocket/routes.py:60-73 | Unparseable text is an instruction. A ping and an image request are JSON objects, the latter tagged `analyze_image` |
| ChatRoutes.OnlyTaggedObjectsAreCommands | app/websocket/routes.py:63-73 | JSON that is not an object, or an object with any other `type`, is an instruction |
| ChatRoutes.ImageRequestFor | app/websocket/routes.py:108-119 | No request exactly when `image_data` is missing or falsy. `action` absent or "analyze_form" asks for a form analysis with `exercise_name` or `null`. Any other action asks for variations |
| ChatRoutes.ReplyTo | app/websocket/routes.py:101-103 | A reply is recorded exactly when the sender's socket is healthy. Otherwise the turn escapes with nothing recorded |
| ChatRoutes.Chained | app/websocket/routes.py:82-99 | A turn that appends events and then continues is recorded as the concatenation |
| ChatRoutes.Broadcasting | app/websocket/routes.py:95-103 | A broadcast escapes only when the sender is broken |
| ChatRoutes.Persisting | app/websocket/routes.py:91-103 | The tail of the chat turn escapes only when the sender is broken |
| ChatRoutes.Answering | app/websocket/routes.py:82-103 | The chat turn after the lookup saves the user's message, then answers a raising generator with the error reply or persists what it produced; it escapes only when the sender is broken |
| ChatRoutes.ChatTurn | app/websocket/routes.py:75-103 | The chat turn, for a generator that produces or raises, escapes only when the sender is broken |
| ChatRoutes.ImageTurn | app/websocket/routes.py:105-129 | The image turn escapes only when the sender is broken |
| ChatRoutes.UpdateOnlyAfterSaves | app/websocket/routes.py:82-99 | A routine update goes out only when the generator produced a routine and explanation, after the user message, that routine and that explanation are saved, and it carries them |
| ChatRoutes.NoBroadcastOnFailure | app/websocket/routes.py:76-103 | A turn in which a repository operation or the generator raises before the broadcast sends nothing but error replies to the sender, and no update |
| ChatRoutes.GenerationFailureKeepsOnlyMessage | app/websocket/routes.py:82-87 | When the generator raises after the user's message is saved, the turn is exactly that save and the error reply of lines 101-103: no routine, explanation or broadcast |
| ChatRoutes.UserMessageNotRolledBack | app/websocket/routes.py:82 | Once the generator runs, the user's message is saved first, whatever follows |
| ChatRoutes.MissingRoutineTouchesNothing | app/websocket/routes.py:76-79 | A missing routine is answered with an error to the sender only, and nothing is saved |
| ChatRoutes.RoutineSavedIffWritten | app/websocket/routes.py:91 | A routine row is written exactly when the generator produced and `save_routine` succeeds, and it is the produced routine under the turn's id |
| ChatRoutes.BroadcastFanOut | app/websocket/routes.py:90-99 | With all saves succeeding and all sockets healthy, the turn is the three saves and then the update to every registered socket, in order |
| ChatRoutes.PartialFanOut | app/websocket/routes.py:95-103 | With the k-th socket broken, the sockets before it get the update, the later ones do not, and the sender also gets an error |
| ChatRoutes.MissingImageTouchesNothing | app/websocket/routes.py:112-114 | An image request without data is answered with an error and nothing else |
| ChatRoutes.AnalysisSavedThenBroadcast | app/websocket/routes.py:121-125 | The analysis is saved, then broadcast to every healthy registered socket |
| ChatRoutes.WebSocketRoutes.constructor | app/websocket/routes.py:22-30 | Holds the given registry, generator and analyser, with no generations yet |
| ChatRoutes.WebSocketRoutes.ReportError | app/websocket/routes.py:101-103 | The error handler's reply is recorded as `ReplyTo` says |
| ChatRoutes.WebSocketRoutes.Reply | app/websocket/routes.py:66 | A reply inside the turn is recorded as `ReplyTo` says |
| ChatRoutes.WebSocketRoutes.ReportImageError | app/websocket/routes.py:127-129 | The image handler's error reply is recorded as `ReplyTo` says |
| ChatRoutes.WebSocketRoutes.Generate | app/websocket/routes.py:85-88 | Calls modify and then explain on the generator, and records the generation |
| ChatRoutes.WebSocketRoutes.Announce | app/websocket/routes.py:95-103 | The broadcast, and on a broken socket the error reply, are recorded as `Broadcasting` says |
| ChatRoutes.WebSocketRoutes.Persist | app/websocket/routes.py:91-103 | The events and the stored routines are those of `Persisting` |
| ChatRoutes.WebSocketRoutes.Modify | app/websocket/routes.py:85-103 | Generation followed by `Persisting` |
| ChatRoutes.WebSocketRoutes.Answer | app/websocket/routes.py:82-103 | The events and the stored routines are those of `Answering` |
| ChatRoutes.WebSocketRoutes.HandleChat | app/websocket/routes.py:75-103 | The events and the stored routines are those of `ChatTurn`, with the generator's output as its routine and explanation |
| ChatRoutes.WebSocketRoutes.HandleImageAnalysis | app/websocket/routes.py:105-129 | The events are those of `ImageTurn`. The analyser is asked exactly when image data is present |
| ChatRoutes.WebSocketRoutes.HandleTextMessage | app/websocket/routes.py:58-103 | A ping is answered with a pong, an image request runs the image turn, and anything else runs the chat turn |
| ChatRoutes.WebSocketRoutes.HandleFrame | app/websocket/routes.py:36-46 | A binary frame and an unrecognised frame get their error replies. A text frame is a turn |
| ChatRoutes.WebSocketRoutes.Serve | app/websocket/routes.py:36-55 | Only appends to the trace, and breaks no socket |
| ChatRoutes.WebSocketRoutes.HandleWebsocket | app/websocket/routes.py:32-56 | The accept comes first. After the session the socket's first registration is gone, so a socket that was new leaves the registry as it found it |

## Left out

- I/O, the database and the network are modelled by `Environment.World` and
  `Provider.CompletionClient`. SQL sessions, commits and rollbacks are left out. A failed
  save leaves nothing behind, and nothing saved is ever undone.
- The wording of prompts and of error messages is left out. A prompt records what it
  interpolates. An error reply records its `ErrorReason`, not the exception text that
  the f-string appends.
- The probability distribution of `random.sample`, `random.choice` and `random.randint`
  is left out. Contracts admit every outcome those calls can produce.
- Concurrency of the asyncio handlers is left out. Each turn runs to completion before
  the next, and two sockets' turns never interleave.
- Image decoding and the vision model are left out. The analyser answers from a script
  and never raises, because its own failures return apology texts.
- `json.loads` is the parameter `parse`. JSON numbers are integers, and float fields do
  not occur in the models.
- `datetime` values are opaque `Timestamp` strings. The database's own timestamps are
  not modelled.
- `str.lower` and `str.capitalize` cover ASCII and Latin-1 letters only. Other Unicode
  case mappings are left out.
- A provider call that raises, and a reply whose content is `None` (on which `.strip()`
  raises), are both `ProviderFailed`.
- The client's disconnect ends the frame sequence, and the socket is then unregistered.
  In the code, `receive()` hands the disconnect back as a message with neither text nor
  bytes, so `app/websocket/routes.py:45-46` first tries to send the unrecognised-format
  reply to the closed socket. That send raising (line 48), or the next `receive()`
  raising into lines 50-56, is what ends the loop. This trailing reply attempt and the
  path it takes out of the loop are not modelled.
- The Groq client's construction is the parameter `built` of its constructor, and the
  settings check is the parameter `aiConfigured`. The model name and temperature are
  left out.
- `app/services/routine_service.py:5` and `app/services/gemini_service.py:6` import
  `RoutineRequest` from `app/models/models.py`, which does not define it. The model uses
  the `RoutineRequest` of `app/schemas/routines.py` throughout, as `ai_service.py` does.
- Models.IntField: accepts only a JSON integer. Pydantic's lax mode also turns
  `true`/`false` and integer strings such as `"3"` into ints; that coercion is not
  modelled, so a reply with `"sets": "3"` is rejected here where the code accepts it.
- Models.IntFieldOr: the same limit as `IntField` for a field with a default.
- Models.OptIntField: the same limit as `IntField` for an optional field.
- Models.OptTimestampField: accepts any JSON string as a timestamp. Pydantic parses the
  string as a date and time and rejects text such as `"ayer"`; that parsing is not
  modelled.
- Models.ExerciseFromJson: inherits the integer limit of `IntField`.
- Models.DayFromJson: inherits the integer limit of `IntField`.
- Models.RoutineFromJson: inherits the limits of `IntField` and `OptTimestampField`. Its
  contract covers documents whose integer fields are JSON integers; coerced integers and
  rejected timestamps are not promised.
- Schemas.RoutineRequestFromJson: inherits the integer limit of `IntField`, so a body
  with `"days": "3"` is rejected here where the code accepts it.
- `Text.Lower`, `Text.Capitalize`: these model Python's string methods with the
  Latin-1 limit above.
- RoutineService.ExplainRoutineChanges: states that every line the comparison calls for
  appears in the text, after the header, rather than the exact text. Python's set
  iteration order fixes the order of the added names and of the replacement lines, and
  that order is not modelled.
- ChatRoutes.WebSocketRoutes.HandleFrame: for a text frame it states only that the
  trace grows and that an escape needs a broken sender. The turn itself is specified by
  `HandleTextMessage`.
- ChatRoutes.WebSocketRoutes.Serve: states only that the trace grows and no socket
  breaks. The frame-by-frame trace is not stated, and neither is the reply attempt that
  follows the disconnect (see above).
- ChatRoutes.WebSocketRoutes.HandleWebsocket: states the registry after the session and
  that the accept comes first. The rest of the trace is stated only as an extension.
- The exception handler of `handle_websocket` (`app/websocket/routes.py:50-56`) is
  reached in the model only by an escaped turn. Its error reply goes to a broken socket,
  so it fails, and the failure is ignored.
- The handler class `ChatRoutes.WebSocketRoutes` holds the Gemini adapter, the type its
  constructor declares (`app/websocket/routes.py:25`). `app/main.py:87` injects the Groq
  adapter instead, whose calls raise `ValueError` (`app/services/ai_service.py:130,197,226`).
  The turn functions take that case as `GenerationRaised`, and the lemmas above cover it,
  but the handler class never produces it: the Groq adapter bound into the live handler,
  and its configured/unconfigured state across turns, are not modelled there.
- Behaviour the model follows from the code:
  - the broadcast is not isolated from the sender's error handling, so a fan-out can be
    partial;
  - a fenced block that does not parse gives `{}` in the Gemini adapter;
  - the bodyweight fallback of the equipment filter is always empty;
  - the `day_mentioned` search of the swap case (`app/services/routine_service.py:238-242`)
    does not affect the result, so it is not modelled;
  - a change that only removes exercises gives the no-change note.

## Findings

| source | as written | input that shows it | evidently intended | confidence | as-written member | corrected member |
|---|---|---|---|---|---|---|
| app/services/routine_service.py:82 | The `fuerza` rotation has the focus `piernas`, which is not a key of the focus table (`app/services/routine_service.py:102-113`), so `self.muscle_group_map[focus]` at line 189 raises `KeyError` | goals "fuerza", days 3: day 3 rotates to `piernas` | A `piernas` entry in the focus table, mapping to the `piernas` catalog group, so every rotation's focus resolves | not executed | RoutineService.StrengthRotationMissesLegs | RoutineService.CorrectedTableResolvesEveryDay |
