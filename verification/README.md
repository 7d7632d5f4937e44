# Coding-interview rooms and the Django todo app, modelled in Dafny

This project models two small applications from one repository.

**The online coding-interview platform.**
- A FastAPI backend keeps an in-memory table of interview rooms (code, language, task) and their participant lists. It serves a REST API over that table and relays code and task edits between the WebSocket connections of a room.
- A React front end keeps the room state in the `useRoom` hook. It talks to mocked API and socket clients, runs code in the browser (JavaScript in a worker, Python through Pyodide with a base64 transport), shows an interview timer and offers a task library dialog.

**The Django todo app.**
- A `Todo` record with choice fields and a default ordering.
- A list view that filters and orders the records, plus a toggle view and a statistics page.
- A `seed_todos` management command that fills the table with eight sample records.

Each source module becomes one Dafny module:

| Dafny module | file | source |
|---|---|---|
| `RoomService` | room_service.dfy | backend/app/services/room_service.py |
| `Routes` | routes.dfy | backend/app/api/routes.py |
| `Relay` | relay.dfy | backend/app/main.py |
| `ApiClient` | api_client.dfy | frontend/src/api/apiClient.ts |
| `ClientSocket` | websocket.dfy | frontend/src/api/websocket.ts |
| `UseRoom` | use_room.dfy | frontend/src/hooks/useRoom.ts |
| `Executor` | executor.dfy | frontend/src/utils/executor.ts |
| `TextCodec` | text_codec.dfy | executor.ts, the runPython transport |
| `UseTimer` | use_timer.dfy | frontend/src/hooks/useTimer.ts |
| `TaskLibrary` | task_library.dfy | frontend/src/components/room/TaskLibraryDialog.tsx |
| `TodoModels` | todo_models.dfy | tasks/models.py |
| `TodoStore` | todo_store.dfy | the `Todo.objects` table |
| `TodoViews` | todo_views.dfy | tasks/views.py |
| `SeedTodos` | seed_todos.dfy | tasks/management/commands/seed_todos.py |

`Common` (common.dfy) holds the shared records and the substring test.

How the model is built:
- State that the source updates in place is a Dafny class whose methods carry `modifies` clauses. This covers:
  - the room and participant dictionaries;
  - the `rooms_ws` registry;
  - the Pyodide memo;
  - the socket stub;
  - the hook's state;
  - the timer counter;
  - the dialog;
  - the todo table.
- Loops in the source are `while` loops with invariants:
  - the broadcast loop;
  - the worker's `output +=` accumulation;
  - the seeding loop.
- Pure code is functions and lemmas.
- Randomness, clocks, the Python interpreter, the user's JavaScript run, the script loader, `localStorage`, Unicode case folding and the outcome of every awaited call are parameters.

Some behaviour is followed as the code has it:
- **Logged output on a throw.** When user JavaScript throws, the worker drops everything it had logged and reports only the error (frontend/src/utils/executor.ts:62).
- **Django `NULL` dates.** A missing due date sorts first in ascending order and last in descending order. This is SQLite's rule, the default database of the app.
- **Priority order.** Priority is a character column, so "descending priority" is descending text order: medium, then low, then high (`TodoModels.PriorityDescendsAlphabetically`).
- **Language switch.** Only an empty editor or the bare one-line default comment counts as untouched. The full starter that `getRoom` returns is kept when the language changes (`UseRoom.SwitchKeepsFullStarter`).

All source paths below are relative to the repository root. `online-coding-interviews` is under `02-end-to-end/` and `django-todo` under `01_overview/`.

## Model

| member | source | states |
|---|---|---|
| Common.Contains | 02-end-to-end/online-coding-interviews/frontend/src/api/apiClient.ts:84 | `includes` is true exactly when some position of the text starts a copy of the pattern |
| RoomService.Template | 02-end-to-end/online-coding-interviews/backend/app/services/room_service.py:5-8 | the Python starter for "python", the JavaScript starter for every other value |
| RoomService.WithFieldReadBack | 02-end-to-end/online-coding-interviews/backend/app/services/room_service.py:34-53 | a single-field write reads back as written and leaves the id, the creation time and the other fields as they were |
| RoomService.UpdatedTable | 02-end-to-end/online-coding-interviews/backend/app/services/room_service.py:34-53 | an update keeps the key set; an unknown id leaves the table equal; a known id changes only that record's one field; every other room is unchanged |
| RoomService.RoomStore.constructor | 02-end-to-end/online-coding-interviews/backend/app/services/room_service.py:3 | both dictionaries start empty |
| RoomService.RoomStore.CreateRoom | 02-end-to-end/online-coding-interviews/backend/app/services/room_service.py:18-29 | stores the record (id, template code, language, empty task, clock time) under its id, overwriting any room there; makes a participant list exist and keeps an existing one |
| RoomService.RoomStore.GetRoom | 02-end-to-end/online-coding-interviews/backend/app/services/room_service.py:31-32 | None exactly when the id is absent, otherwise the stored record; reads only |
| RoomService.RoomStore.Update | 02-end-to-end/online-coding-interviews/backend/app/services/room_service.py:34-53 | None exactly for an unknown id; otherwise the record with the one field replaced, which is also what a later lookup returns; participants untouched |
| RoomService.RoomStore.UpdateCode | 02-end-to-end/online-coding-interviews/backend/app/services/room_service.py:34-39 | the same as Update, for the code field |
| RoomService.RoomStore.UpdateTask | 02-end-to-end/online-coding-interviews/backend/app/services/room_service.py:41-46 | the same as Update, for the task field |
| RoomService.RoomStore.UpdateLanguage | 02-end-to-end/online-coding-interviews/backend/app/services/room_service.py:48-53 | the same as Update, for the language field |
| RoomService.RoomStore.GetParticipants | 02-end-to-end/online-coding-interviews/backend/app/services/room_service.py:55-56 | the stored list, or [] for an unknown room, inserting nothing |
| RoomService.UpdateThenGet | 02-end-to-end/online-coding-interviews/backend/app/services/room_service.py:34-53 | after a successful update the room reports the new value and every other room reads as before |
| RoomService.UpdateTwice | 02-end-to-end/online-coding-interviews/backend/app/services/room_service.py:34-53 | two updates of the same field leave only the second |
| Routes.CreateLanguage | 02-end-to-end/online-coding-interviews/backend/app/api/routes.py:15-16 | request validation rejects exactly a given language outside the two literals; a missing body, a missing language or null becomes "javascript"; an accepted one is passed on |
| Routes.RoomReply | 02-end-to-end/online-coding-interviews/backend/app/api/routes.py:55-58 | None becomes 404 and a record becomes 200 with that record |
| Routes.ApiCreateRoom | 02-end-to-end/online-coding-interviews/backend/app/api/routes.py:48-51 | 422 and nothing stored for an invalid language; otherwise 201 with the stored room in the chosen language, an existing participant list kept and a new room given an empty one |
| Routes.ApiGetRoom | 02-end-to-end/online-coding-interviews/backend/app/api/routes.py:53-58 | 404 exactly when the room is absent, otherwise 200 with the stored room |
| Routes.ApiUpdateCode | 02-end-to-end/online-coding-interviews/backend/app/api/routes.py:60-65 | 404 exactly when the room is missing (table unchanged), otherwise 200 with the room after the code update |
| Routes.ApiUpdateTask | 02-end-to-end/online-coding-interviews/backend/app/api/routes.py:67-72 | 404 exactly when the room is missing, otherwise 200 with the room after the task update |
| Routes.ApiUpdateLanguage | 02-end-to-end/online-coding-interviews/backend/app/api/routes.py:74-79 | 422 for a language outside the literals, table untouched; otherwise 404 exactly when the room is missing, else 200 with the updated room |
| Routes.ApiGetParticipants | 02-end-to-end/online-coding-interviews/backend/app/api/routes.py:81-83 | always 200; [] for an unknown room |
| Routes.ApiExecute | 02-end-to-end/online-coding-interviews/backend/app/api/routes.py:85-91 | the fixed mock text naming the language, no error, 42 ms; 422 exactly for a language outside the literals |
| Routes.ExecuteIgnoresRoomAndCode | 02-end-to-end/online-coding-interviews/backend/app/api/routes.py:85-91 | the execute reply does not depend on the room id or the code |
| Relay.Dispatch | 02-end-to-end/online-coding-interviews/backend/app/main.py:32-56 | malformed frames and every other type are ignored; code_update relays the code member (or ""), task_update the task member (or ""); each in both directions |
| Relay.Recipients | 02-end-to-end/online-coding-interviews/backend/app/main.py:42-47 | the reached connections are exactly the room's peers other than the sender whose send does not fail |
| Relay.RelayHub.constructor | 02-end-to-end/online-coding-interviews/backend/app/main.py:19 | the registry starts empty and nothing has been sent |
| Relay.RelayHub.Peers | 02-end-to-end/online-coding-interviews/backend/app/main.py:42 | the room's set, or the empty set for a room nobody joined |
| Relay.RelayHub.Accept | 02-end-to-end/online-coding-interviews/backend/app/main.py:27-30 | the connection joins its room's set, which is created when absent; other rooms unchanged |
| Relay.RelayHub.Broadcast | 02-end-to-end/online-coding-interviews/backend/app/main.py:42-47 | the loop adds exactly one delivery per peer other than the sender whose send succeeds; a failing send does not stop it |
| Relay.RelayHub.Receive | 02-end-to-end/online-coding-interviews/backend/app/main.py:32-56 | an ignored frame changes nothing; a code or task update is written to the room table and broadcast to the others; the registry is unchanged |
| Relay.RelayHub.Disconnect | 02-end-to-end/online-coding-interviews/backend/app/main.py:57-58 | only that connection leaves its room's set |
| Relay.RelayReachesOthersOnce | 02-end-to-end/online-coding-interviews/backend/app/main.py:42-56 | the sender never hears its own update; every other peer whose send succeeds hears it exactly once |
| TextCodec.Utf16RoundTrip | 02-end-to-end/online-coding-interviews/frontend/src/utils/executor.ts:86 | a JavaScript string without lone surrogates decodes back to the scalar values it encodes |
| TextCodec.DecodeFirstOfEncoding | 02-end-to-end/online-coding-interviews/frontend/src/utils/executor.ts:103 | the strict UTF-8 decoder reads one encoded scalar back, whatever follows it |
| TextCodec.DecodeTwo | 02-end-to-end/online-coding-interviews/frontend/src/utils/executor.ts:103 | a well-formed two-byte sequence decodes to its scalar |
| TextCodec.DecodeThree | 02-end-to-end/online-coding-interviews/frontend/src/utils/executor.ts:103 | a well-formed three-byte sequence decodes to its scalar |
| TextCodec.DecodeFour | 02-end-to-end/online-coding-interviews/frontend/src/utils/executor.ts:103 | a well-formed four-byte sequence decodes to its scalar |
| TextCodec.Utf8RoundTrip | 02-end-to-end/online-coding-interviews/frontend/src/utils/executor.ts:103 | Python's strict UTF-8 decode inverts the UTF-8 encoding (RFC 3629) |
| TextCodec.EncodeUriComponent | 02-end-to-end/online-coding-interviews/frontend/src/utils/executor.ts:86 | throws (None) exactly for a string with a lone surrogate |
| TextCodec.UnescapeOne | 02-end-to-end/online-coding-interviews/frontend/src/utils/executor.ts:86 | `unescape` turns one percent-encoded byte back into one code unit |
| TextCodec.UnescapePercentEncode | 02-end-to-end/online-coding-interviews/frontend/src/utils/executor.ts:86 | `unescape(encodeURIComponent(...))` gives one code unit per UTF-8 byte |
| TextCodec.B64ValueOfChar | 02-end-to-end/online-coding-interviews/frontend/src/utils/executor.ts:103 | each base64 alphabet character decodes to its 6-bit value (RFC 4648 section 4) |
| TextCodec.B64CharIsBase64 | 02-end-to-end/online-coding-interviews/frontend/src/utils/executor.ts:103 | every 6-bit value maps to a character the encoded text may hold |
| TextCodec.Base64Chars | 02-end-to-end/online-coding-interviews/frontend/src/utils/executor.ts:86 | every character of the encoding is an alphabet character or the "=" padding |
| TextCodec.Base64Encode | 02-end-to-end/online-coding-interviews/frontend/src/utils/executor.ts:86 | the encoding's length is a multiple of four |
| TextCodec.TripleArithmetic | 02-end-to-end/online-coding-interviews/frontend/src/utils/executor.ts:103 | splitting three bytes into four 6-bit values and joining them gives the bytes back |
| TextCodec.DecodeTriple | 02-end-to-end/online-coding-interviews/frontend/src/utils/executor.ts:103 | a full group of four characters decodes to its three bytes, followed by the rest |
| TextCodec.RoundTripOneByte | 02-end-to-end/online-coding-interviews/frontend/src/utils/executor.ts:103 | a final group padded with "==" decodes to its one byte |
| TextCodec.RoundTripTwoBytes | 02-end-to-end/online-coding-interviews/frontend/src/utils/executor.ts:103 | a final group padded with "=" decodes to its two bytes |
| TextCodec.Base64RoundTrip | 02-end-to-end/online-coding-interviews/frontend/src/utils/executor.ts:103 | `b64decode(btoa(bytes))` is the bytes |
| TextCodec.Base64IsLiteralSafe | 02-end-to-end/online-coding-interviews/frontend/src/utils/executor.ts:103 | the base64 text pasted between double quotes holds no quote, backslash or line break |
| TextCodec.Btoa | 02-end-to-end/online-coding-interviews/frontend/src/utils/executor.ts:86 | throws (None) exactly when some code unit is above Latin-1 |
| TextCodec.EncodeForTransportIs | 02-end-to-end/online-coding-interviews/frontend/src/utils/executor.ts:86 | the browser side throws exactly for a lone surrogate, with the URIError text; otherwise it sends the base64 of the UTF-8 of the string, so btoa never throws there |
| TextCodec.TransportRoundTrip | 02-end-to-end/online-coding-interviews/frontend/src/utils/executor.ts:86-103 | the text the Python driver executes is exactly the user's code |
| Executor.Settle | 02-end-to-end/online-coding-interviews/frontend/src/utils/executor.ts:21-40 | the load promise resolves only when the script loads and the loader resolves; otherwise it rejects with the matching error |
| Executor.PyodideLoader.constructor | 02-end-to-end/online-coding-interviews/frontend/src/utils/executor.ts:17 | the memo starts empty and no load has started |
| Executor.PyodideLoader.Ensure | 02-end-to-end/online-coding-interviews/frontend/src/utils/executor.ts:19-43 | a load starts only while the memo is empty; afterwards the same settled result, a failure included, is returned and nothing new starts |
| Executor.LoadsAtMostOnce | 02-end-to-end/online-coding-interviews/frontend/src/utils/executor.ts:17-21 | two calls start one load, and the second sees the first's outcome |
| Executor.WorkerSource | 02-end-to-end/online-coding-interviews/frontend/src/utils/executor.ts:48-64 | the script is nine pieces, and the line-ending literal is double-quoted with the given body |
| Executor.LogTextAppend | 02-end-to-end/online-coding-interviews/frontend/src/utils/executor.ts:53 | the text logged by two runs of `console.log` calls is the first's text followed by the second's |
| Executor.WorkerReply | 02-end-to-end/online-coding-interviews/frontend/src/utils/executor.ts:52-62 | no message when the user code never returns; on a return: each call's arguments joined by " " plus a line feed, then the result's string unless undefined, with no error; on a throw: output "" and the error string |
| Executor.WorkerOnMessage | 02-end-to-end/online-coding-interviews/frontend/src/utils/executor.ts:49-64 | the handler's `output +=` loop posts exactly WorkerReply |
| Executor.RunJavaScript | 02-end-to-end/online-coding-interviews/frontend/src/utils/executor.ts:45-80 | pending exactly when the worker starts and either the script does not compile or the user code never returns (there is no timeout); a construction failure gives output "" and the error; otherwise the worker's message |
| Executor.WrittenWorkerNeverResolves | 02-end-to-end/online-coding-interviews/frontend/src/utils/executor.ts:53 | as written, the script does not compile and a started worker never resolves |
| Executor.IntendedWorkerResolves | 02-end-to-end/online-coding-interviews/frontend/src/utils/executor.ts:68-75 | with the escape kept, the script compiles, the literal denotes a line feed, and the call resolves with the worker's message unless the user code never returns, which still leaves it pending |
| Executor.Normalise | 02-end-to-end/online-coding-interviews/frontend/src/utils/executor.ts:127-138 | output is the captured stdout; error is null exactly when stderr is empty, else stderr; a non-JSON value becomes the output with a null error |
| Executor.PythonResult | 02-end-to-end/online-coding-interviews/frontend/src/utils/executor.ts:82-143 | a failed load, the encoding's URIError and a rejected driver give output "" and the error; otherwise the driver runs on the decoded text and its streams are normalised |
| Executor.PythonRunsOriginalText | 02-end-to-end/online-coding-interviews/frontend/src/utils/executor.ts:86-131 | for a proper string, the output is the stdout of running exactly the user's text, and the error is null exactly when its stderr is empty |
| Executor.RunPython | 02-end-to-end/online-coding-interviews/frontend/src/utils/executor.ts:82-143 | goes through the memoised load, then gives PythonResult for its outcome |
| Executor.RunCodeInBrowser | 02-end-to-end/online-coding-interviews/frontend/src/utils/executor.ts:145-150 | "python" runs through the memoised load; any other language runs the worker script as written and leaves the memo alone, so a started worker never settles and only a construction failure resolves |
| ClientSocket.RoomWebSocket.constructor | 02-end-to-end/online-coding-interviews/frontend/src/api/websocket.ts:16-20 | records the room id and sets no callback |
| ClientSocket.RoomWebSocket.Connect | 02-end-to-end/online-coding-interviews/frontend/src/api/websocket.ts:22-27 | changes no field |
| ClientSocket.RoomWebSocket.Disconnect | 02-end-to-end/online-coding-interviews/frontend/src/api/websocket.ts:29-33 | changes no field |
| ClientSocket.RoomWebSocket.SendCodeUpdate | 02-end-to-end/online-coding-interviews/frontend/src/api/websocket.ts:35-39 | changes no field and invokes no callback |
| ClientSocket.RoomWebSocket.SendTaskUpdate | 02-end-to-end/online-coding-interviews/frontend/src/api/websocket.ts:41-44 | changes no field and invokes no callback |
| ClientSocket.RoomWebSocket.OnCode | 02-end-to-end/online-coding-interviews/frontend/src/api/websocket.ts:46-48 | replaces the code callback and leaves the other two |
| ClientSocket.RoomWebSocket.OnParticipants | 02-end-to-end/online-coding-interviews/frontend/src/api/websocket.ts:50-52 | replaces the participants callback and leaves the other two |
| ClientSocket.RoomWebSocket.OnTask | 02-end-to-end/online-coding-interviews/frontend/src/api/websocket.ts:54-56 | replaces the task callback and leaves the other two |
| ApiClient.JsSubstring | 02-end-to-end/online-coding-interviews/frontend/src/api/apiClient.ts:114 | `substring` takes a run of the text whose length is that of the clamped, ordered bounds |
| ApiClient.GenerateRoomId | 02-end-to-end/online-coding-interviews/frontend/src/api/apiClient.ts:113-115 | at most six characters: characters 2 to 7 of the rendering, or fewer when it is shorter |
| ApiClient.CreateRoom | 02-end-to-end/online-coding-interviews/frontend/src/api/apiClient.ts:30-40 | a generated id of at most six characters, the one-line default code, JavaScript and an empty task |
| ApiClient.GetRoom | 02-end-to-end/online-coding-interviews/frontend/src/api/apiClient.ts:43-55 | never null; the requested id with the fixed JavaScript starter and sample task |
| ApiClient.Label | 02-end-to-end/online-coding-interviews/frontend/src/api/apiClient.ts:87 | "Python" exactly for "python", "JavaScript" otherwise |
| ApiClient.ExecuteCode | 02-end-to-end/online-coding-interviews/frontend/src/api/apiClient.ts:79-97 | an error result (output "", 23 ms) exactly when the code contains "error" or "throw"; otherwise the success text with no error and 42 ms; both labelled by language |
| ApiClient.GetRoomParticipants | 02-end-to-end/online-coding-interviews/frontend/src/api/apiClient.ts:100-110 | exactly one online participant with id "1", named by the stored name, or "Гость" when it is missing or empty |
| ApiClient.UpdateRoomField | 02-end-to-end/online-coding-interviews/frontend/src/api/apiClient.ts:58-76 | the update stubs always succeed and change no state |
| UseRoom.TrimStart | 02-end-to-end/online-coding-interviews/frontend/src/hooks/useRoom.ts:98 | removes exactly the leading JavaScript white space |
| UseRoom.TrimEnd | 02-end-to-end/online-coding-interviews/frontend/src/hooks/useRoom.ts:98 | removes exactly the trailing JavaScript white space |
| UseRoom.TrimIsCore | 02-end-to-end/online-coding-interviews/frontend/src/hooks/useRoom.ts:98 | the trimmed text is a run of the input with only white space around it, and it neither starts nor ends with white space |
| UseRoom.TrimAt | 02-end-to-end/online-coding-interviews/frontend/src/hooks/useRoom.ts:98 | the trimmed text occurs where the leading white space ends, and only white space follows it |
| UseRoom.TrimOfLine | 02-end-to-end/online-coding-interviews/frontend/src/hooks/useRoom.ts:98 | a line with no white space at either end, followed by a newline, trims to the line |
| UseRoom.StarterFor | 02-end-to-end/online-coding-interviews/frontend/src/hooks/useRoom.ts:101-103 | the JavaScript starter for "javascript", the Python one otherwise |
| UseRoom.StarterMatchesBackend | 02-end-to-end/online-coding-interviews/frontend/src/hooks/useRoom.ts:101-103 | for both languages the client starter is the backend's `_template` text |
| UseRoom.CodeAfterSwitch | 02-end-to-end/online-coding-interviews/frontend/src/hooks/useRoom.ts:97-104 | the new language's starter when the trimmed code is empty or the default line, the code unchanged otherwise |
| UseRoom.SwitchReplacesDefaultCode | 02-end-to-end/online-coding-interviews/frontend/src/hooks/useRoom.ts:98 | the code `createRoom` makes counts as untouched and is replaced on a switch |
| UseRoom.SwitchKeepsFullStarter | 02-end-to-end/online-coding-interviews/frontend/src/hooks/useRoom.ts:98 | the full starter `getRoom` returns is not untouched and is kept on a switch |
| UseRoom.MergeCode | 02-end-to-end/online-coding-interviews/frontend/src/hooks/useRoom.ts:51-53 | a loaded room takes the new code and nothing else; no room stays no room |
| UseRoom.MergeTask | 02-end-to-end/online-coding-interviews/frontend/src/hooks/useRoom.ts:54-56 | a loaded room takes the new task and nothing else; no room stays no room |
| UseRoom.MergesCompose | 02-end-to-end/online-coding-interviews/frontend/src/hooks/useRoom.ts:51-56 | two inbound updates of one field keep the later; updates of different fields commute |
| UseRoom.RunCode | 02-end-to-end/online-coding-interviews/frontend/src/hooks/useRoom.ts:110-128 | no room: the not-loaded error with 0 ms; a throw: the execution error with 0 ms; otherwise the mock run of the room's code in the room's language |
| UseRoom.RunCodeAsWritten | 02-end-to-end/online-coding-interviews/frontend/src/hooks/useRoom.ts:120 | as written, the mock classifies the room id and labels by the room's code |
| UseRoom.RunCodeArgumentShift | 02-end-to-end/online-coding-interviews/frontend/src/hooks/useRoom.ts:120 | a room with throwing code runs without error as written, and a Python room is labelled JavaScript |
| UseRoom.AsWrittenIgnoresLanguage | 02-end-to-end/online-coding-interviews/frontend/src/hooks/useRoom.ts:120 | as written, the result does not depend on the room's language |
| UseRoom.RoomHook.constructor | 02-end-to-end/online-coding-interviews/frontend/src/hooks/useRoom.ts:8-12 | no room, no participants, loading, no error, no socket |
| UseRoom.RoomHook.LoadRoom | 02-end-to-end/online-coding-interviews/frontend/src/hooks/useRoom.ts:14-34 | an empty id only clears loading; a room is stored with the error cleared; null gives "not found" and a throw the load error, both keeping the room; loading ends false on every path |
| UseRoom.RoomHook.LoadParticipants | 02-end-to-end/online-coding-interviews/frontend/src/hooks/useRoom.ts:36-44 | a successful fetch for a non-empty id replaces the list; otherwise it is kept |
| UseRoom.RoomHook.Mount | 02-end-to-end/online-coding-interviews/frontend/src/hooks/useRoom.ts:46-58 | without a socket, a fresh one for the room gets handlers that are exactly the inbound merges, and no participants handler |
| UseRoom.RoomHook.Unmount | 02-end-to-end/online-coding-interviews/frontend/src/hooks/useRoom.ts:59-62 | the socket is forgotten |
| UseRoom.RoomHook.UpdateCode | 02-end-to-end/online-coding-interviews/frontend/src/hooks/useRoom.ts:65-77 | nothing without a room; otherwise only the code is replaced at once, persisted, and sent over the socket whether or not persisting failed, with no rollback |
| UseRoom.RoomHook.UpdateTask | 02-end-to-end/online-coding-interviews/frontend/src/hooks/useRoom.ts:79-91 | the same as UpdateCode, for the task |
| UseRoom.RoomHook.UpdateLanguage | 02-end-to-end/online-coding-interviews/frontend/src/hooks/useRoom.ts:93-108 | nothing without a room; otherwise sets the language, swaps the code by CodeAfterSwitch, persists the language and sends nothing |
| UseTimer.Decimal | 02-end-to-end/online-coding-interviews/frontend/src/hooks/useTimer.ts:24 | `toString` gives only digits, one digit exactly below 10 and at most two exactly below 100 |
| UseTimer.DecimalValue | 02-end-to-end/online-coding-interviews/frontend/src/hooks/useTimer.ts:24 | the digits denote the number |
| UseTimer.PadStart2 | 02-end-to-end/online-coding-interviews/frontend/src/hooks/useTimer.ts:24-26 | zeros in front of a string shorter than two; a longer string is kept, never cut |
| UseTimer.LeadingZeros | 02-end-to-end/online-coding-interviews/frontend/src/hooks/useTimer.ts:24-26 | leading zeros do not change the value |
| UseTimer.Fields | 02-end-to-end/online-coding-interviews/frontend/src/hooks/useTimer.ts:20-22 | hours*3600 + minutes*60 + seconds is the count, and minutes and seconds are below 60 |
| UseTimer.PaddedField | 02-end-to-end/online-coding-interviews/frontend/src/hooks/useTimer.ts:24-26 | a padded field has at least two digits, exactly two below 100, all digits for larger values, and keeps the value |
| UseTimer.SplitFields | 02-end-to-end/online-coding-interviews/frontend/src/hooks/useTimer.ts:24-26 | in H:MM:SS the colons sit six and three places from the end and the three fields can be cut back out |
| UseTimer.FormatParseRoundTrip | 02-end-to-end/online-coding-interviews/frontend/src/hooks/useTimer.ts:19-27 | reading HH:MM:SS back gives the count of seconds |
| UseTimer.FormatLength | 02-end-to-end/online-coding-interviews/frontend/src/hooks/useTimer.ts:24-26 | the text has exactly eight characters exactly when the count is below 360000 |
| UseTimer.Timer.constructor | 02-end-to-end/online-coding-interviews/frontend/src/hooks/useTimer.ts:4 | the counter starts at 0 |
| UseTimer.Timer.Tick | 02-end-to-end/online-coding-interviews/frontend/src/hooks/useTimer.ts:8-10 | a tick adds one |
| UseTimer.Timer.Reset | 02-end-to-end/online-coding-interviews/frontend/src/hooks/useTimer.ts:32 | reset sets the counter to 0 |
| UseTimer.Timer.FormattedTime | 02-end-to-end/online-coding-interviews/frontend/src/hooks/useTimer.ts:31 | the shown text reads back as the current count |
| TaskLibrary.FilterTasks | 02-end-to-end/online-coding-interviews/frontend/src/components/room/TaskLibraryDialog.tsx:26-34 | a task is listed exactly when it is in the library, is in the room's language and (empty search or a case-insensitive match in title, description or category) |
| TaskLibrary.FilterKeepsOrder | 02-end-to-end/online-coding-interviews/frontend/src/components/room/TaskLibraryDialog.tsx:26 | the list is a subsequence of the library, in library order |
| TaskLibrary.EmptySearchListsLanguage | 02-end-to-end/online-coding-interviews/frontend/src/components/room/TaskLibraryDialog.tsx:28 | an empty search lists exactly the tasks of the room's language |
| TaskLibrary.DifficultyLabel | 02-end-to-end/online-coding-interviews/frontend/src/components/room/TaskLibraryDialog.tsx:50-57 | easy, medium and hard get their Russian labels; any other value is returned unchanged |
| TaskLibrary.DifficultyColor | 02-end-to-end/online-coding-interviews/frontend/src/components/room/TaskLibraryDialog.tsx:41-48 | the three class lists for the known levels; "" exactly for anything else |
| TaskLibrary.Preview | 02-end-to-end/online-coding-interviews/frontend/src/components/room/TaskLibraryDialog.tsx:105 | a prefix of the description with no line feed that stops only at a line feed or the end |
| TaskLibrary.TaskDialog.constructor | 02-end-to-end/online-coding-interviews/frontend/src/components/room/TaskLibraryDialog.tsx:23-24 | closed, with an empty search |
| TaskLibrary.TaskDialog.SelectTask | 02-end-to-end/online-coding-interviews/frontend/src/components/room/TaskLibraryDialog.tsx:36-39 | passes on exactly that task and closes the dialog; the search stays |
| TodoModels.PriorityChoiceValues | 01_overview/django-todo/backend/tasks/models.py:4-8 | the declared priorities are exactly low, medium and high |
| TodoModels.CategoryChoiceValues | 01_overview/django-todo/backend/tasks/models.py:10-16 | the declared categories are exactly work, study, personal, shopping and other |
| TodoModels.NewTodo | 01_overview/django-todo/backend/tasks/models.py:19-26 | defaults: not resolved, medium priority, work category, no due date; with a title of at most 200 characters the record passes validation |
| TodoModels.StrLeqTotal | 01_overview/django-todo/backend/tasks/models.py:32 | the text order on the priority column is total |
| TodoModels.StrLeqTrans | 01_overview/django-todo/backend/tasks/models.py:32 | the text order is transitive |
| TodoModels.StrLeqAntisym | 01_overview/django-todo/backend/tasks/models.py:32 | the text order is antisymmetric |
| TodoModels.DefaultOrderTotal | 01_overview/django-todo/backend/tasks/models.py:31-32 | any two records are comparable under `Meta.ordering` |
| TodoModels.DefaultOrderTrans | 01_overview/django-todo/backend/tasks/models.py:31-32 | `Meta.ordering` is transitive |
| TodoModels.DefaultOrderResolvedLast | 01_overview/django-todo/backend/tasks/models.py:31-32 | an unresolved record comes strictly before a resolved one |
| TodoModels.PriorityDescendsAlphabetically | 01_overview/django-todo/backend/tasks/models.py:32 | among records alike in the earlier keys, "-priority" orders medium, then low, then high |
| TodoStore.Lookup | 01_overview/django-todo/backend/tasks/views.py:82 | finds a row exactly when some row has that id, and the row found has that id |
| TodoStore.WithResolved | 01_overview/django-todo/backend/tasks/views.py:84 | only the flag of the rows with that id changes |
| TodoStore.TodoTable.constructor | 01_overview/django-todo/backend/tasks/models.py:19 | an empty table whose first id will be 1 |
| TodoStore.TodoTable.Exists | 01_overview/django-todo/backend/tasks/management/commands/seed_todos.py:19 | true exactly when the table has a row |
| TodoStore.TodoTable.Create | 01_overview/django-todo/backend/tasks/management/commands/seed_todos.py:94-95 | appends one row numbered by the counter; ids stay distinct |
| TodoStore.TodoTable.DeleteAll | 01_overview/django-todo/backend/tasks/management/commands/seed_todos.py:23 | empties the table and keeps the counter |
| TodoStore.TodoTable.SaveResolved | 01_overview/django-todo/backend/tasks/views.py:84 | only the flag of that row changes |
| Common.GetOr | 01_overview/django-todo/backend/tasks/views.py:19-23 | the stored value when the key is present, the default when it is absent (the relay reads the frame members the same way, main.py line 40) |
| TodoViews.ContextData | 01_overview/django-todo/backend/tasks/views.py:43-57 | the context's filters are those of the query, and it carries today |
| TodoViews.ContextEchoesQuery | 01_overview/django-todo/backend/tasks/views.py:47-53 | the echoed filters equal the ones the list used, with the same defaults |
| TodoViews.Keep | 01_overview/django-todo/backend/tasks/views.py:25-34 | a filter keeps exactly the rows that satisfy it, and no more rows than it had |
| TodoViews.KeepKeep | 01_overview/django-todo/backend/tasks/views.py:25-34 | two filters in a row keep what their conjunction keeps |
| TodoViews.KeepAll | 01_overview/django-todo/backend/tasks/views.py:25-34 | a filter true of every row keeps the list as it is |
| TodoViews.FilterStep | 01_overview/django-todo/backend/tasks/views.py:25-34 | a filter applied only when its parameter asks for it keeps what the combined condition keeps |
| TodoViews.Selected | 01_overview/django-todo/backend/tasks/views.py:25-34 | exactly the rows that pass the text, category, priority and status filters |
| TodoViews.FilterRows | 01_overview/django-todo/backend/tasks/views.py:25-34 | the chain of conditional filters gives Selected |
| TodoViews.UnknownKeyIgnored | 01_overview/django-todo/backend/tasks/views.py:36-39 | an unaccepted key leaves the resolved flag as the only key |
| TodoViews.ListLeqTotal | 01_overview/django-todo/backend/tasks/views.py:36-39 | any two rows are comparable under the list order |
| TodoViews.ListLeqTrans | 01_overview/django-todo/backend/tasks/views.py:36-39 | the list order is transitive |
| TodoViews.Insert | 01_overview/django-todo/backend/tasks/views.py:36-39 | inserting into a sorted list adds the row and keeps the list sorted |
| TodoViews.OrderBy | 01_overview/django-todo/backend/tasks/views.py:36-39 | the ordered rows are a permutation of the input and sorted |
| TodoViews.SortedPairwise | 01_overview/django-todo/backend/tasks/views.py:36-39 | sorted by neighbours means sorted by every pair |
| TodoViews.ResolvedLast | 01_overview/django-todo/backend/tasks/views.py:36-39 | in the ordered list every unresolved row precedes every resolved one |
| TodoViews.SortedUnknownKey | 01_overview/django-todo/backend/tasks/views.py:38-39 | a list ordered on the resolved flag alone is ordered for any unaccepted key |
| TodoViews.GetQueryset | 01_overview/django-todo/backend/tasks/views.py:17-41 | shows exactly the rows that pass the filters, each as often as in the table, sorted unresolved first and then by the accepted key |
| TodoViews.Toggled | 01_overview/django-todo/backend/tasks/views.py:83 | flips the flag of the rows with that id, and no other row changes |
| TodoViews.ToggleTwice | 01_overview/django-todo/backend/tasks/views.py:80-84 | toggling twice restores the table |
| TodoViews.ToggleResolved | 01_overview/django-todo/backend/tasks/views.py:80-85 | flips only that row's flag, keeping ids distinct and the counter; found exactly when the row exists, and the table is unchanged otherwise |
| TodoViews.Count | 01_overview/django-todo/backend/tasks/views.py:94-98 | a count never exceeds the number of rows |
| TodoViews.CountComplement | 01_overview/django-todo/backend/tasks/views.py:95-96 | the rows with and without a property add up to all rows |
| TodoViews.CountMono | 01_overview/django-todo/backend/tasks/views.py:98 | a stronger filter counts no more rows |
| TodoViews.CountIsKeptLength | 01_overview/django-todo/backend/tasks/views.py:94-98 | `filter(...).count()` equals the length of `filter(...)` |
| TodoViews.RoundHalfEven | 01_overview/django-todo/backend/tasks/views.py:99 | rounding to nearest with ties to even is within half a unit, even on a tie, and keeps an upper bound |
| TodoViews.RoundDiv | 01_overview/django-todo/backend/tasks/views.py:99 | `round(n / total)` is within half a unit of n/total, even on a tie, and at most 100 when n <= 100*total |
| TodoViews.DivRounds | 01_overview/django-todo/backend/tasks/views.py:99 | the quotient rounded up exactly when the remainder is past half (or half with an odd quotient) is nearest, even on a tie, and at most 100 |
| TodoViews.Progress | 01_overview/django-todo/backend/tasks/views.py:99 | 0 with no rows; otherwise the nearest integer to 100*done/total (ties to even), at most 100 |
| TodoViews.StatsOf | 01_overview/django-todo/backend/tasks/views.py:91-101 | total is the row count, active and done the counts of unresolved and resolved rows, overdue the count of unresolved rows due before today, progress the rounded percentage of done; so active plus done is total, overdue is at most active, and progress is 0 with no rows and at most 100 |
| SeedTodos.Samples | 01_overview/django-todo/backend/tasks/management/commands/seed_todos.py:27-92 | there are eight samples |
| SeedTodos.SampleFacts | 01_overview/django-todo/backend/tasks/management/commands/seed_todos.py:31-89 | the due dates are today+2, today, +5, -2, none, +7, +10, +14; exactly the fifth and the eighth are resolved; every sample passes validation |
| SeedTodos.Seeded | 01_overview/django-todo/backend/tasks/management/commands/seed_todos.py:94-95 | one record per draft, with its fields, consecutive ids from the counter and its creation time |
| SeedTodos.SeededStep | 01_overview/django-todo/backend/tasks/management/commands/seed_todos.py:94-95 | creating one more draft appends one more record |
| SeedTodos.CreateAll | 01_overview/django-todo/backend/tasks/management/commands/seed_todos.py:94-95 | creating the drafts one by one on an empty table yields exactly Seeded and advances the counter by their number |
| SeedTodos.SeedResult | 01_overview/django-todo/backend/tasks/management/commands/seed_todos.py:18-95 | a non-empty table without --force is unchanged; otherwise exactly the eight samples with fresh ids, and the counter advanced by eight |
| SeedTodos.SeedTwiceIsSeedOnce | 01_overview/django-todo/backend/tasks/management/commands/seed_todos.py:19-21 | two runs without --force leave what one run leaves |
| SeedTodos.ForceIgnoresContents | 01_overview/django-todo/backend/tasks/management/commands/seed_todos.py:22-95 | with --force the result is the eight samples whatever the table held |
| SeedTodos.Handle | 01_overview/django-todo/backend/tasks/management/commands/seed_todos.py:18-97 | the delete and create loop produces SeedResult and reports skipped or eight created |

## Left out

- Randomness, clocks and the browser's storage are parameters. This covers `_gen_id`, `_now`, `Math.random`, `new Date()`, `timezone.now()` and `localStorage`.
- `simulateDelay`, all console logging and the React rendering are not modelled. The closure semantics of the React state setters are left out too: each hook method sees the state the previous one left.
- Asynchronous interleaving of the socket tasks is left out; each received frame is one sequential step. Connections are numbers.
- A frame that is JSON but not an object, or whose members are not strings, is not modelled. The source raises outside its handler there.
- The REST layer's validation of body fields other than `language` is not modelled (FastAPI and Pydantic internals).
- The update handlers in `room_service.py` test `if not r`. A stored record is a non-empty dictionary and never falsy, so the model tests membership.
- The worker, the Blob and object URLs, the Pyodide CDN load, `exec` and `performance.now` with `Math.round` are oracles. The duration is given already rounded.
- Executor.WorkerSource: only the string literals of the worker script are checked for compilation. The code between them is taken to contain no quote characters.
- Executor.LiteralValue: only the `\n`, `\r` and `\t` escapes are decoded.
- TextCodec.EncodeForTransportIs: the exception texts are fixed to the wording of V8, the engine of Chrome (`URIError: URI malformed`, and `btoa`'s `InvalidCharacterError` message). The code passes on whatever text the browser's engine produces, and other engines word these messages differently.
- Executor.PythonResult: the URIError text of a lone surrogate is fixed to V8's wording, as for TextCodec.EncodeForTransportIs.
- The `toJs` conversion in `runPython` is folded into the value the driver returns.
- `exec_service.py`, `database.py` and `db/mock_db` are not part of this model. The room and participant dictionaries live in `RoomService.RoomStore`.
- The task library's data (`frontend/src/data/taskLibrary.ts`) is not part of this model. Only the record type is.
- The dialog's open/close wiring through `onOpenChange` is not modelled.
- `toLowerCase` and `icontains` case folding is the parameter `lower`.
- TodoModels.Str: `__str__` returns the title and carries no contract.
- TodoViews.ToggleResolved: for an unknown id the source's `objects.get` raises `DoesNotExist`. The model returns `found == false` with the table unchanged. The redirect is not modelled.
- TodoViews.Progress: computed exactly on integers, as the nearest integer with ties to even. Floating-point error in `done / total * 100` before Python's `round` is not modelled.
- TodoViews.OrderBy: rows equal under the sort keys come in an order the database chooses. The model fixes one such order, and its contract states only the multiset and sortedness.
- Relay.RelayHub.Disconnect: requires the room's set to exist, which `Accept` always guarantees first.
- Django's generic create, update and delete views, the forms, the admin, the URLs and the templates are not modelled. The ORM is modelled only as the row sequence with an auto-increment counter, with NULL ordering as in SQLite.
- Tests in the repository that disagree with the shown code are not modelled. These cover a title argument to `update_task`, other execute output texts and a "join" reply.

## Findings

| source | as written | input that shows it | evidently intended | confidence | as-written member | corrected member |
|---|---|---|---|---|---|---|
| 02-end-to-end/online-coding-interviews/frontend/src/utils/executor.ts:53 | inside the template literal, `"\n"` becomes a double-quoted string holding a raw line feed, so the worker script is a syntax error; with no error handler (lines 68-75) the promise never settles, which Executor.RunCodeInBrowser states for every non-Python run whose worker starts | any JavaScript run in a worker that starts | a literal denoting a line feed, written `"\\n"` in the template, so the worker compiles and posts its message | not executed | Executor.WrittenWorkerNeverResolves | Executor.IntendedWorkerResolves |
| 02-end-to-end/online-coding-interviews/frontend/src/hooks/useRoom.ts:120 | `executeCode(room.id, room.code, room.language)` against the two-parameter `executeCode(code, language)`: the mock inspects the room id and labels by the code | room id "r1" with code "throw 1" gives no error; a Python room is labelled JavaScript | `executeCode(room.code, room.language)` | not executed | UseRoom.RunCodeArgumentShift | UseRoom.RunCode |
