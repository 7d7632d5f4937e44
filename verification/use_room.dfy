/** The client's room state (frontend/src/hooks/useRoom.ts): the loaded
    room, the participant list, the loading flag and the error text, kept as
    the fields of one object whose methods are the hook's callbacks. Each
    awaited call's outcome is a parameter; the calls the hook makes to the
    API and the socket are recorded in order in `calls`. */
module UseRoom {
  import opened Common
  import ApiClient
  import RoomService
  import ClientSocket

  const NotFoundText: string := "Комната не найдена"
  const LoadFailedText: string := "Ошибка загрузки комнаты"
  const NotLoadedText: string := "Комната не загружена"
  const ExecFailedText: string := "Ошибка выполнения кода"

  const JavaScriptStarter: string := "// Напишите код здесь\nfunction solution() {\n  // ваше решение\n}\n"
  const PythonStarter: string := "# Напишите код здесь\ndef solution():\n    pass\n"

  // ----------------------------------------------------------------- trim

  /** White space and line terminators as `String.prototype.trim` removes
      them (ECMAScript 2024, sections 12.2 and 12.3). */
  predicate IsJsWhitespace(c: char) {
    c == '\t' || c == '\U{000B}' || c == '\U{000C}' || c == ' ' || c == '\U{00A0}' || c == '\U{FEFF}' ||
    c == '\U{1680}' || ('\U{2000}' <= c <= '\U{200A}') || c == '\U{202F}' || c == '\U{205F}' || c == '\U{3000}' ||
    c == '\n' || c == '\r' || c == '\U{2028}' || c == '\U{2029}'
  }

  /** `s` without its leading white space. */
  function TrimStart(s: string): (r: string)
    ensures |r| <= |s| && r == s[|s| - |r|..]
    ensures forall i :: 0 <= i < |s| - |r| ==> IsJsWhitespace(s[i])
    ensures |r| > 0 ==> !IsJsWhitespace(r[0])
    decreases |s|
  {
    if |s| > 0 && IsJsWhitespace(s[0]) then TrimStart(s[1..]) else s
  }

  /** `s` without its trailing white space. */
  function TrimEnd(s: string): (r: string)
    ensures |r| <= |s| && r == s[..|r|]
    ensures forall i :: |r| <= i < |s| ==> IsJsWhitespace(s[i])
    ensures |r| > 0 ==> !IsJsWhitespace(r[|r| - 1])
    decreases |s|
  {
    if |s| > 0 && IsJsWhitespace(s[|s| - 1]) then TrimEnd(s[..|s| - 1]) else s
  }

  function Trim(s: string): string {
    TrimEnd(TrimStart(s))
  }

  /** Trimming keeps the run that starts after the leading white space. */
  /** A prefix of a suffix of `s` occurs in `s` where the suffix starts. */
  lemma PrefixOfSuffix(s: string, i: nat, t: string)
    requires i <= |s| && |t| <= |s| - i && t == s[i..][..|t|]
    ensures OccursAt(s, t, i)
  {
    assert s[i..][..|t|] == s[i..i + |t|];
  }

  /** White space past the prefix of a suffix is white space in `s`. */
  lemma WhitespaceTail(s: string, i: nat, n: nat)
    requires i <= |s| && n <= |s| - i
    requires forall j :: n <= j < |s[i..]| ==> IsJsWhitespace(s[i..][j])
    ensures forall k :: i + n <= k < |s| ==> IsJsWhitespace(s[k])
  {
    forall k | i + n <= k < |s| ensures IsJsWhitespace(s[k]) {
      assert s[k] == s[i..][k - i];
    }
  }

  /** Trimming keeps the run that starts after the leading white space. */
  lemma TrimAt(s: string)
    ensures OccursAt(s, Trim(s), |s| - |TrimStart(s)|)
    ensures forall k :: |s| - |TrimStart(s)| + |Trim(s)| <= k < |s| ==> IsJsWhitespace(s[k])
  {
    var a := TrimStart(s);
    var i := |s| - |a|;
    PrefixOfSuffix(s, i, TrimEnd(a));
    WhitespaceTail(s, i, |TrimEnd(a)|);
  }

  /** The trimmed text is a run of `s` with only white space around it, and
      it neither starts nor ends with white space. */
  lemma TrimIsCore(s: string)
    ensures exists i :: (OccursAt(s, Trim(s), i) &&
      (forall k :: 0 <= k < i ==> IsJsWhitespace(s[k])) &&
      (forall k :: i + |Trim(s)| <= k < |s| ==> IsJsWhitespace(s[k])))
    ensures |Trim(s)| > 0 ==> !IsJsWhitespace(Trim(s)[0]) && !IsJsWhitespace(Trim(s)[|Trim(s)| - 1])
  {
    TrimAt(s);
    var i := |s| - |TrimStart(s)|;
    assert OccursAt(s, Trim(s), i) &&
      (forall k :: 0 <= k < i ==> IsJsWhitespace(s[k])) &&
      (forall k :: i + |Trim(s)| <= k < |s| ==> IsJsWhitespace(s[k]));
  }

  // ------------------------------------------------------ language switch

  /** The starter the client puts in on a language switch: the JavaScript one
      for "javascript", the Python one for every other value. */
  function StarterFor(language: string): (r: string)
    ensures language == JavaScript ==> r == JavaScriptStarter
    ensures language != JavaScript ==> r == PythonStarter
  {
    if language == JavaScript then JavaScriptStarter else PythonStarter
  }

  /** For the two languages a room can have, the client's starters are the
      backend's `_template` texts. */
  lemma StarterMatchesBackend(language: string)
    requires IsLanguage(language)
    ensures StarterFor(language) == RoomService.Template(language)
  {
  }

  /** The editor counts as untouched when its trimmed text is empty or the
      bare default comment line. */
  predicate IsEmptyOrDefault(code: string) {
    Trim(code) == "" || Trim(code) == ApiClient.DefaultLine
  }

  /** The code after switching to `language`: the starter when the editor is
      untouched, the code itself otherwise. */
  function CodeAfterSwitch(code: string, language: string): (r: string)
    ensures IsEmptyOrDefault(code) ==> r == StarterFor(language)
    ensures !IsEmptyOrDefault(code) ==> r == code
  {
    if IsEmptyOrDefault(code) then StarterFor(language) else code
  }

  /** A line with no white space at either end, followed by a newline,
      trims to the line itself. */
  lemma TrimOfLine(t: string)
    requires |t| > 0 && !IsJsWhitespace(t[0]) && !IsJsWhitespace(t[|t| - 1])
    ensures Trim(t + "\n") == t
  {
    assert (t + "\n")[0] == t[0];
    assert (t + "\n")[..|t|] == t;
  }

  /** The code of a room made by `createRoom` counts as untouched, so a
      language switch replaces it by the new language's starter. */
  lemma SwitchReplacesDefaultCode(language: string)
    ensures CodeAfterSwitch(ApiClient.DefaultCode, language) == StarterFor(language)
  {
    var line := ApiClient.DefaultLine;
    assert line[0] == '/' && line[|line| - 1] == 'ь';
    TrimOfLine(line);
  }

  /** A full starter does not count as untouched: switching the language of
      a room loaded by `getRoom` keeps its JavaScript starter. */
  lemma SwitchKeepsFullStarter(language: string)
    ensures CodeAfterSwitch(ApiClient.MockStarter, language) == ApiClient.MockStarter
  {
    var m := ApiClient.MockStarter;
    assert |m| == 64 && m[0] == '/' && m[62] == '}' && m[63] == '\n';
    var t := m[..63];
    assert m == t + "\n";
    TrimOfLine(t);
    assert |ApiClient.DefaultLine| == 21;
  }

  // --------------------------------------------------------- inbound merge

  /** A state update as `setRoom` receives it. */
  type RoomUpdate = Option<Room> -> Option<Room>

  /** The inbound code handler: a loaded room takes the new code; no room
      stays no room. */
  function MergeCode(prev: Option<Room>, code: string): (r: Option<Room>)
    ensures r.None? <==> prev.None?
    ensures prev.Some? ==> r.value.code == code && r.value == prev.value.(code := code)
  {
    if prev.Some? then Some(prev.value.(code := code)) else prev
  }

  /** The inbound task handler. */
  function MergeTask(prev: Option<Room>, task: string): (r: Option<Room>)
    ensures r.None? <==> prev.None?
    ensures prev.Some? ==> r.value.task == task && r.value == prev.value.(task := task)
  {
    if prev.Some? then Some(prev.value.(task := task)) else prev
  }

  /** Two inbound updates of the same field keep the later one, and updates
      of different fields commute. */
  lemma MergesCompose(prev: Option<Room>, a: string, b: string)
    ensures MergeCode(MergeCode(prev, a), b) == MergeCode(prev, b)
    ensures MergeTask(MergeTask(prev, a), b) == MergeTask(prev, b)
    ensures MergeTask(MergeCode(prev, a), b) == MergeCode(MergeTask(prev, b), a)
  {
  }

  // ---------------------------------------------------------------- runCode

  /** `runCode`: no room gives the not-loaded error; a throwing call gives
      the execution error; otherwise the mock runs the room's code in the
      room's language. */
  function RunCode(room: Option<Room>, executeThrew: bool): (r: ExecResult)
    ensures room.None? ==> r == ExecResult("", Some(NotLoadedText), 0)
    ensures room.Some? && executeThrew ==> r == ExecResult("", Some(ExecFailedText), 0)
    ensures room.Some? && !executeThrew ==> r == ApiClient.ExecuteCode(room.value.code, room.value.language)
  {
    if room.None? then ExecResult("", Some(NotLoadedText), 0)
    else if executeThrew then ExecResult("", Some(ExecFailedText), 0)
    else ApiClient.ExecuteCode(room.value.code, room.value.language)
  }

  /** `runCode` as written: the call passes the room id, the code and the
      language to the two-parameter `executeCode`, which binds the id as the
      code and the code as the language and drops the third argument. */
  function RunCodeAsWritten(room: Option<Room>, executeThrew: bool): (r: ExecResult)
    ensures room.None? || executeThrew ==> r == RunCode(room, executeThrew)
    ensures room.Some? && !executeThrew ==> r == ApiClient.ExecuteCode(room.value.id, room.value.code)
  {
    if room.None? then ExecResult("", Some(NotLoadedText), 0)
    else if executeThrew then ExecResult("", Some(ExecFailedText), 0)
    else ApiClient.ExecuteCode(room.value.id, room.value.code)
  }

  /** A room whose code throws runs without error as written, because only
      its id is inspected, while the intended call reports the error; and a
      Python room is labelled JavaScript as written. */
  lemma RunCodeArgumentShift()
    ensures var room := Some(Room("r1", "throw 1", JavaScript, "", ""));
      RunCodeAsWritten(room, false).error.None? && RunCode(room, false).error.Some?
    ensures var room := Some(Room("r1", "pass", Python, "", ""));
      RunCodeAsWritten(room, false).output == ApiClient.MockOutputHead + "JavaScript" + ApiClient.MockOutputTail &&
      RunCode(room, false).output == ApiClient.MockOutputHead + "Python" + ApiClient.MockOutputTail
  {
    assert OccursAt("throw 1", "throw", 0);
    assert !Contains("r1", "error") by {
      forall i ensures !OccursAt("r1", "error", i) { }
    }
    assert !Contains("r1", "throw") by {
      forall i ensures !OccursAt("r1", "throw", i) { }
    }
    assert !Contains("pass", "error") by {
      forall i ensures !OccursAt("pass", "error", i) { }
    }
    assert !Contains("pass", "throw") by {
      forall i ensures !OccursAt("pass", "throw", i) { }
    }
    assert "pass" != Python;
  }

  /** Whatever the room's language, the as-written call labels the result
      by the room's code. */
  lemma AsWrittenIgnoresLanguage(room: Room, language: string)
    ensures RunCodeAsWritten(Some(room), false) == RunCodeAsWritten(Some(room.(language := language)), false)
  {
  }

  // ------------------------------------------------------------- the hook

  /** The outcome of the awaited `getRoom`: a room or null, or a throw. */
  datatype FetchOutcome = Fetched(data: Option<Room>) | FetchThrew

  /** The calls the hook makes on the API and the socket. */
  datatype Call =
    | PersistCode(roomId: string, code: string, succeeded: bool)
    | PersistTask(roomId: string, task: string, succeeded: bool)
    | PersistLanguage(roomId: string, language: string)
    | SendCode(code: string)
    | SendTask(task: string)

  class RoomHook {
    const roomId: string
    var room: Option<Room>
    var participants: seq<Participant>
    var loading: bool
    var error: Option<string>
    var ws: Option<ClientSocket.RoomWebSocket<RoomUpdate>>
    var calls: seq<Call>

    /** The initial state: no room, nobody, loading, no error, no socket. */
    constructor (roomId: string)
      ensures this.roomId == roomId
      ensures room == None && participants == [] && loading && error == None && ws == None && calls == []
    {
      this.roomId := roomId;
      room := None;
      participants := [];
      loading := true;
      error := None;
      ws := None;
      calls := [];
    }

    /** `loadRoom`: with no id only the loading flag drops; otherwise a room
        is stored and the error cleared, null reports "not found" and a throw
        reports a load failure, both keeping the previous room, and loading
        ends false on every path. */
    method LoadRoom(outcome: FetchOutcome)
      modifies this`room, this`loading, this`error
      ensures !loading
      ensures roomId == "" ==> room == old(room) && error == old(error)
      ensures roomId != "" && outcome.Fetched? && outcome.data.Some? ==> room == outcome.data && error == None
      ensures roomId != "" && outcome.Fetched? && outcome.data.None? ==> room == old(room) && error == Some(NotFoundText)
      ensures roomId != "" && outcome.FetchThrew? ==> room == old(room) && error == Some(LoadFailedText)
    {
      if roomId == "" {
        loading := false;
        return;
      }
      loading := true;
      if outcome.FetchThrew? {
        error := Some(LoadFailedText);
      } else if outcome.data.Some? {
        room := outcome.data;
        error := None;
      } else {
        error := Some(NotFoundText);
      }
      loading := false;
    }

    /** `loadParticipants`: with an id, a successful fetch replaces the list;
        a throw (None) keeps it. */
    method LoadParticipants(fetched: Option<seq<Participant>>)
      modifies this`participants
      ensures roomId != "" && fetched.Some? ==> participants == fetched.value
      ensures roomId == "" || fetched.None? ==> participants == old(participants)
    {
      if roomId != "" && fetched.Some? {
        participants := fetched.value;
      }
    }

    /** The socket part of the mount effect: when no socket exists, a new one
        for this room gets the inbound code and task handlers and connects. */
    method Mount()
      modifies this`ws
      ensures old(ws).Some? ==> ws == old(ws)
      ensures old(ws).None? ==> ws.Some? && fresh(ws.value) && ws.value.roomId == roomId
      ensures old(ws).None? ==> ws.value.onParticipantsChange.None?
      ensures old(ws).None? ==> ws.value.onCodeChange.Some? && ws.value.onTaskChange.Some?
      ensures old(ws).None? ==> forall c, prev :: ws.value.onCodeChange.value(c)(prev) == MergeCode(prev, c)
      ensures old(ws).None? ==> forall t, prev :: ws.value.onTaskChange.value(t)(prev) == MergeTask(prev, t)
    {
      if ws.None? {
        var socket := new ClientSocket.RoomWebSocket<RoomUpdate>(roomId);
        socket.OnCode(c => prev => MergeCode(prev, c));
        socket.OnTask(t => prev => MergeTask(prev, t));
        socket.Connect();
        ws := Some(socket);
      }
    }

    /** The mount effect's cleanup: disconnect and forget the socket. */
    method Unmount()
      modifies this`ws
      ensures ws == None
    {
      if ws.Some? {
        ws.value.Disconnect();
      }
      ws := None;
    }

    /** `updateCode`: nothing without a room; otherwise the code is replaced
        at once, then persisted, and the socket update is sent whether or not
        persisting succeeded; a failure rolls nothing back. */
    method UpdateCode(code: string, persistOk: bool)
      modifies this`room, this`calls
      ensures old(room).None? ==> room == old(room) && calls == old(calls)
      ensures old(room).Some? ==> room == Some(old(room).value.(code := code))
      ensures old(room).Some? ==>
        calls == old(calls) + [PersistCode(roomId, code, persistOk)] + (if ws.Some? then [SendCode(code)] else [])
    {
      if room.None? {
        return;
      }
      room := Some(room.value.(code := code));
      calls := calls + [PersistCode(roomId, code, persistOk)];
      if ws.Some? {
        ws.value.SendCodeUpdate(code);
        calls := calls + [SendCode(code)];
      }
    }

    /** `updateTask`: the same shape as `updateCode`, for the task. */
    method UpdateTask(task: string, persistOk: bool)
      modifies this`room, this`calls
      ensures old(room).None? ==> room == old(room) && calls == old(calls)
      ensures old(room).Some? ==> room == Some(old(room).value.(task := task))
      ensures old(room).Some? ==>
        calls == old(calls) + [PersistTask(roomId, task, persistOk)] + (if ws.Some? then [SendTask(task)] else [])
    {
      if room.None? {
        return;
      }
      room := Some(room.value.(task := task));
      calls := calls + [PersistTask(roomId, task, persistOk)];
      if ws.Some? {
        ws.value.SendTaskUpdate(task);
        calls := calls + [SendTask(task)];
      }
    }

    /** `updateLanguage`: nothing without a room; otherwise the language is
        set, the code becomes the new language's starter only when the
        editor is untouched, and the language is persisted without waiting;
        nothing goes to the socket. */
    method UpdateLanguage(language: string)
      modifies this`room, this`calls
      ensures old(room).None? ==> room == old(room) && calls == old(calls)
      ensures old(room).Some? ==>
        room == Some(old(room).value.(language := language, code := CodeAfterSwitch(old(room).value.code, language)))
      ensures old(room).Some? ==> calls == old(calls) + [PersistLanguage(roomId, language)]
    {
      if room.None? {
        return;
      }
      var newCode := CodeAfterSwitch(room.value.code, language);
      room := Some(room.value.(language := language, code := newCode));
      calls := calls + [PersistLanguage(roomId, language)];
    }
  }
}
