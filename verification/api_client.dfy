/** The client's API layer (frontend/src/api/apiClient.ts), which answers
    from fixed mock data instead of calling the backend. Delays and console
    logging are left out; the random number behind a room id, the clock and
    the stored user name are parameters. */
module ApiClient {
  import opened Common

  /** The first line of every starter text. */
  const DefaultLine: string := "// Напишите код здесь"
  const DefaultCode: string := DefaultLine + "\n"
  const MockStarter: string := DefaultLine + "\nfunction solution() {\n  // ваше решение\n}\n"
  const MockTask: string := "Напишите функцию, которая сортирует массив чисел по возрастанию."
  const Guest: string := "Гость"
  const MockErrorSuffix: string := " Error: Пример ошибки выполнения"
  const MockOutputHead: string := "[Mock Output]\nКод на "
  const MockOutputTail: string := " выполнен успешно\n\nРезультат: [1, 2, 3, 4, 5]"

  // ------------------------------------------------------- generateRoomId

  /** `s.substring(a, b)` on non-negative indices: both bounds are clamped
      to the length and swapped when the first exceeds the second. */
  function JsSubstring(s: string, a: nat, b: nat): (r: string)
    ensures var lo := if a <= b then a else b;
            var hi := if a <= b then b else a;
            |r| == (if hi <= |s| then hi else |s|) - (if lo <= |s| then lo else |s|)
    ensures exists i :: OccursAt(s, r, i)
  {
    var lo := if a <= b then a else b;
    var hi := if a <= b then b else a;
    var start := if lo <= |s| then lo else |s|;
    var end := if hi <= |s| then hi else |s|;
    assert OccursAt(s, s[start..end], start);
    s[start..end]
  }

  /** `generateRoomId`: characters 2 to 7 of the base-36 rendering of a
      random number (`rendered` is that rendering, such as "0.4fzyo82mvyr"). */
  function GenerateRoomId(rendered: string): (id: string)
    ensures |id| <= 6
    ensures |rendered| >= 8 ==> id == rendered[2..8]
    ensures |rendered| <= 2 ==> id == ""
  {
    JsSubstring(rendered, 2, 8)
  }

  // ------------------------------------------------------------ the mocks

  /** `createRoom`: a fresh id, the one-line default code, JavaScript, no task. */
  function CreateRoom(rendered: string, now: string): (r: Room)
    ensures r.id == GenerateRoomId(rendered) && |r.id| <= 6
    ensures r.code == DefaultCode && r.language == JavaScript && r.task == "" && r.createdAt == now
  {
    Room(GenerateRoomId(rendered), DefaultCode, JavaScript, "", now)
  }

  /** `getRoom`: never null; whatever the id, the same JavaScript starter and
      sample task under the requested id. */
  function GetRoom(roomId: string, now: string): (r: Option<Room>)
    ensures r.Some?
    ensures r.value.id == roomId && r.value.createdAt == now
    ensures r.value.code == MockStarter && r.value.language == JavaScript && r.value.task == MockTask
  {
    Some(Room(roomId, MockStarter, JavaScript, MockTask, now))
  }

  /** The language name shown in mock results. */
  function Label(language: string): (l: string)
    ensures l == "Python" <==> language == Python
    ensures l != "Python" ==> l == "JavaScript"
  {
    if language == Python then "Python" else "JavaScript"
  }

  /** `executeCode`: an error result exactly when the code mentions "error"
      or "throw", a fixed success text otherwise; both name the language. */
  function ExecuteCode(code: string, language: string): (r: ExecResult)
    ensures r.error.Some? <==> Contains(code, "error") || Contains(code, "throw")
    ensures r.error.Some? ==> r.output == "" && r.executionTime == 23 && r.error.value == Label(language) + MockErrorSuffix
    ensures r.error.None? ==> r.output == MockOutputHead + Label(language) + MockOutputTail && r.executionTime == 42
  {
    if Contains(code, "error") || Contains(code, "throw") then
      ExecResult("", Some(Label(language) + MockErrorSuffix), 23)
    else
      ExecResult(MockOutputHead + Label(language) + MockOutputTail, None, 42)
  }

  /** `getRoomParticipants`: one online participant with id "1", named by the
      stored user name, or "Гость" when none or an empty one is stored. */
  function GetRoomParticipants(roomId: string, storedName: Option<string>): (ps: seq<Participant>)
    ensures |ps| == 1 && ps[0].id == "1" && ps[0].isOnline
    ensures storedName.Some? && storedName.value != "" ==> ps[0].name == storedName.value
    ensures storedName.None? || storedName.value == "" ==> ps[0].name == Guest
  {
    var name := if storedName.Some? && storedName.value != "" then storedName.value else Guest;
    [Participant("1", name, true)]
  }

  /** `updateRoomCode`, `updateRoomLanguage` and `updateRoomTask` share this
      behaviour: they only log and wait, change no state, and succeed. */
  method UpdateRoomField(roomId: string, value: string) returns (ok: bool)
    ensures ok
  {
    ok := true;
  }
}
