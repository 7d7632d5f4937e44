/** The REST layer over the room table (backend/app/api/routes.py). Each
    handler maps a room-table result to an HTTP reply: a missing room becomes
    404, a body that fails request validation becomes 422 before the handler
    runs. */
module Routes {
  import opened Common
  import RoomService

  datatype Reply<T> = Reply(status: nat, body: T) | HttpError(status: nat)

  const Created: nat := 201
  const OkStatus: nat := 200
  const NotFound: nat := 404
  const Unprocessable: nat := 422

  /** The `language` member of a JSON body: missing, null, or a string. */
  datatype LangField = Absent | Null | Given(s: string)

  /** The body of POST /rooms: none at all, or an object with a language member. */
  datatype CreateBody = NoBody | Body(language: LangField)

  /** Request validation of `CreateRoomRequest`: a given language must be one
      of the two literals; otherwise the language that `api_create_room` passes
      on, "javascript" when the body or its language is missing or null. */
  function CreateLanguage(body: CreateBody): (r: Option<string>)
    ensures r.None? <==> body.Body? && body.language.Given? && !IsLanguage(body.language.s)
    ensures r.Some? ==> IsLanguage(r.value)
    ensures r.Some? && body.Body? && body.language.Given? ==> r.value == body.language.s
    ensures r.Some? && !(body.Body? && body.language.Given?) ==> r.value == JavaScript
  {
    match body
    case NoBody => Some(JavaScript)
    case Body(Absent) => Some(JavaScript)
    case Body(Null) => Some(JavaScript)
    case Body(Given(s)) => if IsLanguage(s) then Some(s) else None
  }

  /** A room-table result as a reply: None is 404, a record is 200. */
  function RoomReply(r: Option<Room>): (reply: Reply<Room>)
    ensures reply.HttpError? <==> r.None?
    ensures reply.HttpError? ==> reply.status == NotFound
    ensures reply.Reply? ==> reply.status == OkStatus && reply.body == r.value
  {
    match r
    case None => HttpError(NotFound)
    case Some(room) => Reply(OkStatus, room)
  }

  /** POST /rooms: 422 for an invalid language (nothing stored), otherwise 201
      with the room `create_room` stored. */
  method ApiCreateRoom(store: RoomService.RoomStore, rid: string, now: string, body: CreateBody)
    returns (reply: Reply<Room>)
    modifies store
    ensures CreateLanguage(body).None? ==> reply == HttpError(Unprocessable)
    ensures CreateLanguage(body).None? ==> store.rooms == old(store.rooms) && store.participants == old(store.participants)
    ensures CreateLanguage(body).Some? ==>
      var lang := CreateLanguage(body).value;
      var r := Room(rid, RoomService.Template(lang), lang, "", now);
      reply == Reply(Created, r) && store.rooms == old(store.rooms)[rid := r] &&
      store.participants == (if rid in old(store.participants) then old(store.participants)
                             else old(store.participants)[rid := []])
  {
    var lang := CreateLanguage(body);
    if lang.None? {
      return HttpError(Unprocessable);
    }
    var r := store.CreateRoom(rid, now, lang.value);
    reply := Reply(Created, r);
  }

  /** GET /rooms/{id}: 404 exactly when the room is absent, else the stored room. */
  function ApiGetRoom(store: RoomService.RoomStore, roomId: string): (reply: Reply<Room>)
    reads store
    ensures reply.HttpError? <==> roomId !in store.rooms
    ensures reply.HttpError? ==> reply.status == NotFound
    ensures reply.Reply? ==> reply == Reply(OkStatus, store.rooms[roomId])
  {
    RoomReply(store.GetRoom(roomId))
  }

  /** PUT /rooms/{id}/code. */
  method ApiUpdateCode(store: RoomService.RoomStore, roomId: string, code: string) returns (reply: Reply<Room>)
    modifies store
    ensures reply.HttpError? <==> roomId !in old(store.rooms)
    ensures reply.HttpError? ==> reply.status == NotFound && store.rooms == old(store.rooms)
    ensures reply.Reply? ==> reply == Reply(OkStatus, old(store.rooms)[roomId].(code := code))
    ensures store.rooms == RoomService.UpdatedTable(old(store.rooms), roomId, RoomService.CodeField, code)
    ensures store.participants == old(store.participants)
  {
    var r := store.UpdateCode(roomId, code);
    reply := RoomReply(r);
  }

  /** PUT /rooms/{id}/task. */
  method ApiUpdateTask(store: RoomService.RoomStore, roomId: string, task: string) returns (reply: Reply<Room>)
    modifies store
    ensures reply.HttpError? <==> roomId !in old(store.rooms)
    ensures reply.HttpError? ==> reply.status == NotFound && store.rooms == old(store.rooms)
    ensures reply.Reply? ==> reply == Reply(OkStatus, old(store.rooms)[roomId].(task := task))
    ensures store.rooms == RoomService.UpdatedTable(old(store.rooms), roomId, RoomService.TaskField, task)
    ensures store.participants == old(store.participants)
  {
    var r := store.UpdateTask(roomId, task);
    reply := RoomReply(r);
  }

  /** PUT /rooms/{id}/language: 422 for a language outside the two literals
      (the table is untouched), otherwise 404 exactly when the room is absent. */
  method ApiUpdateLanguage(store: RoomService.RoomStore, roomId: string, language: string) returns (reply: Reply<Room>)
    modifies store
    ensures !IsLanguage(language) ==> reply == HttpError(Unprocessable) && store.rooms == old(store.rooms)
    ensures IsLanguage(language) ==>
      (reply.HttpError? <==> roomId !in old(store.rooms)) &&
      (reply.HttpError? ==> reply.status == NotFound) &&
      (reply.Reply? ==> reply == Reply(OkStatus, old(store.rooms)[roomId].(language := language))) &&
      store.rooms == RoomService.UpdatedTable(old(store.rooms), roomId, RoomService.LanguageField, language)
    ensures store.participants == old(store.participants)
  {
    if !IsLanguage(language) {
      return HttpError(Unprocessable);
    }
    var r := store.UpdateLanguage(roomId, language);
    reply := RoomReply(r);
  }

  /** GET /rooms/{id}/participants: never 404; an unknown room lists nobody. */
  function ApiGetParticipants(store: RoomService.RoomStore, roomId: string): (reply: Reply<seq<Participant>>)
    reads store
    ensures reply.Reply? && reply.status == OkStatus
    ensures roomId !in store.participants ==> reply.body == []
    ensures roomId in store.participants ==> reply.body == store.participants[roomId]
  {
    Reply(OkStatus, store.GetParticipants(roomId))
  }

  /** POST /rooms/{id}/execute: a fixed mock result naming the language, with
      no error and 42 ms, whatever the code and whether or not the room exists;
      422 for a language outside the two literals. */
  function ApiExecute(roomId: string, code: string, language: string): (reply: Reply<ExecResult>)
    ensures !IsLanguage(language) <==> reply.HttpError?
    ensures reply.HttpError? ==> reply.status == Unprocessable
    ensures reply.Reply? ==>
      reply.status == OkStatus &&
      reply.body == ExecResult("[Mock Output] Код на " + language + " выполнен", None, 42)
  {
    if IsLanguage(language) then
      Reply(OkStatus, ExecResult("[Mock Output] Код на " + language + " выполнен", None, 42))
    else
      HttpError(Unprocessable)
  }

  /** The execute reply depends on the language alone. */
  lemma ExecuteIgnoresRoomAndCode(r1: string, c1: string, r2: string, c2: string, language: string)
    ensures ApiExecute(r1, c1, language) == ApiExecute(r2, c2, language)
  {
  }
}
