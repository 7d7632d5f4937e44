/** The backend's in-memory room table (backend/app/services/room_service.py):
    a map from room id to room record and a map from room id to its
    participant list. Ids and creation times come from a random generator
    and a clock; here they are parameters. */
module RoomService {
  import opened Common

  const PythonStarter: string := "# Напишите код здесь\ndef solution():\n    pass\n"
  const JavaScriptStarter: string := "// Напишите код здесь\nfunction solution() {\n  // ваше решение\n}\n"

  /** Starter code of a new room: the Python starter for "python", the
      JavaScript starter for every other value. */
  function Template(language: string): (r: string)
    ensures language == Python ==> r == PythonStarter
    ensures language != Python ==> r == JavaScriptStarter
  {
    if language == Python then PythonStarter else JavaScriptStarter
  }

  /** The fields a single-field update may target. */
  datatype Field = CodeField | TaskField | LanguageField

  /** `r` with one field set to `v`, every other field kept. */
  function WithField(r: Room, f: Field, v: string): Room {
    match f
    case CodeField => r.(code := v)
    case TaskField => r.(task := v)
    case LanguageField => r.(language := v)
  }

  /** The value a room holds in field `f`. */
  function FieldOf(r: Room, f: Field): string {
    match f
    case CodeField => r.code
    case TaskField => r.task
    case LanguageField => r.language
  }

  /** Setting a field and reading it back gives the value set; the other
      fields and the id keep their values. */
  lemma WithFieldReadBack(r: Room, f: Field, v: string)
    ensures FieldOf(WithField(r, f, v), f) == v
    ensures WithField(r, f, v).id == r.id && WithField(r, f, v).createdAt == r.createdAt
    ensures forall g :: g != f ==> FieldOf(WithField(r, f, v), g) == FieldOf(r, g)
  {
  }

  /** The table after `update_<f>(roomId, v)`: unchanged for an unknown id,
      otherwise that one record with that one field replaced. */
  function UpdatedTable(rooms: map<string, Room>, roomId: string, f: Field, v: string): (t: map<string, Room>)
    ensures t.Keys == rooms.Keys
    ensures roomId !in rooms ==> t == rooms
    ensures roomId in rooms ==> t[roomId] == WithField(rooms[roomId], f, v)
    ensures forall k :: k in rooms && k != roomId ==> t[k] == rooms[k]
  {
    if roomId in rooms then rooms[roomId := WithField(rooms[roomId], f, v)] else rooms
  }

  class RoomStore {
    var rooms: map<string, Room>
    var participants: map<string, seq<Participant>>

    /** The module's two dictionaries start empty. */
    constructor ()
      ensures rooms == map[] && participants == map[]
    {
      rooms := map[];
      participants := map[];
    }

    /** `create_room`: stores a fresh record under `rid` (overwriting any room
        already there, since the id is not checked) and makes sure a
        participant list exists, keeping an existing one. */
    method CreateRoom(rid: string, now: string, language: string) returns (r: Room)
      modifies this
      ensures r == Room(rid, Template(language), language, "", now)
      ensures rooms == old(rooms)[rid := r]
      ensures rid in old(participants) ==> participants == old(participants)
      ensures rid !in old(participants) ==> participants == old(participants)[rid := []]
    {
      r := Room(rid, Template(language), language, "", now);
      rooms := rooms[rid := r];
      if rid !in participants {
        participants := participants[rid := []];
      }
    }

    /** `get_room`: the stored record, or None exactly when the id is absent. */
    function GetRoom(roomId: string): (r: Option<Room>)
      reads this
      ensures r.None? <==> roomId !in rooms
      ensures r.Some? ==> roomId in rooms && r.value == rooms[roomId]
    {
      if roomId in rooms then Some(rooms[roomId]) else None
    }

    /** The shared body of `update_code`, `update_task` and `update_language`. */
    method Update(roomId: string, f: Field, v: string) returns (r: Option<Room>)
      modifies this
      ensures rooms == UpdatedTable(old(rooms), roomId, f, v)
      ensures participants == old(participants)
      ensures r.None? <==> roomId !in old(rooms)
      ensures r.Some? ==> r.value == WithField(old(rooms)[roomId], f, v) && r == GetRoom(roomId)
    {
      if roomId !in rooms {
        return None;
      }
      var updated := WithField(rooms[roomId], f, v);
      rooms := rooms[roomId := updated];
      r := Some(updated);
    }

    /** `update_code`. */
    method UpdateCode(roomId: string, code: string) returns (r: Option<Room>)
      modifies this
      ensures rooms == UpdatedTable(old(rooms), roomId, CodeField, code)
      ensures participants == old(participants)
      ensures r.None? <==> roomId !in old(rooms)
      ensures r.Some? ==> r.value == old(rooms)[roomId].(code := code) && r == GetRoom(roomId)
    {
      r := Update(roomId, CodeField, code);
    }

    /** `update_task`. */
    method UpdateTask(roomId: string, task: string) returns (r: Option<Room>)
      modifies this
      ensures rooms == UpdatedTable(old(rooms), roomId, TaskField, task)
      ensures participants == old(participants)
      ensures r.None? <==> roomId !in old(rooms)
      ensures r.Some? ==> r.value == old(rooms)[roomId].(task := task) && r == GetRoom(roomId)
    {
      r := Update(roomId, TaskField, task);
    }

    /** `update_language`. */
    method UpdateLanguage(roomId: string, language: string) returns (r: Option<Room>)
      modifies this
      ensures rooms == UpdatedTable(old(rooms), roomId, LanguageField, language)
      ensures participants == old(participants)
      ensures r.None? <==> roomId !in old(rooms)
      ensures r.Some? ==> r.value == old(rooms)[roomId].(language := language) && r == GetRoom(roomId)
    {
      r := Update(roomId, LanguageField, language);
    }

    /** `get_participants`: the stored list, or [] for an unknown room (the
        lookup inserts nothing). */
    function GetParticipants(roomId: string): (ps: seq<Participant>)
      reads this
      ensures roomId in participants ==> ps == participants[roomId]
      ensures roomId !in participants ==> ps == []
    {
      if roomId in participants then participants[roomId] else []
    }
  }

  /** After a successful update the lookup reports the new value, and every
      other room reads as before. */
  lemma UpdateThenGet(rooms: map<string, Room>, roomId: string, f: Field, v: string, other: string)
    requires roomId in rooms
    requires other != roomId
    ensures roomId in UpdatedTable(rooms, roomId, f, v)
    ensures FieldOf(UpdatedTable(rooms, roomId, f, v)[roomId], f) == v
    ensures other in UpdatedTable(rooms, roomId, f, v) <==> other in rooms
    ensures other in rooms ==> UpdatedTable(rooms, roomId, f, v)[other] == rooms[other]
  {
    WithFieldReadBack(rooms[roomId], f, v);
  }

  /** Updating the same field twice keeps only the second value. */
  lemma {:induction false} UpdateTwice(rooms: map<string, Room>, roomId: string, f: Field, v: string, w: string)
    ensures UpdatedTable(UpdatedTable(rooms, roomId, f, v), roomId, f, w) == UpdatedTable(rooms, roomId, f, w)
  {
    if roomId in rooms {
      var r := rooms[roomId];
      assert WithField(WithField(r, f, v), f, w) == WithField(r, f, w) by {
        match f
        case CodeField =>
        case TaskField =>
        case LanguageField =>
      }
    }
  }
}
