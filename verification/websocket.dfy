/** The client's real-time channel (frontend/src/api/websocket.ts), which is
    a stub: it remembers its room id and the three callbacks registered on
    it, and its connect, disconnect and send operations only write to the
    console. A callback is modelled by what it asks the page to do, a value
    of the type parameter `Effect`. No operation ever invokes a callback. */
module ClientSocket {
  import opened Common

  class RoomWebSocket<Effect> {
    const roomId: string
    var onCodeChange: Option<string -> Effect>
    var onParticipantsChange: Option<seq<Participant> -> Effect>
    var onTaskChange: Option<string -> Effect>

    /** Records the room id; no callback is set. */
    constructor (roomId: string)
      ensures this.roomId == roomId
      ensures onCodeChange == None && onParticipantsChange == None && onTaskChange == None
    {
      this.roomId := roomId;
      onCodeChange := None;
      onParticipantsChange := None;
      onTaskChange := None;
    }

    /** `connect`: logs only. */
    method Connect()
      ensures unchanged(this)
    {
    }

    /** `disconnect`: logs only. */
    method Disconnect()
      ensures unchanged(this)
    {
    }

    /** `sendCodeUpdate`: logs only; nothing leaves the client. */
    method SendCodeUpdate(code: string)
      ensures unchanged(this)
    {
    }

    /** `sendTaskUpdate`: logs only. */
    method SendTaskUpdate(task: string)
      ensures unchanged(this)
    {
    }

    /** `onCode`: replaces the code callback and no other. */
    method OnCode(callback: string -> Effect)
      modifies this`onCodeChange
      ensures onCodeChange == Some(callback)
      ensures onParticipantsChange == old(onParticipantsChange) && onTaskChange == old(onTaskChange)
    {
      onCodeChange := Some(callback);
    }

    /** `onParticipants`: replaces the participants callback and no other. */
    method OnParticipants(callback: seq<Participant> -> Effect)
      modifies this`onParticipantsChange
      ensures onParticipantsChange == Some(callback)
      ensures onCodeChange == old(onCodeChange) && onTaskChange == old(onTaskChange)
    {
      onParticipantsChange := Some(callback);
    }

    /** `onTask`: replaces the task callback and no other. */
    method OnTask(callback: string -> Effect)
      modifies this`onTaskChange
      ensures onTaskChange == Some(callback)
      ensures onCodeChange == old(onCodeChange) && onParticipantsChange == old(onParticipantsChange)
    {
      onTaskChange := Some(callback);
    }
  }
}
