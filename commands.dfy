/** The three commands of CQRS/Commands.cs (JoinChatRoom, LeaveChatRoom,
    SendChatMessage): each a request object built by a null-checking
    constructor, and a handler that changes the room in place. */
module Commands {
  import opened Base
  import opened ChatRooms
  import opened Writers

  /** A command and the context it carries. */
  datatype Command =
    | JoinChatRoom(room: ChatRoom, requester: ParticipantId)
    | LeaveChatRoom(room: ChatRoom, requester: ParticipantId)
    | SendChatMessage(room: ChatRoom, message: ChatMessage)
  {
    /** The command's concrete type, by which the mediator finds handlers. */
    function Type(): RequestType
    {
      match this
      case JoinChatRoom(_, _) => JoinChatRoomType
      case LeaveChatRoom(_, _) => LeaveChatRoomType
      case SendChatMessage(_, _) => SendChatMessageType
    }
  }

  /** JoinChatRoom.Command's constructor: a null room is rejected first, then
      a null requester. */
  function NewJoinChatRoom(room: ChatRoom?, requester: Option<ParticipantId>): (r: Result<Command>)
    ensures r.Ok? <==> room != null && requester.Some?
    ensures room == null ==> r == Err(ArgumentNull("chatRoom"))
    ensures room != null && requester.None? ==> r == Err(ArgumentNull("requester"))
    ensures r.Ok? ==> r.value.JoinChatRoom? && r.value.room == room && r.value.requester == requester.value
  {
    if room == null then Err(ArgumentNull("chatRoom"))
    else if requester.None? then Err(ArgumentNull("requester"))
    else Ok(JoinChatRoom(room, requester.value))
  }

  /** LeaveChatRoom.Command's constructor, with the same checks in the same
      order. */
  function NewLeaveChatRoom(room: ChatRoom?, requester: Option<ParticipantId>): (r: Result<Command>)
    ensures r.Ok? <==> room != null && requester.Some?
    ensures room == null ==> r == Err(ArgumentNull("chatRoom"))
    ensures room != null && requester.None? ==> r == Err(ArgumentNull("requester"))
    ensures r.Ok? ==> r.value.LeaveChatRoom? && r.value.room == room && r.value.requester == requester.value
  {
    if room == null then Err(ArgumentNull("chatRoom"))
    else if requester.None? then Err(ArgumentNull("requester"))
    else Ok(LeaveChatRoom(room, requester.value))
  }

  /** SendChatMessage.Command's constructor: a null room is rejected first,
      then a null message. */
  function NewSendChatMessage(room: ChatRoom?, message: Option<ChatMessage>): (r: Result<Command>)
    ensures r.Ok? <==> room != null && message.Some?
    ensures room == null ==> r == Err(ArgumentNull("chatRoom"))
    ensures room != null && message.None? ==> r == Err(ArgumentNull("message"))
    ensures r.Ok? ==> r.value.SendChatMessage? && r.value.room == room && r.value.message == message.value
  {
    if room == null then Err(ArgumentNull("chatRoom"))
    else if message.None? then Err(ArgumentNull("message"))
    else Ok(SendChatMessage(room, message.value))
  }

  /** JoinChatRoom.Handler.Handle: the requester is appended to the room's
      participants; the log is untouched. */
  method HandleJoin(cmd: Command)
    requires cmd.JoinChatRoom?
    modifies cmd.room
    ensures cmd.room.participants == old(cmd.room.participants) + [cmd.requester]
    ensures cmd.room.messages == old(cmd.room.messages)
  {
    cmd.room.AddParticipant(cmd.requester);
  }

  /** LeaveChatRoom.Handler.Handle: the requester's first occurrence is
      removed, nothing happens for a non-member; the log is untouched. */
  method HandleLeave(cmd: Command)
    requires cmd.LeaveChatRoom?
    modifies cmd.room
    ensures cmd.room.participants == RemoveFirst(old(cmd.room.participants), cmd.requester)
    ensures cmd.room.messages == old(cmd.room.messages)
  {
    cmd.room.Remove(cmd.requester);
  }

  /** SendChatMessage.Handler.Handle: the message is recorded as the last
      log entry, then every entry of the participant list, read after the
      recording, is notified of (room, message) in list order. */
  method HandleSend(cmd: Command, writers: MessageWriters)
    requires cmd.SendChatMessage?
    modifies cmd.room, writers
    ensures cmd.room.messages == old(cmd.room.messages) + [cmd.message]
    ensures cmd.room.participants == old(cmd.room.participants)
    ensures writers.outputs == Broadcast(old(writers.outputs), cmd.room, cmd.room.participants, cmd.message)
  {
    cmd.room.AddMessage(cmd.message);
    var ps := cmd.room.ListParticipants();
    var i := 0;
    while i < |ps|
      invariant 0 <= i <= |ps|
      invariant cmd.room.messages == old(cmd.room.messages) + [cmd.message]
      invariant cmd.room.participants == ps == old(cmd.room.participants)
      invariant writers.outputs == Broadcast(old(writers.outputs), cmd.room, ps[..i], cmd.message)
    {
      writers.Write(ps[i], cmd.room, cmd.message);
      assert ps[..i + 1][..i] == ps[..i];
      i := i + 1;
    }
    assert ps[..|ps|] == ps;
  }
}
