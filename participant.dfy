/** Participant (CQRS/Implementations.cs): a named member that never touches
    a room directly; every join, leave, message and listing goes through the
    mediator as a command or a query. */
module Participants {
  import opened Base
  import opened ChatRooms
  import opened Writers
  import opened Commands
  import opened Queries
  import opened Mediation

  class Participant {
    /** The participant's identity: its writer key and its Name. */
    const id: ParticipantId
    const mediator: Mediator

    constructor (mediator: Mediator, id: ParticipantId)
      ensures this.mediator == mediator && this.id == id
    {
      this.mediator := mediator;
      this.id := id;
    }

    /** Join: builds JoinChatRoom(room, this), which rejects a null room,
        and sends it. */
    method Join(room: ChatRoom?, writers: MessageWriters, now: nat, ghost rooms: set<ChatRoom>) returns (r: Result<()>)
      requires ModeratorsShareRoom(mediator.registry.handlers)
      requires room != null ==> room in rooms
      requires ModeratorRooms(mediator.registry.handlers) <= rooms
      modifies mediator.registry, rooms, writers
      ensures r.Err? <==> room == null
      ensures r.Err? ==> r.error == ArgumentNull("chatRoom") && unchanged(mediator.registry, writers) && unchanged(rooms)
      ensures room != null ==>
                && mediator.registry.handlers == WithEntry(old(mediator.registry.handlers), JoinChatRoomType)
                && Observe(rooms, writers) ==
                   Dispatch(mediator.registry.handlers, JoinChatRoom(room, id), now, old(Observe(rooms, writers)))
      ensures ModeratorRooms(mediator.registry.handlers) == old(ModeratorRooms(mediator.registry.handlers))
    {
      var cmd := NewJoinChatRoom(room, Some(id));
      if cmd.Err? {
        return Err(cmd.error);
      }
      mediator.SendCommand(cmd.value, writers, now, rooms);
      r := Ok(());
    }

    /** Leave: builds LeaveChatRoom(room, this), which rejects a null room,
        and sends it. */
    method Leave(room: ChatRoom?, writers: MessageWriters, now: nat, ghost rooms: set<ChatRoom>) returns (r: Result<()>)
      requires ModeratorsShareRoom(mediator.registry.handlers)
      requires room != null ==> room in rooms
      requires ModeratorRooms(mediator.registry.handlers) <= rooms
      modifies mediator.registry, rooms, writers
      ensures r.Err? <==> room == null
      ensures r.Err? ==> r.error == ArgumentNull("chatRoom") && unchanged(mediator.registry, writers) && unchanged(rooms)
      ensures room != null ==>
                && mediator.registry.handlers == WithEntry(old(mediator.registry.handlers), LeaveChatRoomType)
                && Observe(rooms, writers) ==
                   Dispatch(mediator.registry.handlers, LeaveChatRoom(room, id), now, old(Observe(rooms, writers)))
      ensures ModeratorRooms(mediator.registry.handlers) == old(ModeratorRooms(mediator.registry.handlers))
    {
      var cmd := NewLeaveChatRoom(room, Some(id));
      if cmd.Err? {
        return Err(cmd.error);
      }
      mediator.SendCommand(cmd.value, writers, now, rooms);
      r := Ok(());
    }

    /** SendMessageTo: wraps the text in a ChatMessage from this participant,
        stamped with the clock reading `now`, then wraps that in
        SendChatMessage and sends it. The message is built first, so a null
        text is reported before a null room. */
    method SendMessageTo(room: ChatRoom?, text: Option<string>, writers: MessageWriters, now: nat,
                         ghost rooms: set<ChatRoom>) returns (r: Result<()>)
      requires ModeratorsShareRoom(mediator.registry.handlers)
      requires room != null ==> room in rooms
      requires ModeratorRooms(mediator.registry.handlers) <= rooms
      modifies mediator.registry, rooms, writers
      ensures r.Err? <==> room == null || text.None?
      ensures text.None? ==> r == Err(ArgumentNull("message"))
      ensures text.Some? && room == null ==> r == Err(ArgumentNull("chatRoom"))
      ensures r.Err? ==> unchanged(mediator.registry, writers) && unchanged(rooms)
      ensures room != null && text.Some? ==>
                && mediator.registry.handlers == WithEntry(old(mediator.registry.handlers), SendChatMessageType)
                && Observe(rooms, writers) ==
                   Dispatch(mediator.registry.handlers, SendChatMessage(room, ChatMessage(id, text.value, now)), now,
                            old(Observe(rooms, writers)))
      ensures ModeratorRooms(mediator.registry.handlers) == old(ModeratorRooms(mediator.registry.handlers))
    {
      var m := NewChatMessage(Some(id), text, now);
      if m.Err? {
        return Err(m.error);
      }
      var cmd := NewSendChatMessage(room, Some(m.value));
      if cmd.Err? {
        return Err(cmd.error);
      }
      mediator.SendCommand(cmd.value, writers, now, rooms);
      r := Ok(());
    }

    /** ListMessagesOf: builds ListMessages(room, this), which rejects a null
        room, and sends it; the room's log in insertion order, or
        QueryHandlerNotFound when no handler is registered. */
    method ListMessagesOf(room: ChatRoom?) returns (r: Result<seq<ChatMessage>>)
      requires mediator.Valid()
      modifies mediator.registry
      ensures room == null ==> r == Err(ArgumentNull("chatRoom")) && unchanged(mediator.registry)
      ensures room != null ==>
                && mediator.registry.handlers == WithEntry(old(mediator.registry.handlers), ListMessagesType)
                && (r.Err? <==> old(Slot(mediator.registry.handlers, ListMessagesType).queryHandlers) == [])
                && (r.Err? ==> r.error == QueryHandlerNotFound(ListMessagesType))
                && (r.Ok? ==> r.value == room.messages)
    {
      var q := NewListMessages(room, Some(id));
      if q.Err? {
        return Err(q.error);
      }
      ghost var reg := mediator.registry.handlers;
      var answer := mediator.SendQuery(q.value);
      ListAnswerShape(reg, q.value, room.State());
      match answer
      case Err(e) => r := Err(e);
      case Ok(a) => r := Ok(a.messages);
    }

    /** ListParticipantsOf: builds ListParticipants(room, this), which
        rejects a null room, and sends it; the room's participants in join
        order, or QueryHandlerNotFound when no handler is registered. */
    method ListParticipantsOf(room: ChatRoom?) returns (r: Result<seq<ParticipantId>>)
      requires mediator.Valid()
      modifies mediator.registry
      ensures room == null ==> r == Err(ArgumentNull("chatRoom")) && unchanged(mediator.registry)
      ensures room != null ==>
                && mediator.registry.handlers == WithEntry(old(mediator.registry.handlers), ListParticipantsType)
                && (r.Err? <==> old(Slot(mediator.registry.handlers, ListParticipantsType).queryHandlers) == [])
                && (r.Err? ==> r.error == QueryHandlerNotFound(ListParticipantsType))
                && (r.Ok? ==> r.value == room.participants)
    {
      var q := NewListParticipants(room, Some(id));
      if q.Err? {
        return Err(q.error);
      }
      ghost var reg := mediator.registry.handlers;
      var answer := mediator.SendQuery(q.value);
      ListAnswerShape(reg, q.value, room.State());
      match answer
      case Err(e) => r := Err(e);
      case Ok(a) => r := Ok(a.participants);
    }
  }

  /** In a well-typed registry, a query fails exactly when its slot holds no
      handler. */
  lemma ListAnswerShape(reg: Registry, q: Query, st: RoomState)
    requires WellTyped(reg)
    ensures AnswerQuery(reg, q, st).Err? <==> Slot(reg, q.Type()).queryHandlers == []
  {
    var qs := Slot(reg, q.Type()).queryHandlers;
    if qs != [] {
      assert q.Type() in reg;
      assert qs[0] in qs;
    }
  }
}
