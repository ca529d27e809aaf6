/** The two queries of Patterns/CQRS/Queries.cs (ListParticipants,
    ListMessages): request objects built by null-checking constructors, and
    handlers that read the room and change nothing. */
module Queries {
  import opened Base
  import opened ChatRooms

  /** A query and the context it carries. */
  datatype Query =
    | ListParticipants(room: ChatRoom, requester: ParticipantId)
    | ListMessages(room: ChatRoom, requester: ParticipantId)
  {
    /** The query's concrete type, by which the mediator finds its handler. */
    function Type(): RequestType
    {
      match this
      case ListParticipants(_, _) => ListParticipantsType
      case ListMessages(_, _) => ListMessagesType
    }
  }

  /** ListParticipants.Query's constructor: unlike the commands, it checks
      the requester before the room. */
  function NewListParticipants(room: ChatRoom?, requester: Option<ParticipantId>): (r: Result<Query>)
    ensures r.Ok? <==> room != null && requester.Some?
    ensures requester.None? ==> r == Err(ArgumentNull("requester"))
    ensures requester.Some? && room == null ==> r == Err(ArgumentNull("chatRoom"))
    ensures r.Ok? ==> r.value.ListParticipants? && r.value.room == room && r.value.requester == requester.value
  {
    if requester.None? then Err(ArgumentNull("requester"))
    else if room == null then Err(ArgumentNull("chatRoom"))
    else Ok(ListParticipants(room, requester.value))
  }

  /** ListMessages.Query's constructor, with the same checks in the same
      order. */
  function NewListMessages(room: ChatRoom?, requester: Option<ParticipantId>): (r: Result<Query>)
    ensures r.Ok? <==> room != null && requester.Some?
    ensures requester.None? ==> r == Err(ArgumentNull("requester"))
    ensures requester.Some? && room == null ==> r == Err(ArgumentNull("chatRoom"))
    ensures r.Ok? ==> r.value.ListMessages? && r.value.room == room && r.value.requester == requester.value
  {
    if requester.None? then Err(ArgumentNull("requester"))
    else if room == null then Err(ArgumentNull("chatRoom"))
    else Ok(ListMessages(room, requester.value))
  }

  /** The query handlers. */
  datatype QueryHandler = ListParticipantsHandler | ListMessagesHandler
  {
    /** The query type the handler is declared for (its TQuery). */
    function Handles(): RequestType
    {
      match this
      case ListParticipantsHandler => ListParticipantsType
      case ListMessagesHandler => ListMessagesType
    }
  }

  /** What a query returns: one of the room's two lists. */
  datatype QueryResult =
    | ParticipantList(participants: seq<ParticipantId>)
    | MessageList(messages: seq<ChatMessage>)

  /** Handler.Handle, given `st`, the state of the query's room when the
      handler runs: the participant list in join order, or the message log
      in insertion order. The requester is not consulted. */
  function Answer(h: QueryHandler, q: Query, st: RoomState): (r: QueryResult)
    requires h.Handles() == q.Type()
    ensures q.ListParticipants? ==> r.ParticipantList? && r.participants == st.participants
    ensures q.ListMessages? ==> r.MessageList? && r.messages == st.messages
  {
    match h
    case ListParticipantsHandler => ParticipantList(st.participants)
    case ListMessagesHandler => MessageList(st.messages)
  }

  /** Two queries that differ only in their requester get the same answer. */
  lemma AnswerIgnoresRequester(h: QueryHandler, q: Query, other: ParticipantId, st: RoomState)
    requires h.Handles() == q.Type()
    ensures Answer(h, q.(requester := other), st) == Answer(h, q, st)
  {
  }
}
