/** Vocabulary shared by the chat-room engine: optional values (what the
    C# source expresses with a null reference), results that may carry one
    of the engine's two exceptions, and the request types by which the
    mediator's registry is keyed. */
module Base {

  /** A reference that may be null. */
  datatype Option<+T> = None | Some(value: T)

  /** The outcome of an operation that may throw. */
  datatype Result<+T> = Ok(value: T) | Err(error: Error)

  /** The two exceptions of the engine. */
  datatype Error =
    | ArgumentNull(parameter: string)          // ArgumentNullException(nameof(parameter))
    | QueryHandlerNotFound(queryType: RequestType)

  /** The concrete request classes. The source keys its handler registry by
      the runtime type of a request; each type becomes a tag here. */
  datatype RequestType =
    | JoinChatRoomType
    | LeaveChatRoomType
    | SendChatMessageType
    | ListParticipantsType
    | ListMessagesType
}
