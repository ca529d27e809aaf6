# CQRS chat room, modelled in Dafny

This project models the CQRS example of the Design_Patterns repository: a
chat room where every change of state is a *command* and every read is a
*query*, both sent through a `Mediator`.

- **Mediator.** The mediator keeps a `HandlerDictionary` from request type
  to a `HandlerList`.
  - Sending a command runs every command handler registered for that type,
    in registration order.
  - Sending a query returns the answer of the first query handler
    registered for that type. If there is none, it raises
    `QueryHandlerNotFoundException`.
  - Looking a type up creates an empty entry for it (`EnforceTypeEntry`).
- **Commands and queries.** The three commands are JoinChatRoom,
  LeaveChatRoom and SendChatMessage. The two queries are ListParticipants
  and ListMessages. Their constructors reject null arguments, each in its
  own order.
- **Handlers.** The command handlers change a `ChatRoom` in place. Sending
  a message records it and then notifies every listed participant through
  that participant's message writer.
- **Moderator.** The test project adds a `ChatModerator`, a second handler
  for SendChatMessage. When a message holds a banned word, the moderator
  sends a report into its own moderator room through the same mediator.
  That report is a dispatch nested inside the first one.

The model follows the source's own form:

- **Classes.** `ChatRoom`, `MessageWriters`, `HandlerDictionary`,
  `Mediator` and `Participant` are classes whose methods update fields in
  place.
- **Pure logic.** Handler selection, the null-checking constructors and the
  moderator's decision are functions.
- **Loops.** The handler loop of `Send`, the walks of
  `HandlerList.FindAll`/`Find`, `ChatRoom.Remove` and the notification loop
  of the send handler are methods with loop invariants. Each is proved
  against a specification function.
- **Dispatch.** What a command dispatch does is specified by the ghost
  function `Mediation.Dispatch`. It works over a `World`: the state of a set
  of rooms plus every participant's writer output.
  - `Mediator.SendCommand`, `HandleCommand` and `Moderate` are mutually
    recursive, as in the source. Each is proved to produce exactly
    `Dispatch`, `Handle` or the nested dispatch.
  - The lemmas in `DispatchProperties` then state what `Dispatch` means for
    each handler.
  - The methods in `Scenarios` replay the repository's xUnit tests
    (`ChatRoomTest`) on freshly allocated objects. Each test's assertions
    are that method's postcondition.

Modelling choices:

- **Participant identity.** Participants are compared by reference in the
  source. Here a participant is a `ParticipantId(key, name)` value, and two
  ids denote the same participant exactly when they are equal.
- **Writers.** All message writers are held by one `MessageWriters`
  object, with one output list per participant that has a recording writer
  (`TestMessageWriter`). A participant without an entry has a writer that
  discards what it receives (`EmptyMessageWriter`). `NewMessageReceivedFrom`
  followed by `IMessageWriter.Write` is the single method
  `MessageWriters.Write`.
- **Clock.** `DateTime.UtcNow` is a parameter `now` of every operation that
  creates a message.
- **Handler types.** The handler's runtime type test (`handler is
  ICommandHandler<TCommand>`) becomes `Handles() == t`. Here `Handles()` is
  the request type a handler is declared for.
- **Null.** Null arguments are modelled where the source checks them: a
  `ChatRoom?` reference, or an `Option` for a participant or text. Errors
  are `Result` values carrying the exception's parameter name. The
  `Participant` methods build their requests through the same
  null-checking constructors, so a null room or text fails there, before
  anything is sent.

## Model

| member | source | states |
|---|---|---|
| ChatRooms.NewChatMessage | CQRS/Implementations.cs:145-150 | a message is built iff sender and text are present; a missing sender is reported first ("sender"), then a missing text ("message"); the message carries the sender, the text and the clock reading |
| ChatRooms.RemoveFirst | CQRS/Implementations.cs:187-190 | `List.Remove`: the list is unchanged when the participant is absent, and one shorter when present |
| ChatRooms.RemoveFirstMultiset | CQRS/Implementations.cs:187-190 | removal takes away exactly one copy of the participant (multiset difference) and nothing else |
| ChatRooms.RemoveFirstAt | CQRS/Implementations.cs:187-190 | removal cuts out exactly the first occurrence and keeps everything before and after it in order |
| ChatRooms.RemoveFirstAfterAppend | CQRS/Implementations.cs:167-170 | appending a non-member and removing it gives back the original list |
| ChatRooms.ChatRoom.constructor | CQRS/Implementations.cs:162-165 | a room starts with its name and empty participant and message lists |
| ChatRooms.ChatRoom.AddParticipant | CQRS/Implementations.cs:167-170 | the participant is appended (duplicates kept) and the log is unchanged |
| ChatRooms.ChatRoom.AddMessage | CQRS/Implementations.cs:172-175 | the message is appended to the log and the participants are unchanged |
| ChatRooms.ChatRoom.Remove | CQRS/Implementations.cs:187-190 | the loop finds the first occurrence; participants become `RemoveFirst` of the old list, and the log is unchanged |
| ChatRooms.ChatRoom.ListMessages | CQRS/Implementations.cs:177-180 | returns the log in insertion order |
| ChatRooms.ChatRoom.ListParticipants | CQRS/Implementations.cs:182-185 | returns the participants in join order |
| Writers.Notify | Patterns/CQRS/Program.cs:221-231 | a recording writer gains the (room, message) line at the end of its output; every other output is unchanged |
| Writers.BroadcastDelivers | CQRS/Commands.cs:92-99 | notifying a participant list gives each recording participant one line per occurrence in the list, appended to its output |
| Writers.CountMembership | CQRS/Commands.cs:95-98 | a participant is notified at least once iff it is in the list |
| Writers.CountDistinct | CQRS/Commands.cs:95-98 | with no duplicates in the list, each member is notified exactly once and a non-member never |
| Writers.MessageWriters.constructor | Patterns/CQRS/Program.cs:19-21 | each recording participant starts with an empty output |
| Writers.MessageWriters.Write | Patterns/CQRS/Program.cs:225-230 | a recording writer appends the pair (room, message) to its Output; a discarding writer changes nothing |
| Commands.NewJoinChatRoom | CQRS/Commands.cs:16-20 | built iff room and requester are present; a null room is reported before a null requester |
| Commands.NewLeaveChatRoom | CQRS/Commands.cs:48-52 | built iff room and requester are present; a null room is reported before a null requester |
| Commands.NewSendChatMessage | CQRS/Commands.cs:79-83 | built iff room and message are present; a null room is reported before a null message |
| Commands.HandleJoin | CQRS/Commands.cs:29-32 | the requester is appended to the room's participants; the log is unchanged |
| Commands.HandleLeave | CQRS/Commands.cs:60-63 | the requester's first occurrence is removed; the log is unchanged |
| Commands.HandleSend | CQRS/Commands.cs:92-99 | the message becomes the last log entry, the participants are unchanged, and the writers' outputs become the broadcast to the list read after recording |
| Queries.NewListParticipants | Patterns/CQRS/Queries.cs:15-19 | built iff requester and room are present; a null requester is reported before a null room |
| Queries.NewListMessages | Patterns/CQRS/Queries.cs:46-50 | built iff requester and room are present; a null requester is reported before a null room |
| Queries.Answer | Patterns/CQRS/Queries.cs:27-30 | the participants handler answers the room's participant list, and the messages handler answers its log |
| Queries.AnswerIgnoresRequester | Patterns/CQRS/Queries.cs:58-61 | the answer does not depend on the requester |
| Moderation.ContainsInfix | Patterns/CQRS/Program.cs:201 | `String.Contains` finds a word placed anywhere in a text |
| Moderation.DateText | Patterns/CQRS/Program.cs:204 | the date renders as a non-empty string |
| Moderation.ReportText | Patterns/CQRS/Program.cs:204 | the report text starts with "Bad word found" |
| Moderation.Report | Patterns/CQRS/Program.cs:205-208 | the report is sent by the moderator itself, stamped with the clock reading, and starts with "Bad word found" |
| Moderation.ReportIsIgnored | Patterns/CQRS/Program.cs:196-199 | the moderator never intervenes on its own report sent to its own room |
| Mediation.Handling | CQRS/Implementations.cs:62-72 | the filtered list holds exactly the registered handlers declared for the type, and no more than were registered |
| Mediation.HandlingKeepsAll | CQRS/Implementations.cs:62-72 | when every handler is declared for the type, the filter returns the whole list, in order |
| Mediation.FirstHandling | CQRS/Implementations.cs:73-84 | fails, with QueryHandlerNotFound for the type, iff no registered handler is declared for it; otherwise returns a registered handler declared for it |
| Mediation.FirstRegisteredWins | CQRS/Implementations.cs:76-82 | the handler returned is the first one declared for the type: none before it matches |
| Mediation.HandlerList.FindAll | CQRS/Implementations.cs:62-72 | the loop returns exactly `Handling` of the command list |
| Mediation.HandlerList.Find | CQRS/Implementations.cs:73-84 | the loop returns exactly `FirstHandling` of the query list |
| Mediation.WithEntry | CQRS/Implementations.cs:125-131 | the type gets an entry, the handlers under every type are unchanged, and a registry that already has the entry stays as it is |
| Mediation.WithCommandHandler | CQRS/Implementations.cs:91-97 | the handler is appended to its own type's command list; that type's query list and every other entry are unchanged |
| Mediation.WithQueryHandler | CQRS/Implementations.cs:99-106 | the handler is appended to its own type's query list; that type's command list and every other entry are unchanged |
| Mediation.CommandRegistrationKeepsWellTyped | CQRS/Implementations.cs:91-98 | registering a command handler files it under its own type, so every handler stays under the type it is declared for |
| Mediation.QueryRegistrationKeepsWellTyped | CQRS/Implementations.cs:100-106 | registering a query handler files it under its own type, so every handler stays under the type it is declared for |
| Mediation.HandlerDictionary.constructor | CQRS/Implementations.cs:89 | the dictionary starts empty |
| Mediation.HandlerDictionary.EnforceTypeEntry | CQRS/Implementations.cs:125-131 | an empty entry is added only when the type has none |
| Mediation.HandlerDictionary.AddCommandHandler | CQRS/Implementations.cs:91-97 | the dictionary becomes `WithCommandHandler` of the old one |
| Mediation.HandlerDictionary.AddQueryHandler | CQRS/Implementations.cs:99-106 | the dictionary becomes `WithQueryHandler` of the old one |
| Mediation.HandlerDictionary.FindAll | CQRS/Implementations.cs:108-115 | creates the type's entry and returns the handlers of that type, in registration order |
| Mediation.HandlerDictionary.Find | CQRS/Implementations.cs:117-123 | creates the type's entry and returns the first matching query handler, or QueryHandlerNotFound |
| Mediation.Dispatch | CQRS/Implementations.cs:35-43 | a dispatch, however deeply nested, neither adds nor drops a room of the World or the owner of an output |
| Mediation.AnswerQuery | CQRS/Implementations.cs:28-33 | fails with QueryHandlerNotFound for the query's type iff none of its registered handlers is declared for it; otherwise answers the room's participants or messages |
| Mediation.Mediator.constructor | CQRS/Implementations.cs:16 | a new mediator owns a fresh, empty handler dictionary, in which every handler trivially sits under its own type (`Valid`) |
| Mediation.Mediator.RegisterCommandHandler | CQRS/Implementations.cs:18-21 | the registry becomes `WithCommandHandler` of the old one, and every handler still sits under its own type (`Valid`) |
| Mediation.Mediator.RegisterQueryHandler | CQRS/Implementations.cs:23-26 | the registry becomes `WithQueryHandler` of the old one, and every handler still sits under its own type (`Valid`) |
| Mediation.Mediator.SendQuery | CQRS/Implementations.cs:28-33 | the result is `AnswerQuery` on the registry and the room's current state; the only change is the type's entry |
| Mediation.Mediator.SendCommand | CQRS/Implementations.cs:35-43 | the rooms and outputs after the loop are exactly `Dispatch` of the command on the state before; the registry gains at most the type's empty entry, and the moderator rooms are unchanged |
| Mediation.Mediator.HandleCommand | CQRS/Implementations.cs:39-42 | one handler's call produces exactly `Handle` of that handler |
| Mediation.Mediator.Moderate | Patterns/CQRS/Program.cs:194-210 | a message of its own or one sent to the moderator room changes nothing; otherwise, when a banned word occurs, the state becomes the nested dispatch of the report to the moderator room |
| Participants.Participant.constructor | CQRS/Implementations.cs:202-207 | the participant keeps its mediator and identity |
| Participants.Participant.Join | CQRS/Implementations.cs:212-215 | a null room fails with ArgumentNull("chatRoom") and changes nothing; otherwise the state becomes the dispatch of JoinChatRoom(room, this) |
| Participants.Participant.Leave | CQRS/Implementations.cs:220-223 | a null room fails with ArgumentNull("chatRoom") and changes nothing; otherwise the state becomes the dispatch of LeaveChatRoom(room, this) |
| Participants.Participant.SendMessageTo | CQRS/Implementations.cs:252-255 | a null text fails with ArgumentNull("message"), checked first because the message is built first; then a null room fails with ArgumentNull("chatRoom"); a failure changes nothing; otherwise the state becomes the dispatch of SendChatMessage with a message from this participant, holding the text and the clock reading |
| Participants.Participant.ListMessagesOf | CQRS/Implementations.cs:228-231 | a null room fails with ArgumentNull("chatRoom") and leaves the registry unchanged; otherwise fails with QueryHandlerNotFound iff no messages handler is registered, and returns the room's log when one is |
| Participants.Participant.ListParticipantsOf | CQRS/Implementations.cs:236-239 | a null room fails with ArgumentNull("chatRoom") and leaves the registry unchanged; otherwise fails with QueryHandlerNotFound iff no participants handler is registered, and returns the room's participants when one is |
| Participants.ListAnswerShape | CQRS/Implementations.cs:73-84 | in a registry where handlers sit under their own type, a query fails exactly when its entry holds no handler |
| DispatchProperties.DispatchRunsEveryRegisteredHandler | CQRS/Implementations.cs:35-43 | in such a registry, a command runs every handler registered for its type, once each, in registration order |
| DispatchProperties.HandlingNone | CQRS/Implementations.cs:62-72 | with no handler declared for the type, the filter returns nothing |
| DispatchProperties.UnhandledCommandIsNoOp | CQRS/Implementations.cs:35-43 | a command with no handler for its type changes no room and no output |
| DispatchProperties.RunOne | CQRS/Implementations.cs:39-42 | running one handler is that handler's effect |
| DispatchProperties.RunTwo | CQRS/Implementations.cs:39-42 | running two handlers is the second's effect applied after the first's |
| DispatchProperties.JoinDispatch | CQRS/Commands.cs:29-32 | with the join handler alone registered, a join appends the requester and changes nothing else |
| DispatchProperties.LeaveDispatch | CQRS/Commands.cs:60-63 | with the leave handler alone registered, a leave removes the requester's first occurrence and changes nothing else |
| DispatchProperties.SendDispatch | CQRS/Commands.cs:92-99 | with the send handler alone registered, a send records the message and broadcasts it |
| DispatchProperties.LeftUndoesJoined | CQRS/Implementations.cs:167-190 | joining then leaving restores a non-member's room |
| DispatchProperties.JoinThenLeaveRestores | CQRS/Commands.cs:29-63 | dispatching a join and then a leave of a non-member restores every room and output |
| DispatchProperties.LeaveNonMemberIsNoOp | CQRS/Commands.cs:60-63 | a non-member leaving changes nothing |
| DispatchProperties.RecordedDelivers | CQRS/Commands.cs:92-99 | the message becomes the last log entry; participants and other rooms are unchanged; each recording participant gains one line per occurrence in the list, so a non-member gains nothing |
| DispatchProperties.ReportDispatch | Patterns/CQRS/Program.cs:196-208 | the report is recorded and broadcast in the moderator room, and no further dispatch is nested inside it |
| DispatchProperties.ModeratorHandles | Patterns/CQRS/Program.cs:194-208 | the moderator's handling records its report in the moderator room when it intervenes, and changes nothing otherwise |
| DispatchProperties.ModeratedSendDispatch | Patterns/CQRS/Program.cs:194-210 | with the send handler and then a moderator registered, the message is recorded first; the moderator's report follows within the same dispatch exactly when it intervenes |
| DispatchProperties.ModeratorLogsOneReport | Patterns/CQRS/Program.cs:194-210 | the moderator room gains exactly the report when the moderator intervenes, and nothing otherwise; the message is recorded in its own room, with participants unchanged |
| Scenarios.StandardRegistryBuilt | Patterns/CQRS/Program.cs:32-36 | the fixture's five registrations leave each standard handler alone under its own type |
| Scenarios.StandardRegistryIsStandard | Patterns/CQRS/Program.cs:32-36 | that registry places handlers under their own types and has no moderator, and sending any request leaves it unchanged |
| Scenarios.SetUp | Patterns/CQRS/Program.cs:18-41 | the fixture: fresh mediator, rooms and writers; empty rooms; one empty output per participant |
| Scenarios.JoinStep | CQRS/Implementations.cs:212-215 | under the fixture's registry, Join appends to the room and touches no other room and no output |
| Scenarios.LeaveStep | CQRS/Implementations.cs:220-223 | under the fixture's registry, Leave removes the first occurrence and touches no other room and no output |
| Scenarios.SendStep | CQRS/Implementations.cs:252-255 | under the fixture's registry, the message is recorded, and each output gains one line per listing of its owner in the room |
| Scenarios.MediatorSendStep | Patterns/CQRS/Program.cs:135 | a send issued straight to the mediator has the same effect |
| Scenarios.ModeratedSendStep | Patterns/CQRS/Program.cs:157-158 | with a moderator registered, a send records the message, and the moderator room gains the report exactly when the moderator intervenes |
| Scenarios.StandardServes | Patterns/CQRS/Program.cs:32-36 | the fixture's registry serves its rooms with the standard send handler only |
| Scenarios.ListingParticipants | Patterns/CQRS/Program.cs:44-58 | Bob lists room 1 as exactly [Bob, Alice], in join order |
| Scenarios.ListingEarlierMessages | Patterns/CQRS/Program.cs:61-75 | Alice, joining after Bob's greeting, lists exactly that one message from Bob |
| Scenarios.ReceivingNewMessages | Patterns/CQRS/Program.cs:78-93 | Alice's output is exactly the one line (room 1, Bob's "Hello!") |
| Scenarios.ThreeJoined | Patterns/CQRS/Program.cs:97-99 | Bob, Alice and Numpty join room 1 in that order, and no output has received anything |
| Scenarios.ThreeGreeted | Patterns/CQRS/Program.cs:97-100 | after three joins and a greeting, Alice and Numpty each hold exactly that one line |
| Scenarios.NoMessagesAfterLeaving | Patterns/CQRS/Program.cs:96-127 | after leaving, Alice holds only the greeting; Numpty holds the greeting and the second message, in that order |
| Scenarios.SendingThroughMediator | Patterns/CQRS/Program.cs:130-145 | a command sent by another component reaches Alice exactly once |
| Scenarios.ModeratedServes | Patterns/CQRS/Program.cs:150-152 | registering the moderator puts it second under SendChatMessage, with its room as the only moderator room |
| Scenarios.BadWordDrawsReport | Patterns/CQRS/Program.cs:196-203 | a text holding "bad", sent by someone else to another room, draws a report |
| Scenarios.ModeratedFixture | Patterns/CQRS/Program.cs:150-156 | the moderator test's setup leaves the moderator room empty and the moderator registered second |
| Scenarios.FirstReport | Patterns/CQRS/Program.cs:149-156 | Bob's "Hello bad!" leaves exactly one report, about that message, in the moderator room |
| Scenarios.ModeratorReports | Patterns/CQRS/Program.cs:148-174 | the moderator room's log is exactly the two reports, in order, each sent by the moderator and starting with "Bad word found" |

## Left out

- Mediation.Mediator.SendCommand: requires every registered moderator to report to the same moderator room (`Mediation.ModeratorsShareRoom`). That condition keeps the nesting one level deep. In the source, moderators in different rooms recurse without bound only when one moderator's report holds a word that a moderator of another room bans, for instance when both ban the same word: each report quotes the message it reports (Patterns/CQRS/Program.cs:204), so the two then keep reporting each other's reports. The requirement is stronger than that. Under a registry whose moderators use two or more rooms it also excludes runs that end normally in the source: every join and leave, every send no moderator reacts to, and every send whose reports no moderator of another room reacts to. The same requirement is on `HandleCommand`, `Moderate` and the `Participant` methods that send commands.
- Mediation.Mediator.SendCommand: computes the list of handlers before running any of them. The source enumerates the handler list lazily (`yield return`), but nothing registers a handler during a dispatch, so the handlers run are the same.
- `HandlerList` is a value inside the dictionary, not a shared object. The source never lets a reference to it escape.
- `ListParticipants` and `ListMessages` return a copy of the list, not the source's live `AsReadOnly` view. Nothing here changes a room while a caller holds such a view.
- Moderation.DateText: the report prints the date as the decimal digits of a clock reading. The source prints `DateTime` in the current culture's format, which is not modelled.
- The null checks in the `ChatRoom` constructor (name), the `Participant` constructor (mediator, name, writer) and the `ChatModerator` constructor (mediator, room, words) are not modelled. Dafny references and strings here are never null.
- Console output in `TestMessageWriter.Write` (Patterns/CQRS/Program.cs:228) is not modelled.
- `QueryHandlerNotFoundException`'s message text (CQRS/Implementations.cs:260-266) is not modelled. The error carries only the query type.
- The interfaces of CQRS/Interfaces.cs carry no behaviour and are not part of this model. Neither are the other patterns of the repository.
- The model does not claim that clock readings increase over time. The tests use one reading `now` for every message.
