/** The mediator of CQRS/Implementations.cs: a registry of handlers keyed by
    request type (HandlerDictionary, holding one HandlerList per type),
    command dispatch that runs every handler registered for the command's
    type in registration order, and query dispatch that answers with the
    first handler registered for the query's type.

    The command handlers include ChatModerator (Patterns/CQRS/Program.cs),
    whose Handle dispatches a new command while the outer dispatch is still
    running; that is why its Handle lives here, beside the dispatch it calls
    back into. The effect of a dispatch is specified by the ghost functions
    Dispatch, RunHandlers and Handle over a World: the state of a set of
    rooms and of the participants' writers. */
module Mediation {
  import opened Base
  import opened ChatRooms
  import opened Writers
  import opened Commands
  import opened Queries
  import opened Moderation

  /** The command handlers: the three of CQRS/Commands.cs and the moderator. */
  datatype CommandHandler =
    | JoinHandler
    | LeaveHandler
    | SendHandler
    | ModeratorHandler(moderator: Moderator)
  {
    /** The command type the handler is declared for (its TCommand). */
    function Handles(): RequestType
    {
      match this
      case JoinHandler => JoinChatRoomType
      case LeaveHandler => LeaveChatRoomType
      case SendHandler => SendChatMessageType
      case ModeratorHandler(_) => SendChatMessageType
    }
  }

  /** The filter `handler is ICommandHandler<T>` applied to a registration
      list: the handlers of `hs` declared for `t`, in registration order. */
  function Handling(hs: seq<CommandHandler>, t: RequestType): (r: seq<CommandHandler>)
    ensures |r| <= |hs|
    ensures forall h | h in r :: h in hs && h.Handles() == t
    ensures forall h | h in hs && h.Handles() == t :: h in r
    decreases |hs|
  {
    if hs == [] then []
    else
      var init, last := hs[..|hs| - 1], hs[|hs| - 1];
      assert hs == init + [last];
      Handling(init, t) + (if last.Handles() == t then [last] else [])
  }

  /** When every handler of `hs` is declared for `t`, the filter keeps all of
      them, in the same order. */
  lemma {:induction false} HandlingKeepsAll(hs: seq<CommandHandler>, t: RequestType)
    requires forall h | h in hs :: h.Handles() == t
    ensures Handling(hs, t) == hs
  {
    if hs != [] {
      var init, last := hs[..|hs| - 1], hs[|hs| - 1];
      assert hs == init + [last];
      assert last.Handles() == t;
      HandlingKeepsAll(init, t);
      assert Handling(hs, t) == Handling(init, t) + [last];
    }
  }

  /** The search `handler is IQueryHandler<T, R>` over the query handlers:
      the first one declared for `t`, or QueryHandlerNotFoundException. */
  function FirstHandling(qs: seq<QueryHandler>, t: RequestType): (r: Result<QueryHandler>)
    ensures r.Err? <==> forall h :: h in qs ==> h.Handles() != t
    ensures r.Err? ==> r.error == QueryHandlerNotFound(t)
    ensures r.Ok? ==> r.value in qs && r.value.Handles() == t
  {
    if qs == [] then Err(QueryHandlerNotFound(t))
    else if qs[0].Handles() == t then Ok(qs[0])
    else
      assert qs == [qs[0]] + qs[1..];
      FirstHandling(qs[1..], t)
  }

  /** Of several handlers declared for one query type, the first registered
      is the one found. */
  lemma {:induction false} FirstRegisteredWins(qs: seq<QueryHandler>, t: RequestType, i: nat)
    requires i < |qs| && qs[i].Handles() == t
    requires forall j :: 0 <= j < i ==> qs[j].Handles() != t
    ensures FirstHandling(qs, t) == Ok(qs[i])
  {
    if i > 0 {
      FirstRegisteredWins(qs[1..], t, i - 1);
    }
  }

  /** HandlerList: the handlers registered under one request type, commands
      and queries in two lists. The source mutates the list object in place;
      as no reference to it leaves the dictionary, it is a value here. */
  datatype HandlerList = HandlerList(commandHandlers: seq<CommandHandler>, queryHandlers: seq<QueryHandler>)
  {
    /** HandlerList.FindAll: walks the command handlers and keeps those
        declared for `t`. */
    method FindAll(t: RequestType) returns (hs: seq<CommandHandler>)
      ensures hs == Handling(commandHandlers, t)
    {
      hs := [];
      var i := 0;
      while i < |commandHandlers|
        invariant 0 <= i <= |commandHandlers|
        invariant hs == Handling(commandHandlers[..i], t)
      {
        ghost var next := commandHandlers[..i + 1];
        assert next[..i] == commandHandlers[..i] && next[i] == commandHandlers[i];
        if commandHandlers[i].Handles() == t {
          hs := hs + [commandHandlers[i]];
        }
        i := i + 1;
      }
      assert commandHandlers[..|commandHandlers|] == commandHandlers;
    }

    /** HandlerList.Find: returns the first query handler declared for `t`,
        and fails when there is none. */
    method Find(t: RequestType) returns (r: Result<QueryHandler>)
      ensures r == FirstHandling(queryHandlers, t)
    {
      var i := 0;
      while i < |queryHandlers|
        invariant 0 <= i <= |queryHandlers|
        invariant FirstHandling(queryHandlers[i..], t) == FirstHandling(queryHandlers, t)
      {
        if queryHandlers[i].Handles() == t {
          return Ok(queryHandlers[i]);
        }
        assert queryHandlers[i..][1..] == queryHandlers[i + 1..];
        i := i + 1;
      }
      return Err(QueryHandlerNotFound(t));
    }
  }

  const NoHandlers := HandlerList([], [])

  /** The contents of HandlerDictionary. */
  type Registry = map<RequestType, HandlerList>

  /** The handlers registered under `t`; a missing entry holds none. */
  function Slot(reg: Registry, t: RequestType): HandlerList
  {
    if t in reg then reg[t] else NoHandlers
  }

  /** EnforceTypeEntry's effect: an empty entry for `t` if there was none. */
  function WithEntry(reg: Registry, t: RequestType): (r: Registry)
    ensures t in r && r.Keys == reg.Keys + {t}
    ensures forall u :: Slot(r, u) == Slot(reg, u)
    ensures t in reg ==> r == reg
  {
    if t in reg then reg else reg[t := NoHandlers]
  }

  /** AddHandler for a command handler: appended to its own type's command
      list; every other entry, and that type's query list, unchanged. */
  function WithCommandHandler(reg: Registry, h: CommandHandler): (r: Registry)
    ensures r.Keys == reg.Keys + {h.Handles()}
    ensures Slot(r, h.Handles()).commandHandlers == Slot(reg, h.Handles()).commandHandlers + [h]
    ensures Slot(r, h.Handles()).queryHandlers == Slot(reg, h.Handles()).queryHandlers
    ensures forall u :: u != h.Handles() ==> Slot(r, u) == Slot(reg, u)
  {
    var t := h.Handles();
    var registered := Slot(reg, t);
    reg[t := registered.(commandHandlers := registered.commandHandlers + [h])]
  }

  /** AddHandler for a query handler: appended to its own type's query list;
      every other entry, and that type's command list, unchanged. */
  function WithQueryHandler(reg: Registry, h: QueryHandler): (r: Registry)
    ensures r.Keys == reg.Keys + {h.Handles()}
    ensures Slot(r, h.Handles()).queryHandlers == Slot(reg, h.Handles()).queryHandlers + [h]
    ensures Slot(r, h.Handles()).commandHandlers == Slot(reg, h.Handles()).commandHandlers
    ensures forall u :: u != h.Handles() ==> Slot(r, u) == Slot(reg, u)
  {
    var t := h.Handles();
    var registered := Slot(reg, t);
    reg[t := registered.(queryHandlers := registered.queryHandlers + [h])]
  }

  /** Every handler sits under the type it is declared for: what
      registration through Register guarantees. */
  ghost predicate WellTyped(reg: Registry)
  {
    && (forall t, h | t in reg && h in reg[t].commandHandlers :: h.Handles() == t)
    && (forall t, h | t in reg && h in reg[t].queryHandlers :: h.Handles() == t)
  }

  /** Registering a command handler keeps every handler under the type it
      is declared for. */
  lemma CommandRegistrationKeepsWellTyped(reg: Registry, h: CommandHandler)
    requires WellTyped(reg)
    ensures WellTyped(WithCommandHandler(reg, h))
  {
    var rc := WithCommandHandler(reg, h);
    forall t, g | t in rc && g in rc[t].commandHandlers
      ensures g.Handles() == t
    {
      assert g in Slot(rc, t).commandHandlers;
    }
  }

  /** Registering a query handler keeps every handler under the type it is
      declared for. */
  lemma QueryRegistrationKeepsWellTyped(reg: Registry, q: QueryHandler)
    requires WellTyped(reg)
    ensures WellTyped(WithQueryHandler(reg, q))
  {
    var rq := WithQueryHandler(reg, q);
    forall t, g | t in rq && g in rq[t].queryHandlers
      ensures g.Handles() == t
    {
      assert g in Slot(rq, t).queryHandlers;
    }
  }

  /** HandlerDictionary: the registry object, grown in place. */
  class HandlerDictionary {
    var handlers: Registry

    constructor ()
      ensures handlers == map[]
    {
      handlers := map[];
    }

    /** EnforceTypeEntry: creates an empty entry on first touch. */
    method EnforceTypeEntry(t: RequestType)
      modifies this
      ensures handlers == WithEntry(old(handlers), t)
    {
      if t !in handlers {
        handlers := handlers[t := NoHandlers];
      }
    }

    /** AddHandler<TCommand>. */
    method AddCommandHandler(h: CommandHandler)
      modifies this
      ensures handlers == WithCommandHandler(old(handlers), h)
    {
      var t := h.Handles();
      EnforceTypeEntry(t);
      var registered := handlers[t];
      handlers := handlers[t := registered.(commandHandlers := registered.commandHandlers + [h])];
    }

    /** AddHandler<TQuery, TReturn>. */
    method AddQueryHandler(h: QueryHandler)
      modifies this
      ensures handlers == WithQueryHandler(old(handlers), h)
    {
      var t := h.Handles();
      EnforceTypeEntry(t);
      var registered := handlers[t];
      handlers := handlers[t := registered.(queryHandlers := registered.queryHandlers + [h])];
    }

    /** FindAll<TCommand>: the handlers for `t` in registration order; the
        lookup itself creates an empty entry for an unknown type. */
    method FindAll(t: RequestType) returns (hs: seq<CommandHandler>)
      modifies this
      ensures handlers == WithEntry(old(handlers), t)
      ensures hs == Handling(Slot(old(handlers), t).commandHandlers, t)
    {
      EnforceTypeEntry(t);
      var registered := handlers[t];
      hs := registered.FindAll(t);
    }

    /** Find<TQuery, TReturn>: the first handler for `t`, or
        QueryHandlerNotFoundException; also creates an empty entry. */
    method Find(t: RequestType) returns (r: Result<QueryHandler>)
      modifies this
      ensures handlers == WithEntry(old(handlers), t)
      ensures r == FirstHandling(Slot(old(handlers), t).queryHandlers, t)
    {
      EnforceTypeEntry(t);
      var registered := handlers[t];
      r := registered.Find(t);
    }
  }

  /** The state a dispatch acts on: a set of rooms and every participant's
      writer output. */
  datatype World = World(rooms: map<ChatRoom, RoomState>, outputs: Outputs)

  /** The World made of the rooms in `rooms` and the writers' outputs. */
  ghost function Observe(rooms: set<ChatRoom>, writers: MessageWriters): World
    reads rooms, writers
  {
    World(map r | r in rooms :: r.State(), writers.outputs)
  }

  /** The moderator rooms of the moderators that a send can reach. */
  function ModeratorRooms(reg: Registry): set<ChatRoom>
  {
    set h | h in Slot(reg, SendChatMessageType).commandHandlers && h.ModeratorHandler? :: h.moderator.room
  }

  /** All registered moderators report to one room. Under this condition a
      report is dispatched into that room, where every moderator ignores it,
      so dispatches nest at most one level deep. */
  predicate ModeratorsShareRoom(reg: Registry)
  {
    forall r1, r2 | r1 in ModeratorRooms(reg) && r2 in ModeratorRooms(reg) :: r1 == r2
  }

  /** The nesting a command can still cause: none inside the moderator room. */
  function Rank(reg: Registry, cmd: Command): nat
  {
    if cmd.room in ModeratorRooms(reg) then 0 else 1
  }

  /** The World holds every room a dispatch of `cmd` can touch. */
  predicate Covers(reg: Registry, cmd: Command, w: World)
  {
    cmd.room in w.rooms && ModeratorRooms(reg) <= w.rooms.Keys
  }

  /** `h` is registered for `cmd`'s type and declared for it. */
  predicate Registered(reg: Registry, cmd: Command, h: CommandHandler)
  {
    h in Slot(reg, cmd.Type()).commandHandlers && h.Handles() == cmd.Type()
  }

  /** Mediator.Send<TCommand>: the handlers found for the command's type run
      one after the other, in registration order, on the same command. */
  ghost function Dispatch(reg: Registry, cmd: Command, now: nat, w: World): (r: World)
    requires ModeratorsShareRoom(reg) && Covers(reg, cmd, w)
    ensures r.rooms.Keys == w.rooms.Keys && r.outputs.Keys == w.outputs.Keys
    decreases Rank(reg, cmd), 2, 0
  {
    RunHandlers(reg, Handling(Slot(reg, cmd.Type()).commandHandlers, cmd.Type()), cmd, now, w)
  }

  /** Running the handlers `hs` in order. */
  ghost function RunHandlers(reg: Registry, hs: seq<CommandHandler>, cmd: Command, now: nat, w: World): (r: World)
    requires ModeratorsShareRoom(reg) && Covers(reg, cmd, w)
    requires forall h | h in hs :: Registered(reg, cmd, h)
    ensures r.rooms.Keys == w.rooms.Keys && r.outputs.Keys == w.outputs.Keys
    decreases Rank(reg, cmd), 1, |hs|
  {
    if hs == [] then w
    else Handle(reg, hs[|hs| - 1], cmd, now, RunHandlers(reg, hs[..|hs| - 1], cmd, now, w))
  }

  /** JoinChatRoom.Handler's effect: the requester appended to the room's
      participants. */
  function Joined(w: World, room: ChatRoom, p: ParticipantId): (r: World)
    requires room in w.rooms
    ensures r.rooms.Keys == w.rooms.Keys && r.outputs == w.outputs
  {
    var st := w.rooms[room];
    w.(rooms := w.rooms[room := st.(participants := st.participants + [p])])
  }

  /** LeaveChatRoom.Handler's effect: the requester's first occurrence
      removed from the room's participants. */
  function Left(w: World, room: ChatRoom, p: ParticipantId): (r: World)
    requires room in w.rooms
    ensures r.rooms.Keys == w.rooms.Keys && r.outputs == w.outputs
  {
    var st := w.rooms[room];
    w.(rooms := w.rooms[room := st.(participants := RemoveFirst(st.participants, p))])
  }

  /** SendChatMessage.Handler's effect: the message recorded in the room,
      then every participant of the room notified, in list order. */
  function Recorded(w: World, room: ChatRoom, m: ChatMessage): (r: World)
    requires room in w.rooms
    ensures r.rooms.Keys == w.rooms.Keys && r.outputs.Keys == w.outputs.Keys
  {
    var st := w.rooms[room];
    var recorded := st.(messages := st.messages + [m]);
    World(w.rooms[room := recorded], Broadcast(w.outputs, room, recorded.participants, m))
  }

  /** One handler's effect on the World; the moderator's is a nested
      dispatch of its report when it intervenes. */
  ghost function Handle(reg: Registry, h: CommandHandler, cmd: Command, now: nat, w: World): (r: World)
    requires ModeratorsShareRoom(reg) && Covers(reg, cmd, w)
    requires Registered(reg, cmd, h)
    ensures r.rooms.Keys == w.rooms.Keys && r.outputs.Keys == w.outputs.Keys
    decreases Rank(reg, cmd), 0, 0
  {
    match h
    case JoinHandler => Joined(w, cmd.room, cmd.requester)
    case LeaveHandler => Left(w, cmd.room, cmd.requester)
    case SendHandler => Recorded(w, cmd.room, cmd.message)
    case ModeratorHandler(m) =>
      if Intervenes(m, cmd) then Dispatch(reg, SendChatMessage(m.room, Report(m, cmd, now)), now, w)
      else w
  }

  /** Mediator.Send<TQuery, TReturn> over a room whose state is `st`: the
      answer of the first handler registered for the query's type, or
      QueryHandlerNotFoundException when there is none. */
  function AnswerQuery(reg: Registry, q: Query, st: RoomState): (r: Result<QueryResult>)
    ensures r.Err? <==> forall h :: h in Slot(reg, q.Type()).queryHandlers ==> h.Handles() != q.Type()
    ensures r.Err? ==> r.error == QueryHandlerNotFound(q.Type())
    ensures r.Ok? && q.ListParticipants? ==> r.value == ParticipantList(st.participants)
    ensures r.Ok? && q.ListMessages? ==> r.value == MessageList(st.messages)
  {
    match FirstHandling(Slot(reg, q.Type()).queryHandlers, q.Type())
    case Err(e) => Err(e)
    case Ok(h) => Ok(Answer(h, q, st))
  }

  /** Mediator: registration and dispatch over a HandlerDictionary. */
  class Mediator {
    const registry: HandlerDictionary

    /** Every registered handler sits under the type it is declared for,
        since Register files it under its own type. */
    ghost predicate Valid()
      reads this, registry
    {
      WellTyped(registry.handlers)
    }

    constructor ()
      ensures fresh(registry) && registry.handlers == map[]
      ensures Valid()
    {
      registry := new HandlerDictionary();
    }

    /** Register<TCommand>. */
    method RegisterCommandHandler(h: CommandHandler)
      requires Valid()
      modifies registry
      ensures registry.handlers == WithCommandHandler(old(registry.handlers), h)
      ensures Valid()
    {
      registry.AddCommandHandler(h);
      CommandRegistrationKeepsWellTyped(old(registry.handlers), h);
    }

    /** Register<TQuery, TReturn>. */
    method RegisterQueryHandler(h: QueryHandler)
      requires Valid()
      modifies registry
      ensures registry.handlers == WithQueryHandler(old(registry.handlers), h)
      ensures Valid()
    {
      registry.AddQueryHandler(h);
      QueryRegistrationKeepsWellTyped(old(registry.handlers), h);
    }

    /** Send<TQuery, TReturn>: finds the handler and returns its answer; the
        room is only read. */
    method SendQuery(q: Query) returns (r: Result<QueryResult>)
      modifies registry
      ensures registry.handlers == WithEntry(old(registry.handlers), q.Type())
      ensures r == AnswerQuery(old(registry.handlers), q, q.room.State())
    {
      var found := registry.Find(q.Type());
      match found
      case Err(e) => r := Err(e);
      case Ok(h) => r := Ok(Answer(h, q, q.room.State()));
    }

    /** Send<TCommand>: runs every handler found for the command's type, in
        registration order; with none it changes no room and no output.
        `rooms` names the rooms the dispatch may change. */
    method SendCommand(cmd: Command, writers: MessageWriters, now: nat, ghost rooms: set<ChatRoom>)
      requires ModeratorsShareRoom(registry.handlers)
      requires cmd.room in rooms && ModeratorRooms(registry.handlers) <= rooms
      modifies registry, rooms, writers
      ensures registry.handlers == WithEntry(old(registry.handlers), cmd.Type())
      ensures ModeratorRooms(registry.handlers) == old(ModeratorRooms(registry.handlers))
      ensures Observe(rooms, writers) == Dispatch(registry.handlers, cmd, now, old(Observe(rooms, writers)))
      decreases Rank(registry.handlers, cmd), 2
    {
      ghost var before := Observe(rooms, writers);
      var hs := registry.FindAll(cmd.Type());
      ghost var reg := registry.handlers;
      assert ModeratorRooms(reg) == old(ModeratorRooms(registry.handlers));
      var i := 0;
      while i < |hs|
        invariant 0 <= i <= |hs|
        invariant registry.handlers == reg
        invariant Observe(rooms, writers) == RunHandlers(reg, hs[..i], cmd, now, before)
      {
        HandleCommand(hs[i], cmd, writers, now, rooms);
        assert hs[..i + 1][..i] == hs[..i];
        i := i + 1;
      }
      assert hs[..|hs|] == hs;
    }

    /** handler.Handle(command), for each kind of command handler. */
    method HandleCommand(h: CommandHandler, cmd: Command, writers: MessageWriters, now: nat, ghost rooms: set<ChatRoom>)
      requires ModeratorsShareRoom(registry.handlers)
      requires cmd.room in rooms && ModeratorRooms(registry.handlers) <= rooms
      requires Registered(registry.handlers, cmd, h)
      modifies registry, rooms, writers
      ensures registry.handlers == old(registry.handlers)
      ensures Observe(rooms, writers) == Handle(registry.handlers, h, cmd, now, old(Observe(rooms, writers)))
      decreases Rank(registry.handlers, cmd), 1
    {
      match h
      case JoinHandler => HandleJoin(cmd);
      case LeaveHandler => HandleLeave(cmd);
      case SendHandler => HandleSend(cmd, writers);
      case ModeratorHandler(m) => Moderate(m, cmd, writers, now, rooms);
    }

    /** ChatModerator.Handle: unless the message is its own or was sent to
        the moderator room, reports a message containing a banned word by
        sending a new command to the moderator room, nested inside the
        current dispatch. */
    method Moderate(m: Moderator, cmd: Command, writers: MessageWriters, now: nat, ghost rooms: set<ChatRoom>)
      requires ModeratorsShareRoom(registry.handlers)
      requires cmd.room in rooms && ModeratorRooms(registry.handlers) <= rooms
      requires Registered(registry.handlers, cmd, ModeratorHandler(m))
      modifies registry, rooms, writers
      ensures registry.handlers == old(registry.handlers)
      ensures Observe(rooms, writers) ==
                if Intervenes(m, cmd)
                then Dispatch(registry.handlers, SendChatMessage(m.room, Report(m, cmd, now)), now, old(Observe(rooms, writers)))
                else old(Observe(rooms, writers))
      decreases Rank(registry.handlers, cmd), 0
    {
      if cmd.message.sender == m.id || cmd.room == m.room {
        return;
      }
      if ContainsAnyBadWord(m.badWords, cmd.message.text) {
        var report := ChatMessage(m.id, ReportText(cmd), now);
        SendCommand(SendChatMessage(m.room, report), writers, now, rooms);
      }
    }
  }
}
