/** What the dispatch specification of module Mediation implies: the
    registry's typing, the no-op for unhandled commands, the effect of each
    built-in handler when it is the only one registered for its command, and
    the moderator's fan-out with its nested dispatch. */
module DispatchProperties {
  import opened Base
  import opened ChatRooms
  import opened Writers
  import opened Commands
  import opened Queries
  import opened Moderation
  import opened Mediation

  /** In a well-typed registry, a command is dispatched to every handler
      registered for its type, each once, in registration order. */
  lemma DispatchRunsEveryRegisteredHandler(reg: Registry, cmd: Command, now: nat, w: World)
    requires WellTyped(reg) && ModeratorsShareRoom(reg) && Covers(reg, cmd, w)
    ensures forall h | h in Slot(reg, cmd.Type()).commandHandlers :: Registered(reg, cmd, h)
    ensures Dispatch(reg, cmd, now, w) == RunHandlers(reg, Slot(reg, cmd.Type()).commandHandlers, cmd, now, w)
  {
    var hs := Slot(reg, cmd.Type()).commandHandlers;
    forall h | h in hs
      ensures h.Handles() == cmd.Type()
    {
      assert cmd.Type() in reg;
    }
    HandlingKeepsAll(hs, cmd.Type());
  }

  /** A list with no handler declared for `t` filters to nothing. */
  lemma {:induction false} HandlingNone(hs: seq<CommandHandler>, t: RequestType)
    requires forall h | h in hs :: h.Handles() != t
    ensures Handling(hs, t) == []
    decreases |hs|
  {
    if hs != [] {
      var init := hs[..|hs| - 1];
      assert forall h | h in init :: h in hs;
      HandlingNone(init, t);
    }
  }

  /** A command whose type has no handler changes no room and no output,
      and raises nothing. */
  lemma UnhandledCommandIsNoOp(reg: Registry, cmd: Command, now: nat, w: World)
    requires ModeratorsShareRoom(reg) && Covers(reg, cmd, w)
    requires forall h | h in Slot(reg, cmd.Type()).commandHandlers :: h.Handles() != cmd.Type()
    ensures Dispatch(reg, cmd, now, w) == w
  {
    HandlingNone(Slot(reg, cmd.Type()).commandHandlers, cmd.Type());
  }

  /** Running a single handler is that handler's effect. */
  lemma RunOne(reg: Registry, h: CommandHandler, cmd: Command, now: nat, w: World)
    requires ModeratorsShareRoom(reg) && Covers(reg, cmd, w) && Registered(reg, cmd, h)
    ensures RunHandlers(reg, [h], cmd, now, w) == Handle(reg, h, cmd, now, w)
  {
    assert [h][..0] == [];
  }

  /** Running two handlers is the second's effect after the first's. */
  lemma RunTwo(reg: Registry, h1: CommandHandler, h2: CommandHandler, cmd: Command, now: nat, w: World)
    requires ModeratorsShareRoom(reg) && Covers(reg, cmd, w)
    requires Registered(reg, cmd, h1) && Registered(reg, cmd, h2)
    ensures RunHandlers(reg, [h1, h2], cmd, now, w) == Handle(reg, h2, cmd, now, Handle(reg, h1, cmd, now, w))
  {
    assert [h1, h2][..1] == [h1];
    RunOne(reg, h1, cmd, now, w);
  }

  /** With the join handler alone registered for joins, a join appends the
      requester to the room and changes nothing else. */
  lemma JoinDispatch(reg: Registry, room: ChatRoom, p: ParticipantId, now: nat, w: World)
    requires ModeratorsShareRoom(reg) && room in w.rooms && ModeratorRooms(reg) <= w.rooms.Keys
    requires Slot(reg, JoinChatRoomType).commandHandlers == [JoinHandler]
    ensures Dispatch(reg, JoinChatRoom(room, p), now, w) == Joined(w, room, p)
  {
    assert Handling([JoinHandler], JoinChatRoomType) == [JoinHandler];
    RunOne(reg, JoinHandler, JoinChatRoom(room, p), now, w);
  }

  /** With the leave handler alone registered for leaves, a leave removes the
      requester's first occurrence and changes nothing else. */
  lemma LeaveDispatch(reg: Registry, room: ChatRoom, p: ParticipantId, now: nat, w: World)
    requires ModeratorsShareRoom(reg) && room in w.rooms && ModeratorRooms(reg) <= w.rooms.Keys
    requires Slot(reg, LeaveChatRoomType).commandHandlers == [LeaveHandler]
    ensures Dispatch(reg, LeaveChatRoom(room, p), now, w) == Left(w, room, p)
  {
    assert Handling([LeaveHandler], LeaveChatRoomType) == [LeaveHandler];
    RunOne(reg, LeaveHandler, LeaveChatRoom(room, p), now, w);
  }

  /** With the send handler alone registered for sends, a send records the
      message and broadcasts it. */
  lemma SendDispatch(reg: Registry, room: ChatRoom, m: ChatMessage, now: nat, w: World)
    requires ModeratorsShareRoom(reg) && room in w.rooms && ModeratorRooms(reg) <= w.rooms.Keys
    requires Slot(reg, SendChatMessageType).commandHandlers == [SendHandler]
    ensures Dispatch(reg, SendChatMessage(room, m), now, w) == Recorded(w, room, m)
  {
    assert Handling([SendHandler], SendChatMessageType) == [SendHandler];
    RunOne(reg, SendHandler, SendChatMessage(room, m), now, w);
  }

  /** Removing a newly appended non-member restores the World. */
  lemma LeftUndoesJoined(w: World, room: ChatRoom, p: ParticipantId)
    requires room in w.rooms && p !in w.rooms[room].participants
    ensures Left(Joined(w, room, p), room, p) == w
  {
    var st := w.rooms[room];
    var w1 := Joined(w, room, p);
    assert w1.rooms[room] == st.(participants := st.participants + [p]);
    RemoveFirstAfterAppend(st.participants, p);
    assert Left(w1, room, p).rooms == w.rooms[room := st];
    assert w.rooms[room := st] == w.rooms;
  }

  /** A participant who was not a member joins and leaves again: the room is
      as it was. */
  lemma JoinThenLeaveRestores(reg: Registry, room: ChatRoom, p: ParticipantId, now: nat, w: World)
    requires ModeratorsShareRoom(reg) && room in w.rooms && ModeratorRooms(reg) <= w.rooms.Keys
    requires Slot(reg, JoinChatRoomType).commandHandlers == [JoinHandler]
    requires Slot(reg, LeaveChatRoomType).commandHandlers == [LeaveHandler]
    requires p !in w.rooms[room].participants
    ensures Dispatch(reg, LeaveChatRoom(room, p), now, Dispatch(reg, JoinChatRoom(room, p), now, w)) == w
  {
    JoinDispatch(reg, room, p, now, w);
    LeaveDispatch(reg, room, p, now, Joined(w, room, p));
    LeftUndoesJoined(w, room, p);
  }

  /** Leaving a room one is not in changes nothing. */
  lemma LeaveNonMemberIsNoOp(reg: Registry, room: ChatRoom, p: ParticipantId, now: nat, w: World)
    requires ModeratorsShareRoom(reg) && room in w.rooms && ModeratorRooms(reg) <= w.rooms.Keys
    requires Slot(reg, LeaveChatRoomType).commandHandlers == [LeaveHandler]
    requires p !in w.rooms[room].participants
    ensures Dispatch(reg, LeaveChatRoom(room, p), now, w) == w
  {
    LeaveDispatch(reg, room, p, now, w);
    assert w.rooms[room := w.rooms[room]] == w.rooms;
  }

  /** The send handler's effect: the message becomes the last log entry, the
      participants and every other room are unchanged, and each recording
      participant receives (room, m) once per entry in the room's list, so
      non-members receive nothing. */
  lemma RecordedDelivers(w: World, room: ChatRoom, m: ChatMessage, q: ParticipantId)
    requires room in w.rooms
    ensures Recorded(w, room, m).rooms[room].messages == w.rooms[room].messages + [m]
    ensures Recorded(w, room, m).rooms[room].participants == w.rooms[room].participants
    ensures forall other | other in w.rooms && other != room :: Recorded(w, room, m).rooms[other] == w.rooms[other]
    ensures q in w.outputs ==>
              Recorded(w, room, m).outputs[q] == w.outputs[q] + Repeat(Line(room, m), Count(w.rooms[room].participants, q))
    ensures q in w.outputs && q !in w.rooms[room].participants ==> Recorded(w, room, m).outputs[q] == w.outputs[q]
  {
    if q in w.outputs {
      BroadcastDelivers(w.outputs, room, w.rooms[room].participants, m, q);
      CountMembership(w.rooms[room].participants, q);
    }
  }

  /** The moderator's report, dispatched into its own room, is recorded
      there and broadcast, and causes no further dispatch: the nesting stops
      at depth one. */
  lemma ReportDispatch(reg: Registry, mod: Moderator, cmd: Command, now: nat, w: World)
    requires cmd.SendChatMessage?
    requires mod.room in w.rooms
    requires Slot(reg, SendChatMessageType).commandHandlers == [SendHandler, ModeratorHandler(mod)]
    ensures ModeratorRooms(reg) == {mod.room} && ModeratorsShareRoom(reg)
    ensures Dispatch(reg, SendChatMessage(mod.room, Report(mod, cmd, now)), now, w) ==
              Recorded(w, mod.room, Report(mod, cmd, now))
  {
    var hs := [SendHandler, ModeratorHandler(mod)];
    assert ModeratorRooms(reg) == {mod.room} by {
      assert ModeratorHandler(mod) in hs;
    }
    var report := SendChatMessage(mod.room, Report(mod, cmd, now));
    assert Handling(hs, SendChatMessageType) == hs;
    RunTwo(reg, SendHandler, ModeratorHandler(mod), report, now, w);
    ReportIsIgnored(mod, cmd, now);
  }

  /** The moderator's handling of a message: the report recorded in the
      moderator room when it intervenes, and nothing otherwise. */
  lemma ModeratorHandles(reg: Registry, mod: Moderator, cmd: Command, now: nat, w: World)
    requires cmd.SendChatMessage? && cmd.room in w.rooms && mod.room in w.rooms
    requires Slot(reg, SendChatMessageType).commandHandlers == [SendHandler, ModeratorHandler(mod)]
    ensures ModeratorsShareRoom(reg) && Covers(reg, cmd, w) && Registered(reg, cmd, ModeratorHandler(mod))
    ensures Handle(reg, ModeratorHandler(mod), cmd, now, w) ==
              if Intervenes(mod, cmd) then Recorded(w, mod.room, Report(mod, cmd, now)) else w
  {
    ReportDispatch(reg, mod, cmd, now, w);
    assert ModeratorHandler(mod) in Slot(reg, SendChatMessageType).commandHandlers;
  }

  /** Send and moderator registered for sends, in that order: the message is
      recorded and broadcast in its room first; then, if the moderator
      intervenes, its report is recorded and broadcast in the moderator room,
      within the same dispatch. */
  lemma ModeratedSendDispatch(reg: Registry, mod: Moderator, room: ChatRoom, m: ChatMessage, now: nat, w: World)
    requires room in w.rooms && mod.room in w.rooms
    requires Slot(reg, SendChatMessageType).commandHandlers == [SendHandler, ModeratorHandler(mod)]
    ensures ModeratorsShareRoom(reg) && Covers(reg, SendChatMessage(room, m), w)
    ensures Dispatch(reg, SendChatMessage(room, m), now, w) ==
              if Intervenes(mod, SendChatMessage(room, m))
              then Recorded(Recorded(w, room, m), mod.room, Report(mod, SendChatMessage(room, m), now))
              else Recorded(w, room, m)
  {
    var cmd := SendChatMessage(room, m);
    var hs := [SendHandler, ModeratorHandler(mod)];
    var recorded := Recorded(w, room, m);
    ModeratorHandles(reg, mod, cmd, now, recorded);
    assert Handling(hs, SendChatMessageType) == hs;
    RunTwo(reg, SendHandler, ModeratorHandler(mod), cmd, now, w);
  }

  /** The moderator room's log gains exactly one entry, the moderator's
      report, when the moderator intervenes, and none otherwise. */
  lemma ModeratorLogsOneReport(reg: Registry, mod: Moderator, room: ChatRoom, m: ChatMessage, now: nat, w: World)
    requires room in w.rooms && mod.room in w.rooms && room != mod.room
    requires Slot(reg, SendChatMessageType).commandHandlers == [SendHandler, ModeratorHandler(mod)]
    ensures ModeratorsShareRoom(reg) && Covers(reg, SendChatMessage(room, m), w)
    ensures Dispatch(reg, SendChatMessage(room, m), now, w).rooms[mod.room].messages ==
              w.rooms[mod.room].messages
              + (if Intervenes(mod, SendChatMessage(room, m)) then [Report(mod, SendChatMessage(room, m), now)] else [])
    ensures Dispatch(reg, SendChatMessage(room, m), now, w).rooms[room].messages == w.rooms[room].messages + [m]
    ensures Dispatch(reg, SendChatMessage(room, m), now, w).rooms[room].participants == w.rooms[room].participants
  {
    ModeratedSendDispatch(reg, mod, room, m, now, w);
    RecordedDelivers(w, room, m, m.sender);
    RecordedDelivers(Recorded(w, room, m), mod.room, Report(mod, SendChatMessage(room, m), now), m.sender);
  }
}
