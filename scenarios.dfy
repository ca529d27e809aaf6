/** The ChatRoomTest fixture of Patterns/CQRS/Program.cs: one mediator with
    the five standard handlers, two rooms, and Bob, Alice and Numpty, each
    with a recording writer. Each test is a method over freshly allocated
    objects whose postcondition is the test's assertions. */
module Scenarios {
  import opened Base
  import opened ChatRooms
  import opened Writers
  import opened Commands
  import opened Queries
  import opened Moderation
  import opened Mediation
  import opened DispatchProperties
  import opened Participants

  const Bob := ParticipantId(1, "Bob")
  const Alice := ParticipantId(2, "Alice")
  const Numpty := ParticipantId(3, "Numpty")
  const ModeratorId := ParticipantId(4, "ChatModerator")

  /** What the fixture's five registrations leave in the registry: each
      standard handler alone under its own request type. */
  function StandardRegistry(): Registry
  {
    map[JoinChatRoomType := HandlerList([JoinHandler], []),
        LeaveChatRoomType := HandlerList([LeaveHandler], []),
        SendChatMessageType := HandlerList([SendHandler], []),
        ListParticipantsType := HandlerList([], [ListParticipantsHandler]),
        ListMessagesType := HandlerList([], [ListMessagesHandler])]
  }

  /** The fixture's registrations, in order, build the standard registry,
      and it is well typed and has no moderator. */
  lemma StandardRegistryBuilt()
    ensures WithQueryHandler(WithQueryHandler(WithCommandHandler(WithCommandHandler(WithCommandHandler(
              map[], JoinHandler), LeaveHandler), SendHandler), ListParticipantsHandler), ListMessagesHandler)
            == StandardRegistry()
  {
    var r1 := WithCommandHandler(map[], JoinHandler);
    assert [] + [JoinHandler] == [JoinHandler];
    assert r1 == map[JoinChatRoomType := HandlerList([JoinHandler], [])];
    var r2 := WithCommandHandler(r1, LeaveHandler);
    assert [] + [LeaveHandler] == [LeaveHandler];
    assert r2 == r1[LeaveChatRoomType := HandlerList([LeaveHandler], [])];
    var r3 := WithCommandHandler(r2, SendHandler);
    assert [] + [SendHandler] == [SendHandler];
    assert r3 == r2[SendChatMessageType := HandlerList([SendHandler], [])];
    var r4 := WithQueryHandler(r3, ListParticipantsHandler);
    assert [] + [ListParticipantsHandler] == [ListParticipantsHandler];
    assert r4 == r3[ListParticipantsType := HandlerList([], [ListParticipantsHandler])];
    var r5 := WithQueryHandler(r4, ListMessagesHandler);
    assert [] + [ListMessagesHandler] == [ListMessagesHandler];
    assert r5 == r4[ListMessagesType := HandlerList([], [ListMessagesHandler])];
  }

  /** The standard registry is well typed, has no moderator, and holds each
      request type; sending a request therefore leaves it as it is. */
  lemma StandardRegistryIsStandard(t: RequestType)
    ensures Standard(StandardRegistry())
    ensures WithEntry(StandardRegistry(), t) == StandardRegistry()
  {
    var std := StandardRegistry();
    assert ModeratorRooms(std) == {} by {
      assert Slot(std, SendChatMessageType).commandHandlers == [SendHandler];
    }
  }

  /** A registry with one handler per request type, each the standard one,
      and no moderator. */
  ghost predicate Standard(reg: Registry)
  {
    && WellTyped(reg)
    && Slot(reg, JoinChatRoomType).commandHandlers == [JoinHandler]
    && Slot(reg, LeaveChatRoomType).commandHandlers == [LeaveHandler]
    && Slot(reg, SendChatMessageType).commandHandlers == [SendHandler]
    && Slot(reg, ListParticipantsType).queryHandlers == [ListParticipantsHandler]
    && Slot(reg, ListMessagesType).queryHandlers == [ListMessagesHandler]
    && ModeratorRooms(reg) == {}
    && ModeratorsShareRoom(reg)
  }

  /** The fixture: everything fresh, the five handlers registered, both
      rooms empty, and one empty recording output per participant. */
  method SetUp() returns (med: Mediator, room1: ChatRoom, room2: ChatRoom, writers: MessageWriters,
                          bob: Participant, alice: Participant, numpty: Participant)
    ensures fresh(med) && fresh(med.registry) && fresh(room1) && fresh(room2) && fresh(writers)
    ensures room1 != room2
    ensures med.registry.handlers == StandardRegistry()
    ensures room1.name == "Room 1" && room1.participants == [] && room1.messages == []
    ensures room2.name == "Room 2" && room2.participants == [] && room2.messages == []
    ensures writers.outputs == map[Bob := [], Alice := [], Numpty := []]
    ensures bob.mediator == med && alice.mediator == med && numpty.mediator == med
    ensures bob.id == Bob && alice.id == Alice && numpty.id == Numpty
    ensures med.Valid()
  {
    med := new Mediator();
    writers := new MessageWriters({Bob, Alice, Numpty});
    assert writers.outputs == map[Bob := [], Alice := [], Numpty := []];
    room1 := new ChatRoom("Room 1");
    room2 := new ChatRoom("Room 2");
    med.RegisterCommandHandler(JoinHandler);
    med.RegisterCommandHandler(LeaveHandler);
    med.RegisterCommandHandler(SendHandler);
    med.RegisterQueryHandler(ListParticipantsHandler);
    med.RegisterQueryHandler(ListMessagesHandler);
    StandardRegistryBuilt();
    bob := new Participant(med, Bob);
    alice := new Participant(med, Alice);
    numpty := new Participant(med, Numpty);
  }

  /** The fixture's registry, possibly with moderators added: the standard
      join and leave handlers alone under their types, an entry for every
      command type, and the moderator rooms among `rooms`. Sending a
      command then leaves the registry as it is. */
  ghost predicate Serves(reg: Registry, rooms: set<ChatRoom>)
  {
    && JoinChatRoomType in reg && LeaveChatRoomType in reg && SendChatMessageType in reg
    && Slot(reg, JoinChatRoomType).commandHandlers == [JoinHandler]
    && Slot(reg, LeaveChatRoomType).commandHandlers == [LeaveHandler]
    && ModeratorsShareRoom(reg) && ModeratorRooms(reg) <= rooms
  }

  /** Join through the participant: appended to the room; no other room and
      no output changes. */
  method JoinStep(p: Participant, room: ChatRoom, writers: MessageWriters, now: nat, ghost rooms: set<ChatRoom>)
    requires Serves(p.mediator.registry.handlers, rooms) && room in rooms
    modifies p.mediator.registry, rooms, writers
    ensures p.mediator.registry.handlers == old(p.mediator.registry.handlers)
    ensures room.participants == old(room.participants) + [p.id] && room.messages == old(room.messages)
    ensures forall r | r in rooms && r != room :: r.participants == old(r.participants) && r.messages == old(r.messages)
    ensures writers.outputs == old(writers.outputs)
  {
    ghost var w := Observe(rooms, writers);
    var res := p.Join(room, writers, now, rooms);
    JoinDispatch(p.mediator.registry.handlers, room, p.id, now, w);
    assert forall r | r in rooms :: Observe(rooms, writers).rooms[r] == r.State();
  }

  /** Leave through the participant: its first occurrence removed from the
      room; no other room and no output changes. */
  method LeaveStep(p: Participant, room: ChatRoom, writers: MessageWriters, now: nat, ghost rooms: set<ChatRoom>)
    requires Serves(p.mediator.registry.handlers, rooms) && room in rooms
    modifies p.mediator.registry, rooms, writers
    ensures p.mediator.registry.handlers == old(p.mediator.registry.handlers)
    ensures room.participants == RemoveFirst(old(room.participants), p.id) && room.messages == old(room.messages)
    ensures forall r | r in rooms && r != room :: r.participants == old(r.participants) && r.messages == old(r.messages)
    ensures writers.outputs == old(writers.outputs)
  {
    ghost var w := Observe(rooms, writers);
    var res := p.Leave(room, writers, now, rooms);
    LeaveDispatch(p.mediator.registry.handlers, room, p.id, now, w);
    assert forall r | r in rooms :: Observe(rooms, writers).rooms[r] == r.State();
  }

  /** SendMessageTo with only the send handler registered for sends: the
      message recorded in the room and broadcast to its participants; no
      other room changes. */
  method SendStep(p: Participant, room: ChatRoom, text: string, writers: MessageWriters, now: nat, ghost rooms: set<ChatRoom>)
    requires Serves(p.mediator.registry.handlers, rooms) && room in rooms
    requires Slot(p.mediator.registry.handlers, SendChatMessageType).commandHandlers == [SendHandler]
    modifies p.mediator.registry, rooms, writers
    ensures p.mediator.registry.handlers == old(p.mediator.registry.handlers)
    ensures room.messages == old(room.messages) + [ChatMessage(p.id, text, now)]
    ensures room.participants == old(room.participants)
    ensures forall r | r in rooms && r != room :: r.participants == old(r.participants) && r.messages == old(r.messages)
    ensures writers.outputs.Keys == old(writers.outputs).Keys
    ensures forall q | q in old(writers.outputs) ::
              writers.outputs[q] == old(writers.outputs)[q] + Repeat(Line(room, ChatMessage(p.id, text, now)), Count(room.participants, q))
  {
    ghost var w := Observe(rooms, writers);
    var res := p.SendMessageTo(room, Some(text), writers, now, rooms);
    SendDispatch(p.mediator.registry.handlers, room, ChatMessage(p.id, text, now), now, w);
    assert forall r | r in rooms :: Observe(rooms, writers).rooms[r] == r.State();
    forall q | q in w.outputs
      ensures writers.outputs[q] == w.outputs[q] + Repeat(Line(room, ChatMessage(p.id, text, now)), Count(room.participants, q))
    {
      RecordedDelivers(w, room, ChatMessage(p.id, text, now), q);
    }
  }

  /** The same send issued by another component straight to the mediator. */
  method MediatorSendStep(med: Mediator, room: ChatRoom, m: ChatMessage, writers: MessageWriters, now: nat, ghost rooms: set<ChatRoom>)
    requires Serves(med.registry.handlers, rooms) && room in rooms
    requires Slot(med.registry.handlers, SendChatMessageType).commandHandlers == [SendHandler]
    modifies med.registry, rooms, writers
    ensures med.registry.handlers == old(med.registry.handlers)
    ensures room.messages == old(room.messages) + [m]
    ensures room.participants == old(room.participants)
    ensures forall r | r in rooms && r != room :: r.participants == old(r.participants) && r.messages == old(r.messages)
    ensures writers.outputs.Keys == old(writers.outputs).Keys
    ensures forall q | q in old(writers.outputs) ::
              writers.outputs[q] == old(writers.outputs)[q] + Repeat(Line(room, m), Count(room.participants, q))
  {
    ghost var w := Observe(rooms, writers);
    var cmd := SendChatMessage(room, m);
    assert cmd.Type() == SendChatMessageType;
    med.SendCommand(cmd, writers, now, rooms);
    SendDispatch(med.registry.handlers, room, m, now, w);
    assert forall r | r in rooms :: Observe(rooms, writers).rooms[r] == r.State();
    forall q | q in w.outputs
      ensures writers.outputs[q] == w.outputs[q] + Repeat(Line(room, m), Count(room.participants, q))
    {
      RecordedDelivers(w, room, m, q);
    }
  }

  /** SendMessageTo with the send handler and then `mod` registered for
      sends: the message recorded in its room, and the moderator room gains
      the moderator's report exactly when the moderator intervenes. */
  method ModeratedSendStep(p: Participant, mod: Moderator, room: ChatRoom, text: string, writers: MessageWriters,
                           now: nat, ghost rooms: set<ChatRoom>)
    requires Serves(p.mediator.registry.handlers, rooms) && room in rooms && mod.room in rooms && room != mod.room
    requires Slot(p.mediator.registry.handlers, SendChatMessageType).commandHandlers == [SendHandler, ModeratorHandler(mod)]
    modifies p.mediator.registry, rooms, writers
    ensures p.mediator.registry.handlers == old(p.mediator.registry.handlers)
    ensures room.messages == old(room.messages) + [ChatMessage(p.id, text, now)]
    ensures room.participants == old(room.participants)
    ensures mod.room.messages ==
              old(mod.room.messages)
              + (var cmd := SendChatMessage(room, ChatMessage(p.id, text, now));
                 if Intervenes(mod, cmd) then [Report(mod, cmd, now)] else [])
  {
    ghost var w := Observe(rooms, writers);
    var res := p.SendMessageTo(room, Some(text), writers, now, rooms);
    ModeratorLogsOneReport(p.mediator.registry.handlers, mod, room, ChatMessage(p.id, text, now), now, w);
    assert Observe(rooms, writers).rooms[room] == room.State();
    assert Observe(rooms, writers).rooms[mod.room] == mod.room.State();
  }

  /** The standard registry serves the fixture's rooms. */
  lemma StandardServes(rooms: set<ChatRoom>)
    ensures Serves(StandardRegistry(), rooms)
    ensures Slot(StandardRegistry(), SendChatMessageType).commandHandlers == [SendHandler]
  {
    StandardRegistryIsStandard(JoinChatRoomType);
  }

  /** A participant can list the participants that joined a room: Bob and
      Alice, in join order, and not Numpty, who joined the other room. */
  method ListingParticipants(now: nat) returns (r: Result<seq<ParticipantId>>)
    ensures r == Ok([Bob, Alice])
  {
    var med, room1, room2, writers, bob, alice, numpty := SetUp();
    ghost var rooms := {room1, room2};
    StandardServes(rooms);
    JoinStep(bob, room1, writers, now, rooms);
    JoinStep(alice, room1, writers, now, rooms);
    assert room1.participants == [Bob, Alice];
    JoinStep(bob, room2, writers, now, rooms);
    JoinStep(numpty, room2, writers, now, rooms);
    assert room1.participants == [Bob, Alice];
    StandardRegistryIsStandard(ListParticipantsType);
    r := bob.ListParticipantsOf(room1);
  }

  /** Messages sent before a participant joined are listed to it: Alice
      sees Bob's greeting. */
  method ListingEarlierMessages(now: nat) returns (r: Result<seq<ChatMessage>>)
    ensures r == Ok([ChatMessage(Bob, "Hello!", now)])
  {
    var med, room1, room2, writers, bob, alice, numpty := SetUp();
    ghost var rooms := {room1, room2};
    StandardServes(rooms);
    JoinStep(bob, room1, writers, now, rooms);
    SendStep(bob, room1, "Hello!", writers, now, rooms);
    JoinStep(alice, room1, writers, now, rooms);
    assert room1.messages == [ChatMessage(Bob, "Hello!", now)];
    StandardRegistryIsStandard(ListMessagesType);
    r := alice.ListMessagesOf(room1);
  }

  /** A member receives a new message in the room it was sent to, once, and
      nothing for the other room it joined. */
  method ReceivingNewMessages(now: nat) returns (room1: ChatRoom, aliceOutput: seq<Line>)
    ensures aliceOutput == [Line(room1, ChatMessage(Bob, "Hello!", now))]
  {
    var med, room2, writers, bob, alice, numpty;
    med, room1, room2, writers, bob, alice, numpty := SetUp();
    ghost var rooms := {room1, room2};
    StandardServes(rooms);
    JoinStep(bob, room1, writers, now, rooms);
    JoinStep(alice, room1, writers, now, rooms);
    JoinStep(alice, room2, writers, now, rooms);
    assert room1.participants == [Bob, Alice];
    SendStep(bob, room1, "Hello!", writers, now, rooms);
    CountDistinct([Bob, Alice], Alice);
    aliceOutput := writers.outputs[Alice];
  }

  /** The leaving test's joins: Bob, Alice and Numpty join room 1, and no
      output has received anything yet. */
  method ThreeJoined(now: nat) returns (med: Mediator, room1: ChatRoom, room2: ChatRoom, writers: MessageWriters,
                                        bob: Participant, alice: Participant)
    ensures fresh(med.registry) && fresh(room1) && fresh(room2) && fresh(writers) && room1 != room2
    ensures Serves(med.registry.handlers, {room1, room2})
    ensures Slot(med.registry.handlers, SendChatMessageType).commandHandlers == [SendHandler]
    ensures bob.mediator == med && alice.mediator == med && bob.id == Bob && alice.id == Alice
    ensures room1.participants == [Bob, Alice, Numpty]
    ensures writers.outputs == map[Bob := [], Alice := [], Numpty := []]
  {
    var numpty;
    med, room1, room2, writers, bob, alice, numpty := SetUp();
    ghost var rooms := {room1, room2};
    StandardServes(rooms);
    JoinStep(bob, room1, writers, now, rooms);
    JoinStep(alice, room1, writers, now, rooms);
    JoinStep(numpty, room1, writers, now, rooms);
  }

  /** The first half of the leaving test: after the three joins, Bob's
      greeting reaches Alice and Numpty once each. */
  method ThreeGreeted(now: nat) returns (med: Mediator, room1: ChatRoom, room2: ChatRoom, writers: MessageWriters,
                                         bob: Participant, alice: Participant)
    ensures fresh(med.registry) && fresh(room1) && fresh(room2) && fresh(writers) && room1 != room2
    ensures Serves(med.registry.handlers, {room1, room2})
    ensures Slot(med.registry.handlers, SendChatMessageType).commandHandlers == [SendHandler]
    ensures bob.mediator == med && alice.mediator == med && bob.id == Bob && alice.id == Alice
    ensures room1.participants == [Bob, Alice, Numpty]
    ensures Alice in writers.outputs && Numpty in writers.outputs
    ensures writers.outputs[Alice] == [Line(room1, ChatMessage(Bob, "Hello!", now))]
    ensures writers.outputs[Numpty] == [Line(room1, ChatMessage(Bob, "Hello!", now))]
  {
    med, room1, room2, writers, bob, alice := ThreeJoined(now);
    SendStep(bob, room1, "Hello!", writers, now, {room1, room2});
    CountDistinct([Bob, Alice, Numpty], Alice);
    CountDistinct([Bob, Alice, Numpty], Numpty);
    ghost var greeting := Line(room1, ChatMessage(Bob, "Hello!", now));
    assert Repeat(greeting, 1) == [greeting];
  }

  /** After Alice leaves, Bob's second message reaches Numpty but not her:
      her output still holds only the greeting. */
  method NoMessagesAfterLeaving(now: nat) returns (room1: ChatRoom, aliceOutput: seq<Line>, numptyOutput: seq<Line>)
    ensures aliceOutput == [Line(room1, ChatMessage(Bob, "Hello!", now))]
    ensures numptyOutput == [Line(room1, ChatMessage(Bob, "Hello!", now)),
                             Line(room1, ChatMessage(Bob, "This should not reach Garner", now))]
  {
    var med, room2, writers, bob, alice;
    med, room1, room2, writers, bob, alice := ThreeGreeted(now);
    ghost var rooms := {room1, room2};
    LeaveStep(alice, room1, writers, now, rooms);
    RemoveFirstAt([Bob, Alice, Numpty], Alice, 1);
    assert room1.participants == [Bob, Numpty];
    SendStep(bob, room1, "This should not reach Garner", writers, now, rooms);
    CountDistinct([Bob, Numpty], Alice);
    CountDistinct([Bob, Numpty], Numpty);
    aliceOutput := writers.outputs[Alice];
    numptyOutput := writers.outputs[Numpty];
  }

  /** Another component can send commands through the mediator directly,
      with the same effect as the participant's own send. */
  method SendingThroughMediator(now: nat) returns (room1: ChatRoom, aliceOutput: seq<Line>)
    ensures aliceOutput == [Line(room1, ChatMessage(Bob, "Hello!", now))]
  {
    var med, room2, writers, bob, alice, numpty;
    med, room1, room2, writers, bob, alice, numpty := SetUp();
    ghost var rooms := {room1, room2};
    StandardServes(rooms);
    JoinStep(bob, room1, writers, now, rooms);
    JoinStep(alice, room1, writers, now, rooms);
    JoinStep(alice, room2, writers, now, rooms);
    assert room1.participants == [Bob, Alice];
    MediatorSendStep(med, room1, ChatMessage(Bob, "Hello!", now), writers, now, rooms);
    CountDistinct([Bob, Alice], Alice);
    aliceOutput := writers.outputs[Alice];
  }

  /** Registering a moderator after the standard handlers puts it second
      under SendChatMessage and keeps the registry serving the rooms. */
  lemma ModeratedServes(mod: Moderator, rooms: set<ChatRoom>)
    requires mod.room in rooms
    ensures Serves(WithCommandHandler(StandardRegistry(), ModeratorHandler(mod)), rooms)
    ensures Slot(WithCommandHandler(StandardRegistry(), ModeratorHandler(mod)), SendChatMessageType).commandHandlers
            == [SendHandler, ModeratorHandler(mod)]
  {
    var reg := WithCommandHandler(StandardRegistry(), ModeratorHandler(mod));
    assert [SendHandler] + [ModeratorHandler(mod)] == [SendHandler, ModeratorHandler(mod)];
    assert ModeratorRooms(reg) == {mod.room} by {
      assert ModeratorHandler(mod) in Slot(reg, SendChatMessageType).commandHandlers;
    }
  }

  /** A text holding the banned word, sent by someone else to another room,
      draws a report. */
  lemma BadWordDrawsReport(mod: Moderator, room: ChatRoom, sender: ParticipantId, before: string, after: string, now: nat)
    requires mod.badWords == ["bad"] && sender != mod.id && room != mod.room
    ensures Intervenes(mod, SendChatMessage(room, ChatMessage(sender, before + "bad" + after, now)))
  {
    ContainsInfix(before, "bad", after);
    assert "bad" in mod.badWords;
  }

  /** The moderator test's setup: the fixture, a moderator room, a
      moderator for the word "bad" registered after the standard handlers,
      Bob and Alice in room 1 and Alice also in room 2. */
  method ModeratedFixture(now: nat) returns (room1: ChatRoom, room2: ChatRoom, moderatorRoom: ChatRoom,
                                             writers: MessageWriters, bob: Participant, alice: Participant)
    ensures fresh(bob.mediator.registry) && fresh(room1) && fresh(room2) && fresh(moderatorRoom) && fresh(writers)
    ensures room1 != room2 && room1 != moderatorRoom && room2 != moderatorRoom
    ensures alice.mediator == bob.mediator && bob.id == Bob && alice.id == Alice
    ensures var reg := bob.mediator.registry.handlers;
            && Serves(reg, {room1, room2, moderatorRoom})
            && Slot(reg, SendChatMessageType).commandHandlers
               == [SendHandler, ModeratorHandler(Moderator(ModeratorId, moderatorRoom, ["bad"]))]
    ensures moderatorRoom.messages == []
  {
    var med, numpty;
    med, room1, room2, writers, bob, alice, numpty := SetUp();
    moderatorRoom := new ChatRoom("Moderator Room");
    var mod := Moderator(ModeratorId, moderatorRoom, ["bad"]);
    med.RegisterCommandHandler(ModeratorHandler(mod));
    ghost var rooms := {room1, room2, moderatorRoom};
    ModeratedServes(mod, rooms);
    JoinStep(bob, room1, writers, now, rooms);
    JoinStep(alice, room1, writers, now, rooms);
    JoinStep(alice, room2, writers, now, rooms);
  }

  /** The moderator test's first send: Bob's "Hello bad!" to room 1 draws
      one report into the moderator room. */
  method FirstReport(now: nat) returns (room1: ChatRoom, room2: ChatRoom, moderatorRoom: ChatRoom,
                                        writers: MessageWriters, alice: Participant)
    ensures fresh(alice.mediator.registry) && fresh(room1) && fresh(room2) && fresh(moderatorRoom) && fresh(writers)
    ensures room1 != room2 && room1 != moderatorRoom && room2 != moderatorRoom
    ensures alice.id == Alice
    ensures var reg := alice.mediator.registry.handlers;
            && Serves(reg, {room1, room2, moderatorRoom})
            && Slot(reg, SendChatMessageType).commandHandlers
               == [SendHandler, ModeratorHandler(Moderator(ModeratorId, moderatorRoom, ["bad"]))]
    ensures moderatorRoom.messages ==
              [Report(Moderator(ModeratorId, moderatorRoom, ["bad"]),
                      SendChatMessage(room1, ChatMessage(Bob, "Hello bad!", now)), now)]
  {
    var bob;
    room1, room2, moderatorRoom, writers, bob, alice := ModeratedFixture(now);
    var mod := Moderator(ModeratorId, moderatorRoom, ["bad"]);
    BadWordDrawsReport(mod, room1, Bob, "Hello ", "!", now);
    assert "Hello " + "bad" + "!" == "Hello bad!";
    ModeratedSendStep(bob, mod, room1, "Hello bad!", writers, now, {room1, room2, moderatorRoom});
  }

  /** Multiple handlers can react to one command: the moderator, registered
      for SendChatMessage beside the standard handler, logs one report in
      its room for each of the two offending messages, in order. */
  method ModeratorReports(now: nat) returns (room1: ChatRoom, room2: ChatRoom, moderatorRoom: ChatRoom,
                                             messages: seq<ChatMessage>)
    ensures var mod := Moderator(ModeratorId, moderatorRoom, ["bad"]);
            messages == [Report(mod, SendChatMessage(room1, ChatMessage(Bob, "Hello bad!", now)), now),
                         Report(mod, SendChatMessage(room2, ChatMessage(Alice, "bad Hello!", now)), now)]
    ensures |messages| == 2
    ensures forall i | 0 <= i < |messages| ::
              messages[i].sender == ModeratorId
              && |messages[i].text| >= |"Bad word found"| && messages[i].text[..|"Bad word found"|] == "Bad word found"
  {
    var writers, alice;
    room1, room2, moderatorRoom, writers, alice := FirstReport(now);
    var mod := Moderator(ModeratorId, moderatorRoom, ["bad"]);
    BadWordDrawsReport(mod, room2, Alice, "", " Hello!", now);
    assert "" + "bad" + " Hello!" == "bad Hello!";
    ModeratedSendStep(alice, mod, room2, "bad Hello!", writers, now, {room1, room2, moderatorRoom});
    messages := moderatorRoom.ListMessages();
  }
}
