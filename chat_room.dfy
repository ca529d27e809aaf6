/** The chat-room domain of CQRS/Implementations.cs: participants, messages
    and the ChatRoom object that records both. */
module ChatRooms {
  import opened Base

  /** A participant, identified by a key; the name is what the moderator's
      report quotes. Participants are compared by identity in the source;
      two ParticipantIds are the same participant exactly when equal. */
  datatype ParticipantId = ParticipantId(key: nat, name: string)

  /** An immutable chat message: who sent it, its text, and the clock reading
      taken when it was created. */
  datatype ChatMessage = ChatMessage(sender: ParticipantId, text: string, date: nat)

  /** The ChatMessage constructor. A null sender is rejected first, then a
      null text; `now` is the clock reading the constructor takes. */
  function NewChatMessage(sender: Option<ParticipantId>, text: Option<string>, now: nat): (r: Result<ChatMessage>)
    ensures r.Ok? <==> sender.Some? && text.Some?
    ensures sender.None? ==> r == Err(ArgumentNull("sender"))
    ensures sender.Some? && text.None? ==> r == Err(ArgumentNull("message"))
    ensures r.Ok? ==> r.value.sender == sender.value && r.value.text == text.value && r.value.date == now
  {
    if sender.None? then Err(ArgumentNull("sender"))
    else if text.None? then Err(ArgumentNull("message"))
    else Ok(ChatMessage(sender.value, text.value, now))
  }

  /** List<T>.Remove: `s` without the first occurrence of `x`, and `s`
      itself when `x` does not occur. */
  function RemoveFirst<T(==)>(s: seq<T>, x: T): (r: seq<T>)
    ensures x !in s ==> r == s
    ensures x in s ==> |r| == |s| - 1
  {
    if s == [] then []
    else if s[0] == x then s[1..]
    else [s[0]] + RemoveFirst(s[1..], x)
  }

  /** Removal takes away one copy of `x`, if there is one, and nothing else. */
  lemma {:induction false} RemoveFirstMultiset<T>(s: seq<T>, x: T)
    ensures multiset(RemoveFirst(s, x)) == multiset(s) - multiset{x}
  {
    if s != [] {
      assert s == [s[0]] + s[1..];
      if s[0] != x {
        RemoveFirstMultiset(s[1..], x);
      }
    }
  }

  /** Removal cuts out exactly the first occurrence, at position `i`, and
      keeps every later one in place. */
  lemma {:induction false} RemoveFirstAt<T>(s: seq<T>, x: T, i: nat)
    requires i < |s| && s[i] == x && x !in s[..i]
    ensures RemoveFirst(s, x) == s[..i] + s[i + 1..]
  {
    if i == 0 {
      assert s[..0] + s[1..] == s[1..];
    } else {
      var t := s[1..];
      assert t[..i - 1] == s[1..i];
      assert s[0] == s[..i][0];
      RemoveFirstAt(t, x, i - 1);
      assert s[..i] == [s[0]] + t[..i - 1];
      assert s[i + 1..] == t[i..];
    }
  }

  /** Appending a newcomer and then removing it gives back the list. */
  lemma {:induction false} RemoveFirstAfterAppend<T>(s: seq<T>, x: T)
    requires x !in s
    ensures RemoveFirst(s + [x], x) == s
  {
    if s == [] {
      assert s + [x] == [x];
    } else {
      assert (s + [x])[1..] == s[1..] + [x];
      RemoveFirstAfterAppend(s[1..], x);
      assert s == [s[0]] + s[1..];
    }
  }

  /** What a room holds at one moment. */
  datatype RoomState = RoomState(participants: seq<ParticipantId>, messages: seq<ChatMessage>)

  /** ChatRoom: a name, the participant list and the message log, both
      changed in place. */
  class ChatRoom {
    const name: string
    var participants: seq<ParticipantId>
    var messages: seq<ChatMessage>

    constructor (name: string)
      ensures this.name == name
      ensures participants == [] && messages == []
    {
      this.name := name;
      participants := [];
      messages := [];
    }

    /** The room's current lists. */
    function State(): RoomState
      reads this
    {
      RoomState(participants, messages)
    }

    /** Add(IParticipant): appends, duplicates allowed. */
    method AddParticipant(p: ParticipantId)
      modifies this
      ensures participants == old(participants) + [p]
      ensures messages == old(messages)
    {
      participants := participants + [p];
    }

    /** Add(ChatMessage): appends to the log. */
    method AddMessage(m: ChatMessage)
      modifies this
      ensures messages == old(messages) + [m]
      ensures participants == old(participants)
    {
      messages := messages + [m];
    }

    /** Remove(IParticipant): List.Remove searches for the first occurrence
      and deletes it; a non-member leaves the list as it is. */
    method Remove(p: ParticipantId)
      modifies this
      ensures participants == RemoveFirst(old(participants), p)
      ensures messages == old(messages)
    {
      var i := 0;
      while i < |participants| && participants[i] != p
        invariant 0 <= i <= |participants|
        invariant p !in participants[..i]
      {
        assert participants[..i + 1] == participants[..i] + [participants[i]];
        i := i + 1;
      }
      if i < |participants| {
        RemoveFirstAt(participants, p, i);
        participants := participants[..i] + participants[i + 1..];
      }
    }

    /** ListMessages(): the log in insertion order. */
    method ListMessages() returns (r: seq<ChatMessage>)
      ensures r == messages
    {
      r := messages;
    }

    /** ListParticipants(): the members in join order. */
    method ListParticipants() returns (r: seq<ParticipantId>)
      ensures r == participants
    {
      r := participants;
    }
  }
}
