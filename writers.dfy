/** The message sinks of the participants: IMessageWriter, whose recording
    implementation TestMessageWriter (Patterns/CQRS/Program.cs) appends every
    (room, message) pair it is given to its Output list. All sinks are held
    by one MessageWriters object, one output list per participant that has
    a recording writer; a participant without an entry has a writer that
    discards what it is given (the moderator's EmptyMessageWriter). */
module Writers {
  import opened ChatRooms

  /** One entry of a recording writer's Output: the room and the message. */
  datatype Line = Line(room: ChatRoom, message: ChatMessage)

  type Outputs = map<ParticipantId, seq<Line>>

  /** The effect of handing `line` to participant `p`'s writer. */
  function Notify(outs: Outputs, p: ParticipantId, line: Line): (r: Outputs)
    ensures r.Keys == outs.Keys
    ensures p in outs ==> r[p] == outs[p] + [line]
    ensures forall q :: q in outs && q != p ==> r[q] == outs[q]
  {
    if p in outs then outs[p := outs[p] + [line]] else outs
  }

  /** Notifying every entry of `ps`, in list order, of message `m` in `room`. */
  function Broadcast(outs: Outputs, room: ChatRoom, ps: seq<ParticipantId>, m: ChatMessage): (r: Outputs)
    ensures r.Keys == outs.Keys
    decreases |ps|
  {
    if ps == [] then outs
    else Notify(Broadcast(outs, room, ps[..|ps| - 1], m), ps[|ps| - 1], Line(room, m))
  }

  /** How often `q` occurs in `ps`. */
  function Count(ps: seq<ParticipantId>, q: ParticipantId): nat
    decreases |ps|
  {
    if ps == [] then 0
    else Count(ps[..|ps| - 1], q) + (if ps[|ps| - 1] == q then 1 else 0)
  }

  /** `n` copies of `line`. */
  function Repeat(line: Line, n: nat): (r: seq<Line>)
    ensures |r| == n
    ensures forall k :: 0 <= k < n ==> r[k] == line
  {
    if n == 0 then [] else Repeat(line, n - 1) + [line]
  }

  /** A broadcast appends to each recording participant's output exactly one
      line (room, m) per occurrence of that participant in the list: a
      participant listed twice is notified twice, one not listed not at all. */
  lemma {:induction false} BroadcastDelivers(outs: Outputs, room: ChatRoom, ps: seq<ParticipantId>, m: ChatMessage, q: ParticipantId)
    requires q in outs
    ensures Broadcast(outs, room, ps, m)[q] == outs[q] + Repeat(Line(room, m), Count(ps, q))
  {
    if ps != [] {
      BroadcastDelivers(outs, room, ps[..|ps| - 1], m, q);
    }
  }

  /** Count agrees with membership: a participant not in the list is never
      notified, one in it at least once. */
  lemma {:induction false} CountMembership(ps: seq<ParticipantId>, q: ParticipantId)
    ensures Count(ps, q) > 0 <==> q in ps
  {
    if ps != [] {
      CountMembership(ps[..|ps| - 1], q);
      assert ps == ps[..|ps| - 1] + [ps[|ps| - 1]];
    }
  }

  /** Count over a list whose entries are pairwise distinct is at most one. */
  lemma {:induction false} CountDistinct(ps: seq<ParticipantId>, q: ParticipantId)
    requires forall i, j :: 0 <= i < j < |ps| ==> ps[i] != ps[j]
    ensures Count(ps, q) == if q in ps then 1 else 0
  {
    if ps != [] {
      var init := ps[..|ps| - 1];
      CountDistinct(init, q);
      CountMembership(init, q);
      assert ps == init + [ps[|ps| - 1]];
    }
  }

  /** All recording writers of the participants. */
  class MessageWriters {
    var outputs: Outputs

    /** One empty Output per participant given a TestMessageWriter. */
    constructor (recording: set<ParticipantId>)
      ensures outputs.Keys == recording
      ensures forall p :: p in recording ==> outputs[p] == []
    {
      outputs := map p | p in recording :: [];
    }

    /** NewMessageReceivedFrom followed by IMessageWriter.Write: a recording
        writer appends the pair to its Output; any other writer does nothing. */
    method Write(p: ParticipantId, room: ChatRoom, m: ChatMessage)
      modifies this
      ensures outputs == Notify(old(outputs), p, Line(room, m))
    {
      if p in outputs {
        outputs := outputs[p := outputs[p] + [Line(room, m)]];
      }
    }
  }
}
