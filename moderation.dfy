/** The decision logic of ChatModerator (Patterns/CQRS/Program.cs): a
    participant that is also a second handler for SendChatMessage, reports
    every message containing a banned word to its own moderator room, and
    ignores its own reports and anything sent to that room. Its Handle
    method, which dispatches the report back into the mediator, is
    Mediation.Mediator.Moderate. */
module Moderation {
  import opened ChatRooms
  import opened Commands

  /** A moderator: its identity as a participant, its moderator room and its
      banned words. */
  datatype Moderator = Moderator(id: ParticipantId, room: ChatRoom, badWords: seq<string>)

  /** `word` occurs in `text` starting at position `i`. */
  predicate OccursAt(text: string, word: string, i: nat)
  {
    i + |word| <= |text| && text[i..i + |word|] == word
  }

  /** Ordinal String.Contains: `word` occurs in `text` at some position (the
      empty word occurs in every text). */
  predicate Contains(text: string, word: string)
  {
    exists i: nat | i <= |text| - |word| :: OccursAt(text, word, i)
  }

  /** A word placed anywhere inside a text is found by Contains. */
  lemma ContainsInfix(before: string, word: string, after: string)
    ensures Contains(before + word + after, word)
  {
    var text := before + word + after;
    assert text[|before|..|before| + |word|] == word;
    assert OccursAt(text, word, |before|);
  }

  /** `_badWords.Any(x => text.Contains(x))`. */
  predicate ContainsAnyBadWord(badWords: seq<string>, text: string)
  {
    exists w | w in badWords :: Contains(text, w)
  }

  /** The guard at the top of Handle: a message the moderator sent itself,
      or one sent to the moderator room, is left alone. */
  predicate Ignores(m: Moderator, cmd: Command)
    requires cmd.SendChatMessage?
  {
    cmd.message.sender == m.id || cmd.room == m.room
  }

  /** Handle sends a report exactly when the guard passes and a banned word
      occurs in the text. */
  predicate Intervenes(m: Moderator, cmd: Command)
  {
    cmd.SendChatMessage? && !Ignores(m, cmd) && ContainsAnyBadWord(m.badWords, cmd.message.text)
  }

  /** Decimal digits of a clock reading; C# renders the DateTime with the
      current culture, which is not part of this model. */
  function DateText(d: nat): (s: string)
    ensures |s| > 0
  {
    var digit := ['0' + (d % 10) as char];
    if d < 10 then digit else DateText(d / 10) + digit
  }

  /** The report's text: who sent the offending message, when, in which
      room, and the message itself. */
  function ReportText(cmd: Command): (s: string)
    requires cmd.SendChatMessage?
    ensures |s| >= |"Bad word found"| && s[..|"Bad word found"|] == "Bad word found"
  {
    "Bad word found in message sent by '" + cmd.message.sender.name
      + "' on '" + DateText(cmd.message.date)
      + "' in room '" + cmd.room.name
      + "'\n> " + cmd.message.text
  }

  /** The report message, created by the moderator at clock reading `now`. */
  function Report(m: Moderator, cmd: Command, now: nat): (r: ChatMessage)
    requires cmd.SendChatMessage?
    ensures r.sender == m.id && r.date == now
    ensures |r.text| >= |"Bad word found"| && r.text[..|"Bad word found"|] == "Bad word found"
  {
    ChatMessage(m.id, ReportText(cmd), now)
  }

  /** The report command: sent to the moderator room with the moderator as
      sender, so the moderator's own guard ignores it. This is what bounds
      the nesting of dispatches. */
  lemma ReportIsIgnored(m: Moderator, cmd: Command, now: nat)
    requires cmd.SendChatMessage?
    ensures !Intervenes(m, SendChatMessage(m.room, Report(m, cmd, now)))
  {
  }
}
