/**
 * The chat request handler: it validates the request, finds the session, parses the
 * command, possibly sets the topic, advances the round counter, runs the round and
 * stores the session with its updated record. The default speaking order is an input,
 * and so is the failure of the storage step, which the handler reports as one
 * model-less `error` event.
 */
module ChatRoute {
  import opened Wrappers
  import opened Types
  import opened Router
  import opened Orchestrator
  import opened Storage

  datatype ChatResponse =
    | Rejected(status: nat, error: string)   // a JSON error reply, no round is run
    | Streamed(events: seq<Event>)           // the event stream of a round

  const MissingFieldsError: string := "sessionId and message are required"
  const NotFoundError: string := "Session not found"

  /** A field of the request body that is absent or the empty string (falsy). */
  predicate Missing(field: Option<string>)
  {
    field.None? || field.value == ""
  }

  /** The reply of a request that runs no round: 400 for a missing field, 404 for an
      unknown session; `None` when the request goes on to a round. */
  function Rejection(sessionId: Option<string>, message: Option<string>, sessions: seq<Session>): (r: Option<ChatResponse>)
    ensures Missing(sessionId) || Missing(message) ==> r == Some(Rejected(400, MissingFieldsError))
    ensures !Missing(sessionId) && !Missing(message) ==>
              (r == Some(Rejected(404, NotFoundError)) <==> Find(sessions, sessionId.value).None?)
    ensures r.None? <==> !Missing(sessionId) && !Missing(message) && Find(sessions, sessionId.value).Some?
  {
    if Missing(sessionId) || Missing(message) then Some(Rejected(400, MissingFieldsError))
    else if Find(sessions, sessionId.value).None? then Some(Rejected(404, NotFoundError))
    else None
  }

  /** The topic after the command: a new topic for `@all`, or for an ordinary message on a
      session that has had no round yet; the command's content when it has one, otherwise
      the whole message. */
  function NextTopic(command: ParsedCommand, currentRound: nat, message: string, topic: string): string
  {
    if command.kind == All || (currentRound == 0 && command.kind == Normal) then
      (if command.content != "" then command.content else message)
    else topic
  }

  /** The topic is replaced exactly for `@all`, and for an ordinary message on a session
      that has had no round yet. `@all` sets the command's content, or the whole message
      when that is empty; the first ordinary message becomes the topic as typed; every
      other command keeps the topic. */
  lemma TopicOfMessages(message: string, currentRound: nat, topic: string)
    ensures ParseCommand(message).kind == All ==>
              NextTopic(ParseCommand(message), currentRound, message, topic)
              == if ParseCommand(message).content != "" then ParseCommand(message).content else message
    ensures ParseCommand(message).kind == Normal && currentRound == 0 ==>
              NextTopic(ParseCommand(message), currentRound, message, topic) == message
    ensures ParseCommand(message).kind == Normal && currentRound > 0 ==>
              NextTopic(ParseCommand(message), currentRound, message, topic) == topic
    ensures ParseCommand(message).kind != All && ParseCommand(message).kind != Normal ==>
              NextTopic(ParseCommand(message), currentRound, message, topic) == topic
  {
  }

  /** `@all` with nothing after it makes the whole message the topic. */
  lemma BareAllTopic(currentRound: nat, topic: string)
    ensures NextTopic(ParseCommand("@all "), currentRound, "@all ", topic) == "@all "
  {
    ParseAll("");
    assert AllMarker + "" == "@all ";
  }

  /** The session as the round receives it: the topic possibly replaced and the round
      counter advanced by one. */
  function Prepared(session: Session, command: ParsedCommand, message: string): Session
  {
    var topic := NextTopic(command, session.currentRound, message, session.record.outline.topic);
    session.(record := session.record.(outline := session.record.outline.(topic := topic)),
             currentRound := session.currentRound + 1)
  }

  /** What a request for a found session produces: the session to store, the round's
      messages and its events. */
  datatype Outcome = Outcome(session: Session, messages: seq<RoundMessage>, events: seq<Event>)

  function Advance(cfg: Config, defaultOrder: seq<string>, session: Session, message: string): Outcome
  {
    var command := ParseCommand(message);
    var prepared := Prepared(session, command, message);
    var st := Turns(cfg, command.promptInjection, ContextPrompt(prepared.record),
                    RoundState([RoundMessage(UserSpeaker, message)], []), GetParticipants(command, defaultOrder));
    var updated := UpdatedRecord(cfg, prepared.record, st.messages, prepared.currentRound);
    Outcome(prepared.(record := updated), st.messages, st.events + [RoundDone(prepared.currentRound, updated)])
  }

  /** A request advances the session by exactly one round and numbers the round with the
      advanced counter; the stored session keeps its id, title and creation time and
      carries the record of the round's `round_done`, which is the last event and the only
      one; the round starts with the user's message. */
  lemma AdvanceSpec(cfg: Config, defaultOrder: seq<string>, session: Session, message: string)
    ensures var o := Advance(cfg, defaultOrder, session, message);
            && o.session.currentRound == session.currentRound + 1
            && o.session.id == session.id && o.session.title == session.title && o.session.createdAt == session.createdAt
            && |o.events| >= 1
            && o.events[|o.events| - 1] == RoundDone(session.currentRound + 1, o.session.record)
            && (forall i :: 0 <= i < |o.events| - 1 ==> !o.events[i].RoundDone?)
            && |o.messages| >= 1 && o.messages[0] == RoundMessage(UserSpeaker, message)
  {
    var command := ParseCommand(message);
    var prepared := Prepared(session, command, message);
    RoundSpec(cfg, message, command.promptInjection, GetParticipants(command, defaultOrder), prepared.record,
              prepared.currentRound);
  }

  /** The handler. `sessionId` and `message` are the request body's fields (`None` when
      absent); `saveFailure` is the error the storing of the session raises, if any, and
      `appendFailure` the error the appending to the Markdown file raises, if any. */
  method PostChat(store: SessionStore, cfg: Config, defaultOrder: seq<string>,
                  sessionId: Option<string>, message: Option<string>,
                  saveFailure: Option<string>, appendFailure: Option<string>)
    returns (response: ChatResponse)
    modifies store
    ensures var rejection := Rejection(sessionId, message, old(store.sessions));
            rejection.Some? ==> response == rejection.value && store.sessions == old(store.sessions)
                                && store.markdown == old(store.markdown)
    ensures var rejection := Rejection(sessionId, message, old(store.sessions));
            rejection.None? ==>
              var o := Advance(cfg, defaultOrder, Find(old(store.sessions), sessionId.value).value, message.value);
              if saveFailure.Some? then
                && response == Streamed(o.events + [Error(None, saveFailure.value)])
                && store.sessions == old(store.sessions) && store.markdown == old(store.markdown)
              else if appendFailure.Some? then
                && response == Streamed(o.events + [Error(None, appendFailure.value)])
                && store.sessions == ReplaceFirst(old(store.sessions), o.session)
                && store.markdown == old(store.markdown)
              else
                && response == Streamed(o.events)
                && store.sessions == ReplaceFirst(old(store.sessions), o.session)
                && store.markdown == if sessionId.value in old(store.markdown)
                                     then old(store.markdown)[sessionId.value := old(store.markdown)[sessionId.value]
                                          + RoundBlock(o.session.currentRound, o.messages, o.session.record)]
                                     else old(store.markdown)
  {
    if sessionId.None? || sessionId.value == "" || message.None? || message.value == "" {
      return Rejected(400, MissingFieldsError);
    }
    var id := sessionId.value;
    var text := message.value;
    var found := store.GetSession(id);
    if found.None? {
      return Rejected(404, NotFoundError);
    }
    var session := found.value;
    assert found == Find(old(store.sessions), id);
    ghost var outcome := Advance(cfg, defaultOrder, found.value, text);
    var command := ParseCommand(text);
    if command.kind == All || (session.currentRound == 0 && command.kind == Normal) {
      var topic := if command.content != "" then command.content else text;
      session := session.(record := session.record.(outline := session.record.outline.(topic := topic)));
    }
    var participants := GetParticipants(command, defaultOrder);
    session := session.(currentRound := session.currentRound + 1);
    assert session == Prepared(found.value, command, text);
    var messages, updatedRecord, events := ExecuteRound(cfg, text, command, participants, session.record, session.currentRound);
    session := session.(record := updatedRecord);
    assert outcome.messages == messages && outcome.events == events;
    assert outcome.session == session;
    if saveFailure.Some? {
      events := events + [Error(None, saveFailure.value)];
    } else {
      store.UpdateSession(session);
      if appendFailure.Some? {
        events := events + [Error(None, appendFailure.value)];
      } else {
        store.AppendRoundToMarkdown(id, session.currentRound, messages, updatedRecord);
      }
    }
    response := Streamed(events);
  }
}
