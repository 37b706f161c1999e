/**
 * The in-memory session registry of the chat backend. It keeps two maps:
 * `sessions`, from a session id to that session's ordered chat history, and
 * `sidToSession`, from a socket connection id (sid) to a session id.
 */
module SessionManager {
  import opened Wrappers

  /** A chat-history entry: a message of the AI or of the human user. */
  datatype Message = AI(text: string) | Human(text: string)

  /** The `{type, content}` record a message is serialised to. */
  datatype SerializedMessage = SerializedMessage(kind: string, content: string)

  /** What `getSessionMessages` resolves to: the serialised history or an error record. */
  datatype MessagesReply = Messages(messages: seq<SerializedMessage>) | NotFound(error: string)

  const DefaultInitialMessage: string := "Helllooo!"
  const SessionNotFound: string := "Session not found."

  /**
   * The greeting every new session starts with: `INITIAL_MESSAGE ?? 'Helllooo!'`.
   * Only a missing setting falls back to the default; an empty one is kept.
   */
  function InitialMessage(configured: Option<string>): (r: string)
    ensures configured.Some? ==> r == configured.value
    ensures configured.None? ==> r == DefaultInitialMessage
  {
    match configured
    case Some(text) => text
    case None => DefaultInitialMessage
  }

  /** A message becomes `{type: 'bot'}` when it is the AI's and `{type: 'user'}` when it is the human's. */
  function SerializeMessage(m: Message): (r: SerializedMessage)
    ensures r.content == m.text
    ensures r.kind == "bot" <==> m.AI?
    ensures r.kind == "user" <==> m.Human?
  {
    match m
    case AI(text) => SerializedMessage("bot", text)
    case Human(text) => SerializedMessage("user", text)
  }

  /** Serialisation loses nothing: the record determines the message. */
  lemma SerializeMessageInjective(m1: Message, m2: Message)
    requires SerializeMessage(m1) == SerializeMessage(m2)
    ensures m1 == m2
  {
  }

  /** `messages.map(serializeMessage)`: one record per message, in history order. */
  function SerializeHistory(history: seq<Message>): (r: seq<SerializedMessage>)
    ensures |r| == |history|
    ensures forall k :: 0 <= k < |history| ==> r[k] == SerializeMessage(history[k])
  {
    seq(|history|, k requires 0 <= k < |history| => SerializeMessage(history[k]))
  }

  /** Appending a message to a history appends its record to the serialised history. */
  lemma SerializeHistoryAppend(history: seq<Message>, m: Message)
    ensures SerializeHistory(history + [m]) == SerializeHistory(history) + [SerializeMessage(m)]
  {
  }

  /** A history that begins with the AI greeting `greeting`. */
  predicate StartsWithGreeting(history: seq<Message>, greeting: string) {
    |history| > 0 && history[0] == AI(greeting)
  }

  /** Every history in `before` is still present in `after`, as a prefix of its new value. */
  ghost predicate HistoriesExtend(before: map<string, seq<Message>>, after: map<string, seq<Message>>) {
    forall id :: id in before ==> id in after && before[id] <= after[id]
  }

  class SessionManagerService {
    var sessions: map<string, seq<Message>>
    var sidToSession: map<string, string>
    const initialMessage: string

    /** Every session's history starts with the configured greeting. */
    ghost predicate Valid()
      reads this
    {
      forall id :: id in sessions ==> StartsWithGreeting(sessions[id], initialMessage)
    }

    /** `configured` is the INITIAL_MESSAGE setting, absent when it is not set. */
    constructor (configured: Option<string>)
      ensures Valid()
      ensures initialMessage == InitialMessage(configured)
      ensures sessions == map[] && sidToSession == map[]
    {
      initialMessage := InitialMessage(configured);
      sessions := map[];
      sidToSession := map[];
    }

    /**
     * Registers a new session seeded with the greeting and binds `sid` to it.
     * `generatedId` is the uuid the generator returns, assumed not yet in use;
     * `userUuid` is accepted and ignored, as in the source.
     */
    method CreateSession(sid: string, userUuid: string, generatedId: string) returns (sessionId: string)
      requires Valid()
      requires generatedId !in sessions
      modifies this
      ensures Valid()
      ensures sessionId == generatedId && sessionId !in old(sessions)
      ensures sessions == old(sessions)[sessionId := [AI(initialMessage)]]
      ensures sidToSession == old(sidToSession)[sid := sessionId]
      ensures HistoriesExtend(old(sessions), sessions)
    {
      sessionId := generatedId;
      sidToSession := sidToSession[sid := sessionId];
      sessions := sessions[sessionId := []];
      assert sessions[sessionId] + [AI(initialMessage)] == [AI(initialMessage)];
      sessions := sessions[sessionId := sessions[sessionId] + [AI(initialMessage)]];
    }

    /** The history of `sessionId`, or nothing when there is no such session. */
    method GetSessionHistory(sessionId: string) returns (history: Option<seq<Message>>)
      ensures history.Some? <==> sessionId in sessions
      ensures history.Some? ==> history.value == sessions[sessionId]
    {
      if sessionId in sessions {
        history := Some(sessions[sessionId]);
      } else {
        history := None;
      }
    }

    /** The session `sid` is bound to, or nothing when it is unbound. */
    method GetSessionIdFromSid(sid: string) returns (sessionId: Option<string>)
      ensures sessionId.Some? <==> sid in sidToSession
      ensures sessionId.Some? ==> sessionId.value == sidToSession[sid]
    {
      if sid in sidToSession {
        sessionId := Some(sidToSession[sid]);
      } else {
        sessionId := None;
      }
    }

    /** Appends a human message to an existing session; an unknown id changes nothing. */
    method AddUserMessage(sessionId: string, message: string)
      requires Valid()
      modifies this`sessions
      ensures Valid()
      ensures sessionId in old(sessions) ==>
        sessions == old(sessions)[sessionId := old(sessions)[sessionId] + [Human(message)]]
      ensures sessionId !in old(sessions) ==> sessions == old(sessions)
      ensures sidToSession == old(sidToSession)
      ensures HistoriesExtend(old(sessions), sessions)
    {
      var history := GetSessionHistory(sessionId);
      if history.Some? {
        sessions := sessions[sessionId := history.value + [Human(message)]];
      }
    }

    /** Appends an AI message to an existing session; an unknown id changes nothing. */
    method AddAIMessage(sessionId: string, message: string)
      requires Valid()
      modifies this`sessions
      ensures Valid()
      ensures sessionId in old(sessions) ==>
        sessions == old(sessions)[sessionId := old(sessions)[sessionId] + [AI(message)]]
      ensures sessionId !in old(sessions) ==> sessions == old(sessions)
      ensures sidToSession == old(sidToSession)
      ensures HistoriesExtend(old(sessions), sessions)
    {
      var history := GetSessionHistory(sessionId);
      if history.Some? {
        sessions := sessions[sessionId := history.value + [AI(message)]];
      }
    }

    /**
     * Reports whether `sessionId` is a session. The source's removal step
     * deletes a property of the map object rather than a map entry, so no
     * session is removed: this method changes nothing.
     */
    method DeleteSession(sessionId: string) returns (deleted: bool)
      ensures deleted <==> sessionId in sessions
    {
      if sessionId in sessions {
        return true;
      }
      return false;
    }

    /** The evidently intended deletion: the entry of `sessionId` is removed. */
    method RemoveSession(sessionId: string) returns (deleted: bool)
      requires Valid()
      modifies this`sessions
      ensures Valid()
      ensures deleted <==> sessionId in old(sessions)
      ensures sessions == old(sessions) - {sessionId}
      ensures sessionId !in sessions
      ensures sidToSession == old(sidToSession)
    {
      deleted := sessionId in sessions;
      sessions := sessions - {sessionId};
    }

    method TestIsSessionId(sessionId: string) returns (isSession: bool)
      ensures isSession <==> sessionId in sessions
    {
      isSession := sessionId in sessions;
    }

    /** Binds `sid` to `sessionId`, replacing any earlier binding (last bind wins). */
    method MapSidToSession(sid: string, sessionId: string)
      requires Valid()
      modifies this`sidToSession
      ensures Valid()
      ensures sidToSession == old(sidToSession)[sid := sessionId]
      ensures sid in sidToSession && sidToSession[sid] == sessionId
      ensures sessions == old(sessions)
    {
      sidToSession := sidToSession[sid := sessionId];
    }

    /** Removes the binding of `sid` and no other; an unbound `sid` changes nothing. */
    method RemoveSidToSession(sid: string)
      requires Valid()
      modifies this`sidToSession
      ensures Valid()
      ensures sidToSession == old(sidToSession) - {sid}
      ensures sid !in old(sidToSession) ==> sidToSession == old(sidToSession)
      ensures sessions == old(sessions)
    {
      sidToSession := sidToSession - {sid};
    }

    /**
     * The serialised history of `sessionId`, or the error record
     * `{error: 'Session not found.'}` when there is no such session.
     */
    method GetSessionMessages(sessionId: string) returns (reply: MessagesReply)
      requires Valid()
      ensures sessionId !in sessions ==> reply == NotFound(SessionNotFound)
      ensures sessionId in sessions ==> reply == Messages(SerializeHistory(sessions[sessionId]))
      ensures reply.Messages? ==> |reply.messages| > 0 && reply.messages[0] == SerializedMessage("bot", initialMessage)
    {
      var history := GetSessionHistory(sessionId);
      if history.None? {
        return NotFound(SessionNotFound);
      }
      reply := Messages(SerializeHistory(history.value));
    }
  }

  /**
   * A delete request followed by an existence test on the same id: the
   * session reported deleted is still reported present.
   */
  method DeletedSessionStillListed(service: SessionManagerService, sessionId: string)
    returns (deleted: bool, stillPresent: bool)
    ensures deleted == (sessionId in service.sessions)
    ensures deleted ==> stillPresent
  {
    deleted := service.DeleteSession(sessionId);
    stillPresent := service.TestIsSessionId(sessionId);
  }
}
