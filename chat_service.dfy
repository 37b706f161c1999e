/**
 * The chat service: the two ways a question reaches the agent. `Query`
 * waits for the agent's whole answer and maps any failure to one fixed
 * message; `StreamQuery` filters the agent's event stream down to the
 * text fragments of the chat model and ends with a fallback fragment when
 * the stream fails. The agent itself (LLM, tools, history wrapper) is
 * abstract: a pair of functions from a request to what it delivers.
 */
module ChatService {
  import opened Wrappers

  const ChatModelStream: string := "on_chat_model_stream"
  const QueryFailedMessage: string := "Query failed. Please try again."
  const StreamFailedMessage: string := "Streaming query failed. Please try again."
  const StreamEventsVersion: string := "v2"

  /** The run options sent with a request; a session id is absent when the caller passed none. */
  datatype RunConfig = RunConfig(
    version: Option<string>,
    configurableSessionId: Option<string>,
    metadataSessionId: Option<string>)

  datatype AgentRequest = AgentRequest(input: string, config: RunConfig)

  /** One event of the agent's stream: its kind and, for model events, the chunk's text content. */
  datatype StreamEvent = StreamEvent(kind: string, content: string)

  /** A stream delivers its events in order and then either ends or fails. */
  datatype EventStream = EventStream(events: seq<StreamEvent>, fails: bool)

  /** The agent's answer to a whole-answer request: its `output`, or a failure. */
  datatype InvokeReply = Answer(output: string) | Failure(reason: string)

  /** The agent wrapped with the session history, as the service calls it. */
  datatype Agent = Agent(
    invoke: AgentRequest -> InvokeReply,
    streamEvents: AgentRequest -> EventStream)

  /** The request `query` sends: the caller's session id under both `configurable` and `metadata`. */
  function InvokeRequest(input: string, sessionId: Option<string>): (r: AgentRequest)
    ensures r.input == input && r.config.version == None
    ensures r.config.configurableSessionId == sessionId && r.config.metadataSessionId == sessionId
  {
    AgentRequest(input, RunConfig(None, sessionId, sessionId))
  }

  /** The request `streamQuery` sends: as `InvokeRequest`, for version 'v2' of the event stream. */
  function StreamRequest(input: string, sessionId: Option<string>): (r: AgentRequest)
    ensures r.input == input && r.config.version == Some(StreamEventsVersion)
    ensures r.config.configurableSessionId == sessionId && r.config.metadataSessionId == sessionId
  {
    AgentRequest(input, RunConfig(Some(StreamEventsVersion), sessionId, sessionId))
  }

  /**
   * The answer text on success; on any failure the error message is the
   * fixed `QueryFailedMessage`, whatever the agent's reason was.
   */
  function Query(input: string, sessionId: Option<string>, agent: Agent): (r: Result<string, string>)
    ensures r.Ok? <==> agent.invoke(InvokeRequest(input, sessionId)).Answer?
    ensures r.Ok? ==> r.value == agent.invoke(InvokeRequest(input, sessionId)).output
    ensures r.Err? ==> r.error == QueryFailedMessage
  {
    match agent.invoke(InvokeRequest(input, sessionId))
    case Answer(output) => Ok(output)
    case Failure(_) => Err(QueryFailedMessage)
  }

  /** An event yields a fragment when it comes from the chat model and its content is non-empty. */
  predicate Yields(e: StreamEvent) {
    e.kind == ChatModelStream && e.content != ""
  }

  /** The fragments a list of events yields: the content of each yielding event, in order. */
  function Fragments(events: seq<StreamEvent>): (r: seq<string>)
    ensures |r| <= |events|
    ensures forall k :: 0 <= k < |r| ==> r[k] != ""
  {
    if events == [] then []
    else
      var last := events[|events| - 1];
      Fragments(events[..|events| - 1]) + (if Yields(last) then [last.content] else [])
  }

  /**
   * Everything `streamQuery` yields for a stream: its fragments, then the
   * fallback if it failed. Nothing it yields is empty, and the fallback is
   * the last item exactly when the stream failed.
   */
  function StreamOutput(stream: EventStream): (r: seq<string>)
    ensures |r| == |Fragments(stream.events)| + (if stream.fails then 1 else 0)
    ensures r[..|Fragments(stream.events)|] == Fragments(stream.events)
    ensures stream.fails ==> r[|r| - 1] == StreamFailedMessage
    ensures forall k :: 0 <= k < |r| ==> r[k] != ""
  {
    Fragments(stream.events) + (if stream.fails then [StreamFailedMessage] else [])
  }

  /** Filtering distributes over concatenation of event lists. */
  lemma {:induction false} FragmentsAppend(a: seq<StreamEvent>, b: seq<StreamEvent>)
    ensures Fragments(a + b) == Fragments(a) + Fragments(b)
    decreases |b|
  {
    if b == [] {
      assert a + b == a;
    } else {
      var b' := b[..|b| - 1];
      assert (a + b)[..|a + b| - 1] == a + b';
      assert (a + b)[|a + b| - 1] == b[|b| - 1];
      FragmentsAppend(a, b');
    }
  }

  /**
   * A yielding event `i` is the source of the fragment at position
   * "number of fragments before it", so fragments keep the stream's order.
   */
  lemma FragmentOfEvent(events: seq<StreamEvent>, i: nat)
    requires i < |events| && Yields(events[i])
    ensures |Fragments(events[..i])| < |Fragments(events)|
    ensures Fragments(events)[|Fragments(events[..i])|] == events[i].content
  {
    assert events == events[..i] + events[i..];
    assert events[i..] == [events[i]] + events[i + 1..];
    FragmentsAppend(events[..i], events[i..]);
    FragmentsAppend([events[i]], events[i + 1..]);
    assert Fragments([events[i]]) == [events[i].content] by {
      assert [events[i]][..0] == [];
    }
  }

  /** Every fragment comes from a yielding event, with exactly as many fragments before it. */
  lemma {:induction false} EventOfFragment(events: seq<StreamEvent>, k: nat)
    requires k < |Fragments(events)|
    ensures exists i :: 0 <= i < |events| && Yields(events[i])
                        && |Fragments(events[..i])| == k && Fragments(events)[k] == events[i].content
    decreases |events|
  {
    var n := |events| - 1;
    var init := events[..n];
    assert events[..n] == init;
    if k < |Fragments(init)| {
      EventOfFragment(init, k);
      var i :| 0 <= i < |init| && Yields(init[i])
               && |Fragments(init[..i])| == k && Fragments(init)[k] == init[i].content;
      assert init[..i] == events[..i];
      assert Yields(events[i]) && |Fragments(events[..i])| == k && Fragments(events)[k] == events[i].content;
    } else {
      assert Yields(events[n]) && |Fragments(events[..n])| == k && Fragments(events)[k] == events[n].content;
    }
  }

  /** Of two yielding events, the earlier one's fragment comes first. */
  lemma FragmentsKeepOrder(events: seq<StreamEvent>, i: nat, j: nat)
    requires i < j < |events| && Yields(events[i]) && Yields(events[j])
    ensures |Fragments(events[..i])| < |Fragments(events[..j])|
  {
    assert events[..j] == events[..i] + events[i..j];
    assert events[i..j] == [events[i]] + events[i + 1..j];
    FragmentsAppend(events[..i], events[i..j]);
    FragmentsAppend([events[i]], events[i + 1..j]);
    assert Fragments([events[i]]) == [events[i].content] by {
      assert [events[i]][..0] == [];
    }
  }

  /**
   * Runs the stream for `input` and collects what the generator yields:
   * the content of each chat-model event with non-empty content, in order,
   * and, when the stream fails, the fallback message as the last fragment.
   * It never fails itself.
   */
  method StreamQuery(input: string, sessionId: Option<string>, agent: Agent) returns (yielded: seq<string>)
    ensures yielded == StreamOutput(agent.streamEvents(StreamRequest(input, sessionId)))
    ensures var stream := agent.streamEvents(StreamRequest(input, sessionId));
      stream.fails ==> |yielded| > 0 && yielded[|yielded| - 1] == StreamFailedMessage
  {
    var stream := agent.streamEvents(StreamRequest(input, sessionId));
    yielded := [];
    var i := 0;
    while i < |stream.events|
      invariant 0 <= i <= |stream.events|
      invariant yielded == Fragments(stream.events[..i])
    {
      var event := stream.events[i];
      if event.kind == ChatModelStream {
        var content := event.content;
        if content != "" {
          yielded := yielded + [content];
        }
      }
      assert stream.events[..i + 1][..i] == stream.events[..i];
      i := i + 1;
    }
    assert stream.events[..i] == stream.events;
    if stream.fails {
      yielded := yielded + [StreamFailedMessage];
    }
  }
}
