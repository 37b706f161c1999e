/**
 * The websocket gateway's `query` handler: it validates the input, echoes
 * it, and relays the chat service's answer to the client either as one
 * response (sync mode) or as one response per streamed fragment between
 * `response_start` and `response_end` (stream mode).
 */
module ChatGateway {
  import opened Wrappers
  import ChatService

  /** The events the handler emits to its client, with their payloads. */
  datatype Outbound =
    | Error(message: string)
    | Response(text: string)
    | ResponseStart(started: bool)
    | ResponseEnd(ended: bool)

  /** How the handler's promise settles: normally, or rejected with the thrown error's message. */
  datatype HandlerOutcome = Completed | Rejected(reason: string)

  const InputRequired: string := "Input is required"
  const EchoPrefix: string := "Received input: "

  /** `!input`: the input is missing or the empty string. */
  predicate Falsy(input: Option<string>) {
    input.None? || input.value == ""
  }

  /** The echo of a non-empty input. */
  function Echo(input: string): Outbound {
    Response(EchoPrefix + input)
  }

  /** One `response` event per chunk, in chunk order. */
  function Responses(chunks: seq<string>): (r: seq<Outbound>)
    ensures |r| == |chunks|
    ensures forall k :: 0 <= k < |chunks| ==> r[k] == Response(chunks[k])
  {
    seq(|chunks|, k requires 0 <= k < |chunks| => Response(chunks[k]))
  }

  /** The fragments the stream-mode handler relays: the service is called without a session id. */
  function StreamedChunks(input: string, agent: ChatService.Agent): seq<string> {
    ChatService.StreamOutput(agent.streamEvents(ChatService.StreamRequest(input, None)))
  }

  /**
   * Everything one `query` message makes the handler emit, in order. It is
   * never empty, and an `error` event is emitted only, and then alone, for a
   * falsy input; otherwise the echo comes first.
   */
  function QueryEvents(useStream: bool, input: Option<string>, agent: ChatService.Agent): (r: seq<Outbound>)
    ensures |r| > 0
    ensures Falsy(input) <==> r == [Error(InputRequired)]
    ensures !Falsy(input) ==> r[0] == Echo(input.value)
    ensures forall k :: 0 <= k < |r| && r[k].Error? ==> Falsy(input)
  {
    if Falsy(input) then [Error(InputRequired)]
    else if useStream then
      [Echo(input.value), ResponseStart(true)] + Responses(StreamedChunks(input.value, agent)) + [ResponseEnd(true)]
    else
      match ChatService.Query(input.value, None, agent)
      case Ok(result) => [Echo(input.value), Response(result), ResponseEnd(true)]
      case Err(_) => [Echo(input.value)]
  }

  /** How the handler settles: only a failed sync-mode query rejects, since nothing catches it. */
  function QueryOutcome(useStream: bool, input: Option<string>, agent: ChatService.Agent): (r: HandlerOutcome)
    ensures r.Rejected? ==> !Falsy(input) && !useStream && r.reason == ChatService.QueryFailedMessage
    ensures r.Rejected? <==>
      !Falsy(input) && !useStream && agent.invoke(ChatService.InvokeRequest(input.value, None)).Failure?
  {
    if Falsy(input) || useStream then Completed
    else
      match ChatService.Query(input.value, None, agent)
      case Ok(_) => Completed
      case Err(message) => Rejected(message)
  }

  /** The number of `response_end` events in `events`. */
  function EndCount(events: seq<Outbound>): nat {
    if events == [] then 0
    else EndCount(events[..|events| - 1]) + (if events[|events| - 1].ResponseEnd? then 1 else 0)
  }

  lemma {:induction false} EndCountAppend(a: seq<Outbound>, b: seq<Outbound>)
    ensures EndCount(a + b) == EndCount(a) + EndCount(b)
    decreases |b|
  {
    if b == [] {
      assert a + b == a;
    } else {
      assert (a + b)[..|a + b| - 1] == a + b[..|b| - 1];
      EndCountAppend(a, b[..|b| - 1]);
    }
  }

  lemma EndCountSingle(event: Outbound)
    ensures EndCount([event]) == if event.ResponseEnd? then 1 else 0
  {
  }

  lemma {:induction false} ResponsesHaveNoEnd(chunks: seq<string>)
    ensures EndCount(Responses(chunks)) == 0
    decreases |chunks|
  {
    if chunks != [] {
      var init := chunks[..|chunks| - 1];
      assert Responses(chunks)[..|chunks| - 1] == Responses(init);
      ResponsesHaveNoEnd(init);
    }
  }

  /** Falsy input emits exactly one error event, whatever the agent would do: the agent is not consulted. */
  lemma FalsyInputOnlyErrors(useStream: bool, input: Option<string>, agent: ChatService.Agent, other: ChatService.Agent)
    requires Falsy(input)
    ensures QueryEvents(useStream, input, agent) == [Error(InputRequired)]
    ensures QueryEvents(useStream, input, agent) == QueryEvents(useStream, input, other)
    ensures QueryOutcome(useStream, input, agent) == Completed
  {
  }

  /** A non-empty input is echoed first; in stream mode `response_start` comes second. */
  lemma EchoComesFirst(useStream: bool, input: Option<string>, agent: ChatService.Agent)
    requires !Falsy(input)
    ensures var events := QueryEvents(useStream, input, agent);
      |events| > 0 && events[0] == Response(EchoPrefix + input.value)
      && (useStream ==> |events| > 1 && events[1] == ResponseStart(true))
  {
  }

  /**
   * Stream mode: the echo, `response_start`, one `response` per fragment in
   * stream order, then `response_end` last. The handler always completes,
   * even when the agent's stream fails.
   */
  lemma StreamModeSequence(input: Option<string>, agent: ChatService.Agent)
    requires !Falsy(input)
    ensures var events := QueryEvents(true, input, agent);
      var chunks := StreamedChunks(input.value, agent);
      && |events| == |chunks| + 3
      && events[0] == Response(EchoPrefix + input.value)
      && events[1] == ResponseStart(true)
      && (forall k :: 0 <= k < |chunks| ==> events[k + 2] == Response(chunks[k]))
      && events[|events| - 1] == ResponseEnd(true)
    ensures QueryOutcome(true, input, agent) == Completed
  {
  }

  /** Stream mode emits `response_end` exactly once, whatever the stream delivers. */
  lemma {:induction false} StreamModeEndsOnce(input: Option<string>, agent: ChatService.Agent)
    requires !Falsy(input)
    ensures EndCount(QueryEvents(true, input, agent)) == 1
  {
    var chunks := StreamedChunks(input.value, agent);
    var head := [Echo(input.value), ResponseStart(true)];
    EndCountAppend(head + Responses(chunks), [ResponseEnd(true)]);
    EndCountAppend(head, Responses(chunks));
    ResponsesHaveNoEnd(chunks);
    assert head == [Echo(input.value)] + [ResponseStart(true)];
    EndCountAppend([Echo(input.value)], [ResponseStart(true)]);
    EndCountSingle(Echo(input.value));
    EndCountSingle(ResponseStart(true));
    EndCountSingle(ResponseEnd(true));
  }

  /**
   * Sync mode: on success the echo, exactly one `response` with the answer,
   * then `response_end`; on failure only the echo, and the handler rejects
   * with the service's fixed message.
   */
  lemma SyncModeSequence(input: Option<string>, agent: ChatService.Agent)
    requires !Falsy(input)
    ensures var reply := agent.invoke(ChatService.InvokeRequest(input.value, None));
      && (reply.Answer? ==>
            QueryEvents(false, input, agent)
              == [Response(EchoPrefix + input.value), Response(reply.output), ResponseEnd(true)]
            && QueryOutcome(false, input, agent) == Completed)
      && (reply.Failure? ==>
            QueryEvents(false, input, agent) == [Response(EchoPrefix + input.value)]
            && QueryOutcome(false, input, agent) == Rejected(ChatService.QueryFailedMessage))
  {
  }

  /** `response_end` is emitted exactly once and last whenever the handler completes on a non-empty input. */
  lemma ResponseEndOnceAndLast(useStream: bool, input: Option<string>, agent: ChatService.Agent)
    requires !Falsy(input) && QueryOutcome(useStream, input, agent) == Completed
    ensures var events := QueryEvents(useStream, input, agent);
      |events| > 0 && events[|events| - 1] == ResponseEnd(true) && EndCount(events) == 1
  {
    if useStream {
      StreamModeEndsOnce(input, agent);
    } else {
      var events := QueryEvents(useStream, input, agent);
      assert events == [events[0]] + [events[1]] + [events[2]];
      EndCountAppend([events[0]] + [events[1]], [events[2]]);
      EndCountAppend([events[0]], [events[1]]);
      EndCountSingle(events[0]);
      EndCountSingle(events[1]);
      EndCountSingle(events[2]);
    }
  }

  /** The client side of one socket: everything emitted to it so far. */
  class Socket {
    var emitted: seq<Outbound>

    constructor ()
      ensures emitted == []
    {
      emitted := [];
    }

    method Emit(event: Outbound)
      modifies this
      ensures emitted == old(emitted) + [event]
    {
      emitted := emitted + [event];
    }
  }

  class ChatGateway {
    const useStream: bool

    /** `useStreamSetting` is the USE_STREAM setting; only the exact text "true" turns streaming on. */
    constructor (useStreamSetting: Option<string>)
      ensures useStream <==> useStreamSetting == Some("true")
    {
      useStream := useStreamSetting == Some("true");
    }

    /** Handles one `query` message from `client` whose `input` field is `input`. */
    method HandleQuery(client: Socket, input: Option<string>, agent: ChatService.Agent) returns (outcome: HandlerOutcome)
      modifies client
      ensures client.emitted == old(client.emitted) + QueryEvents(useStream, input, agent)
      ensures outcome == QueryOutcome(useStream, input, agent)
    {
      if Falsy(input) {
        client.Emit(Error(InputRequired));
        return Completed;
      }
      var text := input.value;
      client.Emit(Response(EchoPrefix + text));
      if useStream {
        client.Emit(ResponseStart(true));
        var stream := ChatService.StreamQuery(text, None, agent);
        ghost var before := client.emitted;
        var i := 0;
        while i < |stream|
          invariant 0 <= i <= |stream|
          invariant client.emitted == before + Responses(stream[..i])
        {
          client.Emit(Response(stream[i]));
          assert Responses(stream[..i + 1]) == Responses(stream[..i]) + [Response(stream[i])];
          i := i + 1;
        }
        assert stream[..i] == stream;
        client.Emit(ResponseEnd(true));
        outcome := Completed;
      } else {
        var result := ChatService.Query(text, None, agent);
        if result.Err? {
          return Rejected(result.error);
        }
        client.Emit(Response(result.value));
        client.Emit(ResponseEnd(true));
        outcome := Completed;
      }
    }
  }
}
