/**
 * The relay (app/api/chat/route.ts): `POST /api/chat` reads `message` from the
 * JSON request body, refuses a falsy one with 400, opens a streamed response
 * from the upstream chat service, and forwards each text-delta event as one
 * `data: {"delta":...}` frame of a `text/event-stream` reply. A failure before
 * the reply is returned becomes a 500 JSON reply; a failure while streaming
 * errors the stream.
 */
module ChatRoute {
  import opened Options
  import opened JsText
  import opened Json
  import opened EventStream

  /** The upstream event type that carries a piece of the answer. */
  const DeltaEvent := "response.output_text.delta"

  /** The model named in every upstream request. */
  const Model := "gpt-4o"

  /** The assistant the relay always asks for, whatever the page sent. */
  const AssistantId := "2abd3196-bfec-4f25-9131-8ec04328be95"

  const MissingMessage := "Message is required"

  /** The text of a 500 reply for a thrown value that is not an `Error`. */
  const InternalError := "Internal server error"

  /** The headers of the streamed reply. */
  const StreamHeaders := [("Content-Type", "text/event-stream"), ("Cache-Control", "no-cache"), ("Connection", "keep-alive")]

  /** A value thrown in JavaScript: an `Error` (with its `message`) or anything else. */
  datatype Thrown = ErrorInstance(message: string) | OtherValue

  /** `error instanceof Error ? error.message : 'Internal server error'`. */
  function ErrorText(error: Thrown): string {
    match error
    case ErrorInstance(message) => message
    case OtherValue => InternalError
  }

  /**
   * The messages of the errors the JavaScript engine raises itself: the
   * SyntaxError of `request.json()` on a body that is not JSON, and the
   * TypeError of destructuring `null`. Their wording is the engine's own.
   */
  datatype EngineMessages = EngineMessages(syntaxError: string, nullDestructuring: string)

  /** One event of the upstream response: its `type` and its `delta`, if any. */
  datatype UpstreamEvent = UpstreamEvent(kind: string, delta: Option<string>)

  /** How iterating the upstream response ends. */
  datatype IterationEnd = Exhausted | Interrupted(error: Thrown)

  /** What `openai.responses.create(...)` does: reject, or give a response whose events arrive in order. */
  datatype Upstream = CreateFailed(error: Thrown) | Opened(events: seq<UpstreamEvent>, end: IterationEnd)

  /** The request sent to `openai.responses.create`. */
  datatype UpstreamRequest = UpstreamRequest(model: string, input: Value, stream: bool, assistantId: string)

  /** How the streamed reply's body ends: `controller.close()` or `controller.error(error)`. */
  datatype StreamEnd = Closed | Errored(error: Thrown)

  /** The reply of `POST`. */
  datatype HttpReply =
    | JsonReply(status: nat, success: bool, error: string)     // `NextResponse.json({success, error}, {status})`
    | EventStream(status: nat, headers: seq<(string, string)>, chunks: seq<string>, end: StreamEnd)

  // ---------------------------------------------------------------------------
  // Frames
  // ---------------------------------------------------------------------------

  /** The members of `{ delta: event.delta }`: an undefined `delta` is omitted by `JSON.stringify`. */
  function DeltaMembers(delta: Option<string>): seq<(string, string)> {
    match delta
    case None => []
    case Some(d) => [("delta", d)]
  }

  /** The `data: ` line of a frame: it holds no line break, whatever the delta holds. */
  function FrameLine(delta: Option<string>): (r: string)
    ensures StartsWith(r, DataPrefix)
    ensures forall i :: 0 <= i < |r| ==> r[i] != '\n'
  {
    var json := StringifyObject(DeltaMembers(delta));
    var line := DataPrefix + json;
    assert forall i :: |DataPrefix| <= i < |line| ==> line[i] == json[i - |DataPrefix|];
    line
  }

  /** The frame forwarded for one text-delta event: its line, then a blank line. */
  function Frame(delta: Option<string>): string {
    FrameLine(delta) + "\n\n"
  }

  /** The frames one event gives: one for a text-delta event, none for any other. */
  function EventFrames(event: UpstreamEvent): seq<string> {
    if event.kind == DeltaEvent then [Frame(event.delta)] else []
  }

  /** The frames forwarded for a run of upstream events. */
  function FramesOf(events: seq<UpstreamEvent>): seq<string> {
    ConcatMap(EventFrames, events)
  }

  /** Only the text-delta events are forwarded, one frame each, in their order. */
  lemma {:induction false} FramesFollowDeltaEvents(events: seq<UpstreamEvent>)
    ensures |FramesOf(events)| == |DeltaEvents(events)|
    ensures forall i :: 0 <= i < |FramesOf(events)| ==> FramesOf(events)[i] == Frame(DeltaEvents(events)[i].delta)
  {
    if events != [] {
      var init, last := events[..|events| - 1], events[|events| - 1];
      assert events == init + [last];
      ConcatMapSnoc(EventFrames, init, last);
      FramesFollowDeltaEvents(init);
    }
  }

  /** The text-delta events among `events`, in order. */
  function DeltaEvents(events: seq<UpstreamEvent>): (r: seq<UpstreamEvent>)
    ensures |r| <= |events|
    ensures forall e :: e in r ==> e in events && e.kind == DeltaEvent
    ensures forall e :: e in events && e.kind == DeltaEvent ==> e in r
  {
    if events == [] then []
    else
      var init, last := events[..|events| - 1], events[|events| - 1];
      DeltaEvents(init) + (if last.kind == DeltaEvent then [last] else [])
  }

  /** The end of the streamed reply for a given end of the upstream iteration. */
  function StreamEndOf(end: IterationEnd): StreamEnd {
    match end
    case Exhausted => Closed
    case Interrupted(error) => Errored(error)
  }

  /**
   * The `start(controller)` callback of the reply's `ReadableStream`: each
   * text-delta event is enqueued as one frame; the stream is closed once the
   * events are exhausted, or errored with what the iteration threw.
   */
  method Pump(events: seq<UpstreamEvent>, end: IterationEnd) returns (chunks: seq<string>, closing: StreamEnd)
    ensures chunks == FramesOf(events)
    ensures closing == StreamEndOf(end)
  {
    chunks := [];
    for i := 0 to |events|
      invariant chunks == FramesOf(events[..i])
    {
      assert events[..i + 1] == events[..i] + [events[i]];
      ConcatMapSnoc(EventFrames, events[..i], events[i]);
      if events[i].kind == DeltaEvent {
        chunks := chunks + [Frame(events[i].delta)];
      }
    }
    assert events[..|events|] == events;
    closing := StreamEndOf(end);
  }

  // ---------------------------------------------------------------------------
  // POST
  // ---------------------------------------------------------------------------

  /** What `const { message } = await request.json()` gives: the property, or the error it throws. */
  datatype MessageRead = Threw(error: Thrown) | Read(message: Property)

  /** Reading `message` from the request body text. */
  function ReadMessage(body: string, engine: EngineMessages): (r: MessageRead)
    ensures r.Threw? <==> Parse(body).None? || Parse(body) == Some(Null)
    ensures r.Read? ==> r.message == Get(Parse(body).value, "message") && !r.message.NullAccess?
    ensures r.Read? ==> (r.message.Defined? <==>
      Parse(body).value.Obj? && exists i :: 0 <= i < |Parse(body).value.members| && Parse(body).value.members[i].0 == "message")
    ensures r.Threw? ==> r.error.ErrorInstance?
  {
    match Parse(body)
    case None => Threw(ErrorInstance(engine.syntaxError))
    case Some(Null) => Threw(ErrorInstance(engine.nullDestructuring))
    case Some(v) => Read(Get(v, "message"))
  }

  /** The upstream request `POST` makes for a truthy `message`. */
  function RequestFor(message: Value): UpstreamRequest {
    UpstreamRequest(Model, message, true, AssistantId)
  }

  /**
   * The reply of `POST`, and the upstream request it made, if any. It answers 400
   * exactly when the body is JSON other than `null` whose `message` is missing or
   * falsy; it asks the upstream exactly when `message` is truthy, always for the
   * fixed model and assistant, streamed, with `message` as given; and it streams
   * exactly when the upstream opened a response, one frame per text-delta event,
   * closing exactly when the upstream's events ran out. Every other reply is a
   * JSON error.
   */
  function Respond(body: string, upstream: Upstream, engine: EngineMessages): (r: (HttpReply, Option<UpstreamRequest>))
    ensures r.0.JsonReply? && r.0.status == 400
        <==> Parse(body).Some? && Parse(body) != Some(Null) && !IsTruthy(Get(Parse(body).value, "message"))
    ensures r.1.Some? <==> ReadMessage(body, engine).Read? && IsTruthy(ReadMessage(body, engine).message)
    ensures r.1.Some? ==>
      && r.1.value.model == Model && r.1.value.assistantId == AssistantId && r.1.value.stream
      && Get(Parse(body).value, "message") == Defined(r.1.value.input)
    ensures r.0.EventStream? <==> r.1.Some? && upstream.Opened?
    ensures r.0.EventStream? ==>
      && r.0.status == 200
      && r.0.chunks == FramesOf(upstream.events)
      && (r.0.end == Closed <==> upstream.end == Exhausted)
    ensures r.0.JsonReply? ==> !r.0.success && r.0.status in {400, 500}
    ensures r.0.JsonReply? && r.0.status == 400 ==> r.0.error == MissingMessage
    ensures r.0.JsonReply? && r.0.status == 500 ==>
      r.0.error == if ReadMessage(body, engine).Threw? then ErrorText(ReadMessage(body, engine).error)
                   else ErrorText(upstream.error)
    ensures r.0.JsonReply? && r.0.status == 500 <==>
      ReadMessage(body, engine).Threw? || (r.1.Some? && upstream.CreateFailed?)
    ensures r.0.EventStream? ==> r.0.headers == StreamHeaders
  {
    match ReadMessage(body, engine)
    case Threw(error) => (JsonReply(500, false, ErrorText(error)), None)
    case Read(message) =>
      if !IsTruthy(message) then (JsonReply(400, false, MissingMessage), None)
      else
        var request := Some(RequestFor(message.value));
        match upstream
        case CreateFailed(error) => (JsonReply(500, false, ErrorText(error)), request)
        case Opened(events, end) => (EventStream(200, StreamHeaders, FramesOf(events), StreamEndOf(end)), request)
  }

  /**
   * `POST`: `upstream` stands for what `openai.responses.create` does with the
   * request, and `engine` for the wording of the engine's own errors.
   */
  method Post(body: string, upstream: Upstream, engine: EngineMessages) returns (reply: HttpReply, sent: Option<UpstreamRequest>)
    ensures (reply, sent) == Respond(body, upstream, engine)
  {
    var read := ReadMessage(body, engine);
    if read.Threw? {
      return JsonReply(500, false, ErrorText(read.error)), None;
    }
    if !IsTruthy(read.message) {
      return JsonReply(400, false, MissingMessage), None;
    }
    sent := Some(RequestFor(read.message.value));
    match upstream
    case CreateFailed(error) =>
      reply := JsonReply(500, false, ErrorText(error));
    case Opened(events, end) =>
      var chunks, closing := Pump(events, end);
      reply := EventStream(200, StreamHeaders, chunks, closing);
  }
}
