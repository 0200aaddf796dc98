/**
 * The three programs together: the page posts to the relay, the relay forwards
 * the upstream's text deltas as frames, and the page (or the command-line
 * script) reads those frames back.
 */
module Pipeline {
  import opened Options
  import opened JsText
  import opened Json
  import opened EventStream
  import ChatPage
  import ChatRoute
  import StreamingScript

  // ---------------------------------------------------------------------------
  // One frame
  // ---------------------------------------------------------------------------

  /** A frame is read as exactly one candidate line: its `data: ` line; the blank line after it is dropped. */
  lemma FrameSelectsOneLine(delta: Option<string>)
    ensures SelectLines(ChatRoute.Frame(delta)) == [ChatRoute.FrameLine(delta)]
  {
    var line := ChatRoute.FrameLine(delta);
    assert !Blank(line) by {
      assert line[0] == 'd';
    }
    LineThenBlankLine(line);
  }

  /** The page's text for a single chunk is what its lines yield. */
  lemma OneChunkText(chunk: string)
    ensures ChatPage.StreamText([chunk]) == ChatPage.LinesText(SelectLines(chunk))
  {
    assert [] + [chunk] == [chunk];
    ChatPage.StreamTextSnoc([], chunk);
  }

  /** The page's text for a single line is what that line yields. */
  lemma OneLineText(line: string)
    ensures ChatPage.LinesText([line]) == ChatPage.DeltaText(ChatPage.ReadLine(line))
  {
    assert [] + [line] == [line];
    ChatPage.AccumulatedSnoc(ChatPage.ReadLine, [], line);
  }

  /** The payload of a frame line is the JSON text of `{delta}`, which parses back to its members. */
  lemma FramePayload(delta: Option<string>)
    ensures StartsWith(ChatRoute.FrameLine(delta), DataPrefix)
    ensures Parse(ChatRoute.FrameLine(delta)[|DataPrefix|..])
         == Some(Obj(StringMembers(ChatRoute.DeltaMembers(delta))))
  {
    var json := StringifyObject(ChatRoute.DeltaMembers(delta));
    assert ChatRoute.FrameLine(delta)[|DataPrefix|..] == json;
    ParseStringifiedObject(ChatRoute.DeltaMembers(delta));
  }

  /** The `delta` of the parsed `{delta}` object is the delta, or is missing. */
  lemma DeltaOfPayload(delta: Option<string>)
    ensures Get(Obj(StringMembers(ChatRoute.DeltaMembers(delta))), "delta")
         == if delta.Some? then Defined(Str(delta.value)) else Undefined
  {
    match delta
    case None =>
    case Some(d) =>
      assert StringMembers([("delta", d)]) == [("delta", Str(d))];
      assert [("delta", Str(d))][..0] == [];
  }

  /** The page reads a frame line back as the delta it was made from; an empty or missing delta adds nothing. */
  lemma PageReadsFrameLine(delta: Option<string>)
    ensures ChatPage.ReadLine(ChatRoute.FrameLine(delta))
         == if delta.Some? && delta.value != "" then ChatPage.Delta(delta.value) else ChatPage.NoDelta
  {
    FramePayload(delta);
    DeltaOfPayload(delta);
    ReadDeltaLine(ChatRoute.FrameLine(delta), Obj(StringMembers(ChatRoute.DeltaMembers(delta))), delta);
  }

  /** A `data: ` line whose payload's `delta` is a string, or is missing, is read as that delta. */
  lemma ReadDeltaLine(line: string, data: Value, delta: Option<string>)
    requires StartsWith(line, DataPrefix) && Parse(line[|DataPrefix|..]) == Some(data)
    requires Get(data, "delta") == if delta.Some? then Defined(Str(delta.value)) else Undefined
    ensures ChatPage.ReadLine(line) == if delta.Some? && delta.value != "" then ChatPage.Delta(delta.value) else ChatPage.NoDelta
  {
  }

  /** The text a page reading the relay's frames shows for one upstream event. */
  function EventText(event: ChatRoute.UpstreamEvent): string {
    if event.kind == ChatRoute.DeltaEvent then event.delta.GetOr("") else ""
  }

  /** The answer the relay forwards: the deltas of the text-delta events, in order. */
  function ForwardedText(events: seq<ChatRoute.UpstreamEvent>): string {
    ConcatMap(EventText, events)
  }

  /** The page's text for the frames of one event. */
  lemma EventFramesText(event: ChatRoute.UpstreamEvent)
    ensures ChatPage.StreamText(ChatRoute.EventFrames(event)) == EventText(event)
  {
    if event.kind == ChatRoute.DeltaEvent {
      OneChunkText(ChatRoute.Frame(event.delta));
      FrameSelectsOneLine(event.delta);
      OneLineText(ChatRoute.FrameLine(event.delta));
      PageReadsFrameLine(event.delta);
    } else {
      assert ChatPage.StreamText([]) == "";
    }
  }

  /**
   * Relay to page: reading the relay's frames, chunk per frame, the page
   * accumulates exactly the forwarded deltas, in order.
   */
  lemma {:induction false} PageReadsForwardedText(events: seq<ChatRoute.UpstreamEvent>)
    ensures ChatPage.StreamText(ChatRoute.FramesOf(events)) == ForwardedText(events)
  {
    if events != [] {
      var init, last := events[..|events| - 1], events[|events| - 1];
      assert events == init + [last];
      ConcatMapSnoc(ChatRoute.EventFrames, init, last);
      ConcatMapSnoc(EventText, init, last);
      ChatPage.StreamTextAppend(ChatRoute.FramesOf(init), ChatRoute.EventFrames(last));
      PageReadsForwardedText(init);
      EventFramesText(last);
    }
  }

  // ---------------------------------------------------------------------------
  // Chunking
  // ---------------------------------------------------------------------------

  /**
   * When the transport cuts the relay's byte stream only at line ends, the page's
   * text does not depend on where: it is the text of the whole stream read at once.
   */
  lemma RechunkedAtLineEnds(chunks: seq<string>)
    requires forall i :: 0 <= i < |chunks| - 1 ==> EndsLine(chunks[i])
    ensures ChatPage.StreamText(chunks) == ChatPage.StreamText([Concat(chunks)])
  {
    AlignedChunksLines(chunks);
    OneChunkText(Concat(chunks));
  }

  /**
   * A `data: ` line whose payload is not JSON, or is `null`: the page records a
   * failure (and reads on), where the script throws.
   */
  lemma MalformedLine(line: string)
    requires StartsWith(line, DataPrefix)
    requires Parse(line[|DataPrefix|..]).None? || Parse(line[|DataPrefix|..]) == Some(Null)
    ensures ChatPage.ReadLine(line) == ChatPage.Failed
    ensures StreamingScript.ScriptLine(line) == StreamingScript.Throw
  {
  }

  /** The opening of every frame line that carries a delta. */
  const Opening := "data: {"

  /** A frame line carrying a delta starts with `data: {` and the quote of its member name. */
  lemma DeltaFrameLineStart(d: string)
    ensures |ChatRoute.FrameLine(Some(d))| > 8
    ensures ChatRoute.FrameLine(Some(d))[..7] == Opening
    ensures ChatRoute.FrameLine(Some(d))[7] == '"'
  {
    var json := StringifyObject(ChatRoute.DeltaMembers(Some(d)));
    DeltaJsonStart(d);
    var line := ChatRoute.FrameLine(Some(d));
    assert line == DataPrefix + json;
    assert line[..7] == DataPrefix + json[..1];
    assert line[7] == json[1];
  }

  /** The JSON text of a delta's members opens with `{` and the quote of the name `delta`. */
  lemma DeltaJsonStart(d: string)
    ensures var json := StringifyObject(ChatRoute.DeltaMembers(Some(d)));
      |json| > 2 && json[0] == '{' && json[1] == '"'
  {
    var members := [("delta", d)];
    assert ChatRoute.DeltaMembers(Some(d)) == members;
    assert MembersText(members) == Quote("delta") + ":" + Quote(d);
    var json := StringifyObject(members);
    assert json == "{" + Quote("delta") + ":" + Quote(d) + "}";
  }

  /** A chunk holding a non-empty part of the opening `data: {` yields nothing on the page. */
  lemma OpeningPartText(k: nat)
    requires 0 < k <= |Opening|
    ensures ChatPage.StreamText([Opening[..k]]) == ""
  {
    var head := Opening[..k];
    assert !Blank(head) by { assert head[0] == 'd'; }
    OneLine(head);
    OneChunkText(head);
    OneLineText(head);
    OpeningPartLine(k);
  }

  /** A non-empty part of the opening `data: {`, read as a line, yields no delta. */
  lemma OpeningPartLine(k: nat)
    requires 0 < k <= |Opening|
    ensures ChatPage.DeltaText(ChatPage.ReadLine(Opening[..k])) == ""
  {
    if k == 6 {
      assert Opening[..6] == DataPrefix + "";
      assert Parse("") == None;
      MalformedLine(DataPrefix + "");
    } else if k == 7 {
      assert Opening == DataPrefix + "{";
      assert ParseObject("") == None;
      assert Parse("{") == None;
      MalformedLine(Opening);
    } else {
      assert !StartsWith(Opening[..k], DataPrefix);
    }
  }

  /** A chunk holding one line that is not a `data: ` line, and a blank line, yields nothing on the page. */
  lemma NonDataChunkText(rest: string)
    requires forall i :: 0 <= i < |rest| ==> rest[i] != '\n'
    requires !Blank(rest) && rest[0] != 'd'
    ensures ChatPage.StreamText([rest + "\n\n"]) == ""
  {
    LineThenBlankLine(rest);
    OneChunkText(rest + "\n\n");
    OneLineText(rest);
    assert !StartsWith(rest, DataPrefix) by { assert rest[0] != DataPrefix[0]; }
  }

  /** A chunk holding the rest of a frame line, from inside its opening on, yields nothing on the page. */
  lemma FrameTailText(d: string, k: nat)
    requires 0 < k <= |Opening|
    ensures |ChatRoute.FrameLine(Some(d))| >= k && ChatPage.StreamText([ChatRoute.FrameLine(Some(d))[k..] + "\n\n"]) == ""
  {
    DeltaFrameLineStart(d);
    OpeningTailText(ChatRoute.FrameLine(Some(d)), k);
  }

  /** The rest of a line that opens with `data: {"`, from inside that opening on, yields nothing on the page. */
  lemma OpeningTailText(line: string, k: nat)
    requires 0 < k <= |Opening| < |line|
    requires line[..7] == Opening && line[7] == '"'
    requires forall i :: 0 <= i < |line| ==> line[i] != '\n'
    ensures ChatPage.StreamText([line[k..] + "\n\n"]) == ""
  {
    var rest := line[k..];
    assert rest[7 - k] == line[7] == '"';
    assert !Blank(rest) by { assert !IsJsWhitespace(rest[7 - k]); }
    assert rest[0] != 'd' by {
      if k < 7 {
        assert rest[0] == Opening[k];
      }
    }
    NonDataChunkText(rest);
  }

  /** Cutting a line followed by a blank line inside the line. */
  lemma CutInsideLine(line: string, k: nat)
    requires 0 < k < |line|
    ensures var frame := line + "\n\n";
      && frame[..k] == line[..k]
      && frame[k..] == line[k..] + "\n\n"
      && ChatPage.StreamText([frame[..k], frame[k..]]) == ChatPage.StreamText([line[..k]]) + ChatPage.StreamText([line[k..] + "\n\n"])
  {
    var frame := line + "\n\n";
    assert frame[..k] == line[..k];
    assert frame[k..] == line[k..] + "\n\n";
    assert [frame[..k], frame[k..]] == [frame[..k]] + [frame[k..]];
    ChatPage.StreamTextAppend([frame[..k]], [frame[k..]]);
  }

  /**
   * The page does not join a line across chunks: when a frame arrives cut into two
   * chunks anywhere inside its opening `data: {`, neither part yields its delta,
   * so a non-empty delta is lost, while the frame delivered whole yields it.
   */
  lemma FrameCutMidLineLosesDelta(d: string, k: nat)
    requires d != ""
    requires 0 < k <= |Opening|
    ensures var frame := ChatRoute.Frame(Some(d));
      && k < |frame|
      && ChatPage.StreamText([frame]) == d
      && ChatPage.StreamText([frame[..k], frame[k..]]) == ""
  {
    EventFramesText(ChatRoute.UpstreamEvent(ChatRoute.DeltaEvent, Some(d)));
    CutFrameText(d, k);
  }

  /** Both parts of a frame cut inside its opening yield nothing. */
  lemma CutFrameText(d: string, k: nat)
    requires 0 < k <= |Opening|
    ensures var frame := ChatRoute.Frame(Some(d));
      && k < |frame|
      && ChatPage.StreamText([frame[..k], frame[k..]]) == ""
  {
    var line := ChatRoute.FrameLine(Some(d));
    DeltaFrameLineStart(d);
    CutInsideLine(line, k);
    assert line[..k] == Opening[..k];
    OpeningPartText(k);
    FrameTailText(d, k);
  }

  // ---------------------------------------------------------------------------
  // Page, relay and upstream end to end
  // ---------------------------------------------------------------------------

  /** Chunks cut only at line ends: every chunk but the last ends a line. */
  predicate LineAligned(chunks: seq<string>) {
    forall i :: 0 <= i < |chunks| - 1 ==> EndsLine(chunks[i])
  }

  /**
   * The reply as the page's `fetch` sees it: `ok` for a 2xx status. A streamed
   * body reaches the page as the chunks `received` (the transport may cut the
   * relay's bytes anew), and a stream the relay errored makes a read reject.
   */
  function Delivered(reply: ChatRoute.HttpReply, received: seq<string>): ChatPage.Reply {
    match reply
    case JsonReply(status, _, _) => ChatPage.Response(200 <= status < 300, None)
    case EventStream(status, _, _, end) =>
      ChatPage.Response(200 <= status < 300, Some(ChatPage.Body(received, end.Errored?)))
  }

  /** Every frame ends a line. */
  lemma FramesEndLines(events: seq<ChatRoute.UpstreamEvent>)
    ensures forall i :: 0 <= i < |ChatRoute.FramesOf(events)| ==> EndsLine(ChatRoute.FramesOf(events)[i])
  {
    ChatRoute.FramesFollowDeltaEvents(events);
  }

  /**
   * However the transport re-cuts the relay's frames, as long as it cuts only at
   * line ends, the page accumulates exactly the forwarded deltas, in order.
   */
  lemma ReceivedText(events: seq<ChatRoute.UpstreamEvent>, received: seq<string>)
    requires LineAligned(received)
    requires Concat(received) == Concat(ChatRoute.FramesOf(events))
    ensures ChatPage.StreamText(received) == ForwardedText(events)
  {
    FramesEndLines(events);
    RechunkedAtLineEnds(received);
    RechunkedAtLineEnds(ChatRoute.FramesOf(events));
    PageReadsForwardedText(events);
  }

  /** The three members of the page's request body, as the relay parses them. */
  lemma RequestMembers(message: string, apiKey: string, assistantId: string)
    ensures StringMembers([("message", message), ("apiKey", apiKey), ("assistantId", assistantId)])
         == [("message", Str(message)), ("apiKey", Str(apiKey)), ("assistantId", Str(assistantId))]
  {
    var members := [("message", message), ("apiKey", apiKey), ("assistantId", assistantId)];
    assert members[1..][1..][1..] == [];
    assert StringMembers(members[1..][1..]) == [("assistantId", Str(assistantId))];
  }

  /** The `message` of those members is the one given first. */
  lemma LookupRequestMessage(message: Value, apiKey: Value, assistantId: Value)
    ensures Lookup([("message", message), ("apiKey", apiKey), ("assistantId", assistantId)], "message") == Some(message)
  {
    var members := [("message", message), ("apiKey", apiKey), ("assistantId", assistantId)];
    assert "assistantId" != "message" by { assert |"assistantId"| != |"message"|; }
    assert "apiKey" != "message" by { assert |"apiKey"| != |"message"|; }
    assert members[..2] == [("message", message), ("apiKey", apiKey)];
    assert members[..2][..1] == [("message", message)];
    assert Lookup(members[..2][..1], "message") == Some(message);
    assert Lookup(members[..2], "message") == Some(message);
  }

  /** The relay reads back the message of the body the page posts. */
  lemma RelayReadsPageMessage(request: ChatPage.ChatRequest)
    ensures Parse(ChatPage.RequestBody(request)).Some?
    ensures Get(Parse(ChatPage.RequestBody(request)).value, "message") == Defined(Str(request.message))
  {
    var members := [("message", request.message), ("apiKey", request.apiKey), ("assistantId", request.assistantId)];
    ParseStringifiedObject(members);
    RequestMembers(request.message, request.apiKey, request.assistantId);
    LookupRequestMessage(Str(request.message), Str(request.apiKey), Str(request.assistantId));
  }

  /**
   * Page to relay to page: for a submission the page accepts, the relay always
   * asks the upstream, for the page's message as typed (the page's API key and
   * assistant id are not used). When the relay's frames reach the page cut only
   * at line ends, the assistant message ends as the forwarded answer when the
   * upstream's events run out, and as the error text otherwise.
   */
  lemma EndToEnd(input: string, apiKey: string, assistantId: string,
                 upstream: ChatRoute.Upstream, engine: ChatRoute.EngineMessages, received: seq<string>)
    requires ChatPage.Accepts(input, false, apiKey, assistantId)
    requires LineAligned(received)
    requires upstream.Opened? ==> Concat(received) == Concat(ChatRoute.FramesOf(upstream.events))
    ensures var result := ChatRoute.Respond(ChatPage.RequestBody(ChatPage.ChatRequest(input, apiKey, assistantId)), upstream, engine);
      && result.1 == Some(ChatRoute.RequestFor(Str(input)))
      && ChatPage.FinalContent(Delivered(result.0, received))
         == if upstream.Opened? && upstream.end.Exhausted? then ForwardedText(upstream.events) else ChatPage.ErrorReply
  {
    assert input != "" by {
      assert Trim("") == "";
    }
    RelayAnswersPage(ChatPage.ChatRequest(input, apiKey, assistantId), upstream, engine);
    if upstream.Opened? {
      ReceivedText(upstream.events, received);
    }
  }

  /**
   * For a body the page posts with a non-empty message, the relay asks the upstream
   * for that message, and streams its frames or answers 500 with its error.
   */
  lemma RelayAnswersPage(request: ChatPage.ChatRequest, upstream: ChatRoute.Upstream, engine: ChatRoute.EngineMessages)
    requires request.message != ""
    ensures ChatRoute.Respond(ChatPage.RequestBody(request), upstream, engine)
         == match upstream
            case CreateFailed(error) =>
              (ChatRoute.JsonReply(500, false, ChatRoute.ErrorText(error)), Some(ChatRoute.RequestFor(Str(request.message))))
            case Opened(events, end) =>
              (ChatRoute.EventStream(200, ChatRoute.StreamHeaders, ChatRoute.FramesOf(events), ChatRoute.StreamEndOf(end)),
               Some(ChatRoute.RequestFor(Str(request.message))))
  {
    RelayReadsPageMessage(request);
  }

  // ---------------------------------------------------------------------------
  // The command-line script
  // ---------------------------------------------------------------------------

  /** Whatever the script writes, the page appends the same text for the same line. */
  lemma ScriptWriteIsPageDelta(line: string)
    ensures StreamingScript.ScriptLine(line).Write? ==>
      ChatPage.ReadLine(line) == ChatPage.Delta(StreamingScript.ScriptLine(line).text)
  {
  }

  /** A frame line has no `path`, so the script skips it. */
  lemma ScriptSkipsFrameLine(delta: Option<string>)
    ensures StreamingScript.ScriptLine(ChatRoute.FrameLine(delta)) == StreamingScript.Skip
  {
    FramePayload(delta);
    var members := StringMembers(ChatRoute.DeltaMembers(delta));
    assert Lookup(members, "path") == None by {
      assert forall i :: 0 <= i < |members| ==> members[i].0 == "delta";
      assert "delta" != "path" by { assert |"delta"| != |"path"|; }
    }
  }

  /** The script neither writes nor fails on the frames of one event. */
  lemma ScriptSkipsEventFrames(event: ChatRoute.UpstreamEvent)
    ensures StreamingScript.Run(StreamingScript.ScriptLine, AllLines(ChatRoute.EventFrames(event)))
         == StreamingScript.Progress("", false)
  {
    if event.kind == ChatRoute.DeltaEvent {
      var frame := ChatRoute.Frame(event.delta);
      var line := ChatRoute.FrameLine(event.delta);
      assert [] + [frame] == [frame];
      ConcatMapSnoc(SelectLines, [], frame);
      FrameSelectsOneLine(event.delta);
      assert [line][..0] == [];
      ScriptSkipsFrameLine(event.delta);
    } else {
      assert AllLines([]) == [];
    }
  }

  /** The script finds no `path` in the relay's frames, so reading the relay it writes nothing and does not fail. */
  lemma {:induction false} ScriptIgnoresRelayFrames(events: seq<ChatRoute.UpstreamEvent>)
    ensures StreamingScript.Run(StreamingScript.ScriptLine, AllLines(ChatRoute.FramesOf(events)))
         == StreamingScript.Progress("", false)
  {
    if events != [] {
      var init, last := events[..|events| - 1], events[|events| - 1];
      assert events == init + [last];
      ConcatMapSnoc(ChatRoute.EventFrames, init, last);
      ConcatMapAppend(SelectLines, ChatRoute.FramesOf(init), ChatRoute.EventFrames(last));
      StreamingScript.RunAppend(StreamingScript.ScriptLine, AllLines(ChatRoute.FramesOf(init)), AllLines(ChatRoute.EventFrames(last)));
      ScriptIgnoresRelayFrames(init);
      ScriptSkipsEventFrames(last);
    }
  }

  /**
   * Where the page logs a `data: ` line whose payload is not JSON (or is `null`)
   * and reads on, the script throws and writes nothing more.
   */
  lemma PageSkipsWhereScriptStops(before: seq<string>, line: string, after: seq<string>)
    requires StartsWith(line, DataPrefix)
    requires Parse(line[|DataPrefix|..]).None? || Parse(line[|DataPrefix|..]) == Some(Null)
    requires !StreamingScript.Run(StreamingScript.ScriptLine, before).threw
    ensures ChatPage.LinesText(before + [line] + after) == ChatPage.LinesText(before) + ChatPage.LinesText(after)
    ensures StreamingScript.Run(StreamingScript.ScriptLine, before + [line] + after)
         == StreamingScript.Progress(StreamingScript.Run(StreamingScript.ScriptLine, before).written, true)
  {
    MalformedLine(line);
    ChatPage.SkippedLine(ChatPage.ReadLine, before, line, after);
    StreamingScript.RunAppend(StreamingScript.ScriptLine, before + [line], after);
    assert [line][..0] == [];
    StreamingScript.RunAppend(StreamingScript.ScriptLine, before, [line]);
  }
}
