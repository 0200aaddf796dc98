/**
 * The chat page (app/page.tsx): its conversation state, the submission guard,
 * the two message appends, the "update the last message" updater and the loop
 * that reads the relay's response, turns its `data: ` lines into deltas and
 * shows their running concatenation in the assistant message.
 *
 * React state updates are applied one after another, in the order the page
 * issues them; each `await reader.read()` is one turn of the outer loop.
 */
module ChatPage {
  import opened Options
  import opened JsText
  import opened Json
  import opened EventStream

  /** A `new Date()` value; the model never looks inside it. */
  type Timestamp = int

  datatype Role = User | Assistant

  datatype Message = Message(role: Role, content: string, timestamp: Timestamp)

  /** The fixed text that replaces the assistant message when the request or a read fails. */
  const ErrorReply := "Sorry, I encountered an error. Please try again."

  // ---------------------------------------------------------------------------
  // The conversation container
  // ---------------------------------------------------------------------------

  /**
   * The updater given to `setMessages` while streaming and on failure: a copy of
   * the list whose last message gets `content` and keeps its role and timestamp.
   */
  function UpdateLast(messages: seq<Message>, content: string): (r: seq<Message>)
    ensures |r| == |messages|
    ensures forall i :: 0 <= i < |messages| - 1 ==> r[i] == messages[i]
    ensures messages != [] ==>
      var last, old_last := r[|r| - 1], messages[|messages| - 1];
      last.content == content && last.role == old_last.role && last.timestamp == old_last.timestamp
  {
    if messages == [] then []
    else
      var last := messages[|messages| - 1];
      messages[..|messages| - 1] + [Message(last.role, content, last.timestamp)]
  }

  /** Only the latest update of the last message is visible. */
  lemma UpdateLastTwice(messages: seq<Message>, first: string, second: string)
    ensures UpdateLast(UpdateLast(messages, first), second) == UpdateLast(messages, second)
  {
  }

  /** Writing back the content the last message already has changes nothing. */
  lemma UpdateLastUnchanged(messages: seq<Message>)
    requires messages != []
    ensures UpdateLast(messages, messages[|messages| - 1].content) == messages
  {
  }

  /** Updating the last of a list that was extended touches only the extension. */
  lemma UpdateLastOfAppended(history: seq<Message>, added: seq<Message>, content: string)
    requires added != []
    ensures UpdateLast(history + added, content) == history + UpdateLast(added, content)
  {
    assert (history + added)[..|history + added| - 1] == history + added[..|added| - 1];
  }

  // ---------------------------------------------------------------------------
  // Reading the relay's response
  // ---------------------------------------------------------------------------

  /** What the page makes of one candidate line. */
  datatype LineOutcome =
    | NotData          // does not start with `data: `
    | Failed           // JSON.parse, reading `.delta` or converting it by `+=` threw: logged and skipped
    | NoDelta          // parsed, but `delta` is missing or falsy
    | Delta(text: string)

  /** The body of the `for (const line of lines)` loop: how one line is read. */
  function ReadLine(line: string): LineOutcome {
    if !StartsWith(line, DataPrefix) then NotData
    else
      match Parse(line[|DataPrefix|..])
      case None => Failed
      case Some(data) =>
        var delta := Get(data, "delta");
        if delta.NullAccess? then Failed
        else if !IsTruthy(delta) then NoDelta
        else
          match ToJsString(delta.value)
          case None => Failed
          case Some(text) => Delta(text)
  }

  /** What an outcome adds to `accumulatedContent`. */
  function DeltaText(outcome: LineOutcome): string {
    if outcome.Delta? then outcome.text else ""
  }

  /** `accumulatedContent` after reading `lines` in order with the line reader `read`. */
  function Accumulated(read: string -> LineOutcome, lines: seq<string>): string {
    if lines == [] then ""
    else Accumulated(read, lines[..|lines| - 1]) + DeltaText(read(lines[|lines| - 1]))
  }

  /** Reading one more line adds what that line contributes. */
  lemma AccumulatedSnoc(read: string -> LineOutcome, lines: seq<string>, line: string)
    ensures Accumulated(read, lines + [line]) == Accumulated(read, lines) + DeltaText(read(line))
  {
    assert (lines + [line])[..|lines|] == lines;
  }

  /** Reading one more line of a list adds what that line contributes. */
  lemma AccumulatedPrefix(read: string -> LineOutcome, lines: seq<string>, j: nat)
    requires j < |lines|
    ensures Accumulated(read, lines[..j + 1]) == Accumulated(read, lines[..j]) + DeltaText(read(lines[j]))
  {
    assert lines[..j + 1][..j] == lines[..j];
  }

  /** Reading two runs of lines one after the other concatenates what each contributes. */
  lemma {:induction false} AccumulatedAppend(read: string -> LineOutcome, a: seq<string>, b: seq<string>)
    ensures Accumulated(read, a + b) == Accumulated(read, a) + Accumulated(read, b)
  {
    if b == [] {
      assert a + b == a;
    } else {
      var init, last := b[..|b| - 1], b[|b| - 1];
      assert a + b == (a + init) + [last];
      assert b == init + [last];
      AccumulatedSnoc(read, a + init, last);
      AccumulatedSnoc(read, init, last);
      AccumulatedAppend(read, a, init);
    }
  }

  /**
   * A line that yields no delta, including one whose payload does not parse,
   * leaves the accumulator as it was, and reading goes on with the next line.
   */
  lemma SkippedLine(read: string -> LineOutcome, before: seq<string>, line: string, after: seq<string>)
    requires !read(line).Delta?
    ensures Accumulated(read, before + [line] + after) == Accumulated(read, before) + Accumulated(read, after)
  {
    AccumulatedAppend(read, before + [line], after);
    AccumulatedSnoc(read, before, line);
  }

  /** `accumulatedContent` once the page has read `lines`. */
  function LinesText(lines: seq<string>): string {
    Accumulated(ReadLine, lines)
  }

  /** `accumulatedContent` once the reader reports `done` after `chunks`. */
  function StreamText(chunks: seq<string>): string {
    LinesText(AllLines(chunks))
  }

  /** One more chunk adds the deltas of its own lines, and nothing else. */
  lemma StreamTextSnoc(chunks: seq<string>, chunk: string)
    ensures StreamText(chunks + [chunk]) == StreamText(chunks) + LinesText(SelectLines(chunk))
  {
    ConcatMapSnoc(SelectLines, chunks, chunk);
    AccumulatedAppend(ReadLine, AllLines(chunks), SelectLines(chunk));
  }

  /** The text of a run of chunks followed by another is the text of the first run, then of the second. */
  lemma StreamTextAppend(a: seq<string>, b: seq<string>)
    ensures StreamText(a + b) == StreamText(a) + StreamText(b)
  {
    ConcatMapAppend(SelectLines, a, b);
    AccumulatedAppend(ReadLine, AllLines(a), AllLines(b));
  }

  /** The assistant message only grows while chunks arrive: each earlier content is a prefix of each later one. */
  lemma StreamTextGrows(chunks: seq<string>, i: nat, j: nat)
    requires i <= j <= |chunks|
    ensures StreamText(chunks[..i]) <= StreamText(chunks[..j])
  {
    assert chunks[..i] + chunks[i..j] == chunks[..j];
    StreamTextAppend(chunks[..i], chunks[i..j]);
  }

  /** Every content shown while the chunks arrive is a prefix of the content once they have all arrived. */
  lemma ShownPrefixes(chunks: seq<string>)
    ensures forall k :: 0 <= k <= |chunks| ==> StreamText(chunks[..k]) <= StreamText(chunks)
  {
    assert chunks[..|chunks|] == chunks;
    forall k | 0 <= k <= |chunks|
      ensures StreamText(chunks[..k]) <= StreamText(chunks)
    {
      StreamTextGrows(chunks, k, |chunks|);
    }
  }

  /** Every content shown after a line, within a chunk or at its end, is a prefix of the content once all lines are read. */
  lemma ShownLinePrefixes(lines: seq<string>)
    ensures forall n :: 0 <= n <= |lines| ==> LinesText(lines[..n]) <= LinesText(lines)
  {
    forall n | 0 <= n <= |lines|
      ensures LinesText(lines[..n]) <= LinesText(lines)
    {
      assert lines[..n] + lines[n..] == lines;
      AccumulatedAppend(ReadLine, lines[..n], lines[n..]);
    }
  }

  // ---------------------------------------------------------------------------
  // The page's state and `sendMessage`
  // ---------------------------------------------------------------------------

  /** What `reader.read()` yields: some chunks, then `done`, or a rejected read. */
  datatype Body = Body(chunks: seq<string>, readFails: bool)

  /** What `fetch("/api/chat", ...)` gives: a rejected promise, or a response and its body if any. */
  datatype Reply = FetchRejected | Response(ok: bool, body: Option<Body>)

  /** The JSON body the page posts to the relay. */
  datatype ChatRequest = ChatRequest(message: string, apiKey: string, assistantId: string)

  /** The body the page posts: `JSON.stringify({message, apiKey, assistantId})`. */
  function RequestBody(request: ChatRequest): string {
    StringifyObject([("message", request.message), ("apiKey", request.apiKey), ("assistantId", request.assistantId)])
  }

  /** The guard at the head of `sendMessage`: it goes on only when this holds. */
  predicate Accepts(input: string, isLoading: bool, apiKey: string, assistantId: string) {
    Trim(input) != "" && !isLoading && Trim(apiKey) != "" && Trim(assistantId) != ""
  }

  /** The content the assistant message ends with once the reply has been read. */
  function FinalContent(reply: Reply): (r: string)
    ensures reply.Response? && reply.ok && reply.body.Some? && !reply.body.value.readFails
            ==> r == StreamText(reply.body.value.chunks)
    ensures !(reply.Response? && reply.ok && reply.body.Some? && !reply.body.value.readFails)
            ==> r == ErrorReply
    ensures reply.Response? && reply.ok && reply.body.Some? && !reply.body.value.readFails
            ==> forall k :: 0 <= k <= |reply.body.value.chunks| ==> StreamText(reply.body.value.chunks[..k]) <= r
    ensures reply.Response? && reply.ok && reply.body.Some? && !reply.body.value.readFails
            ==> forall n :: 0 <= n <= |AllLines(reply.body.value.chunks)| ==> LinesText(AllLines(reply.body.value.chunks)[..n]) <= r
  {
    match reply
    case Response(true, Some(Body(chunks, false))) =>
      ShownPrefixes(chunks);
      ShownLinePrefixes(AllLines(chunks));
      StreamText(chunks)
    case _ => ErrorReply
  }

  class Chat {
    var messages: seq<Message>
    var input: string
    var isLoading: bool
    var apiKey: string
    var assistantId: string

    /** The initial `useState` values. */
    constructor ()
      ensures messages == [] && input == "" && !isLoading && apiKey == "" && assistantId == ""
    {
      messages, input, isLoading, apiKey, assistantId := [], "", false, "", "";
    }

    /** The `onChange` handler of the API key field. */
    method SetApiKey(value: string)
      modifies this
      ensures apiKey == value
      ensures messages == old(messages) && input == old(input) && isLoading == old(isLoading)
      ensures assistantId == old(assistantId)
    {
      apiKey := value;
    }

    /** The `onChange` handler of the assistant id field. */
    method SetAssistantId(value: string)
      modifies this
      ensures assistantId == value
      ensures messages == old(messages) && input == old(input) && isLoading == old(isLoading)
      ensures apiKey == old(apiKey)
    {
      assistantId := value;
    }

    /** The `onChange` handler of the message field. */
    method SetInput(value: string)
      modifies this
      ensures input == value
      ensures messages == old(messages) && isLoading == old(isLoading)
      ensures apiKey == old(apiKey) && assistantId == old(assistantId)
    {
      input := value;
    }

    /**
     * The synchronous part of `sendMessage`, up to the first `await`: the guard,
     * then the user message and the empty assistant placeholder. A refused
     * submission changes nothing and sends nothing.
     */
    method Begin(userTime: Timestamp, assistantTime: Timestamp) returns (request: Option<ChatRequest>)
      modifies this
      ensures apiKey == old(apiKey) && assistantId == old(assistantId)
      ensures !Accepts(old(input), old(isLoading), old(apiKey), old(assistantId)) ==>
        request == None && messages == old(messages) && input == old(input) && isLoading == old(isLoading)
      ensures Accepts(old(input), old(isLoading), old(apiKey), old(assistantId)) ==>
        && request == Some(ChatRequest(old(input), apiKey, assistantId))
        && messages == old(messages) + [Message(User, old(input), userTime), Message(Assistant, "", assistantTime)]
        && input == ""
        && isLoading
    {
      if Trim(input) == "" || isLoading || Trim(apiKey) == "" || Trim(assistantId) == "" {
        return None;
      }
      var sent := input;
      messages := messages + [Message(User, sent, userTime)];
      input := "";
      isLoading := true;
      messages := messages + [Message(Assistant, "", assistantTime)];
      request := Some(ChatRequest(sent, apiKey, assistantId));
    }

    /** The assistant placeholder is the last message and is still empty. */
    predicate AwaitingReply()
      reads this
    {
      messages != [] && messages[|messages| - 1].content == ""
    }

    /**
     * One turn of the `for (const line of lines)` loop, for the line reader `read`
     * (the page's is `ReadLine`): a delta is appended to the accumulator, and the
     * accumulator is written into the last message.
     */
    method ShowLine(read: string -> LineOutcome, line: string, accumulated: string, ghost start: seq<Message>)
      returns (result: string)
      requires start != [] && start[|start| - 1].content == ""
      requires messages == UpdateLast(start, accumulated)
      modifies this
      ensures result == accumulated + DeltaText(read(line))
      ensures messages == UpdateLast(start, result)
      ensures input == old(input) && isLoading == old(isLoading)
      ensures apiKey == old(apiKey) && assistantId == old(assistantId)
    {
      result := accumulated;
      var outcome := read(line);
      if outcome.Delta? {
        UpdateLastTwice(start, result, result + outcome.text);
        result := result + outcome.text;
        messages := UpdateLast(messages, result);
      }
    }

    /** The `for (const line of lines)` loop over the lines of one chunk. */
    method ShowLines(read: string -> LineOutcome, lines: seq<string>, accumulated: string, ghost start: seq<Message>)
      returns (result: string)
      requires start != [] && start[|start| - 1].content == ""
      requires messages == UpdateLast(start, accumulated)
      modifies this
      ensures result == accumulated + Accumulated(read, lines)
      ensures messages == UpdateLast(start, result)
      ensures input == old(input) && isLoading == old(isLoading)
      ensures apiKey == old(apiKey) && assistantId == old(assistantId)
    {
      result := accumulated;
      for j := 0 to |lines|
        invariant result == accumulated + Accumulated(read, lines[..j])
        invariant messages == UpdateLast(start, result)
        invariant input == old(input) && isLoading == old(isLoading)
        invariant apiKey == old(apiKey) && assistantId == old(assistantId)
      {
        AccumulatedPrefix(read, lines, j);
        result := ShowLine(read, lines[j], result, start);
      }
      assert lines[..|lines|] == lines;
    }

    /**
     * The rest of `sendMessage`, once the placeholder is shown: read the reply,
     * showing the accumulated deltas in the last message, or the error text when
     * the request or a read fails; `isLoading` is reset on every path.
     */
    method Complete(reply: Reply)
      requires AwaitingReply()
      modifies this
      ensures input == old(input) && apiKey == old(apiKey) && assistantId == old(assistantId)
      ensures !isLoading
      ensures messages == UpdateLast(old(messages), FinalContent(reply))
    {
      if reply.FetchRejected? || !reply.ok || reply.body.None? {
        messages := UpdateLast(messages, ErrorReply);
        isLoading := false;
        return;
      }
      var chunks := reply.body.value.chunks;
      var accumulated := "";
      ghost var start := messages;
      UpdateLastUnchanged(start);
      var i := 0;
      while i < |chunks|
        invariant 0 <= i <= |chunks|
        invariant accumulated == StreamText(chunks[..i])
        invariant messages == UpdateLast(start, accumulated)
        invariant input == old(input) && apiKey == old(apiKey) && assistantId == old(assistantId)
      {
        accumulated := ShowLines(ReadLine, SelectLines(chunks[i]), accumulated, start);
        StreamTextSnoc(chunks[..i], chunks[i]);
        assert chunks[..i + 1] == chunks[..i] + [chunks[i]];
        i := i + 1;
      }
      assert chunks[..|chunks|] == chunks;
      if reply.body.value.readFails {
        UpdateLastTwice(start, accumulated, ErrorReply);
        messages := UpdateLast(messages, ErrorReply);
      }
      isLoading := false;
    }

    /** `sendMessage`: `Begin`, then, for an accepted submission, `Complete` with the relay's reply. */
    method SendMessage(reply: Reply, userTime: Timestamp, assistantTime: Timestamp) returns (request: Option<ChatRequest>)
      modifies this
      ensures apiKey == old(apiKey) && assistantId == old(assistantId)
      ensures !Accepts(old(input), old(isLoading), old(apiKey), old(assistantId)) ==>
        request == None && messages == old(messages) && input == old(input) && isLoading == old(isLoading)
      ensures Accepts(old(input), old(isLoading), old(apiKey), old(assistantId)) ==>
        && request == Some(ChatRequest(old(input), apiKey, assistantId))
        && messages == old(messages) + [Message(User, old(input), userTime),
                                        Message(Assistant, FinalContent(reply), assistantTime)]
        && input == ""
        && !isLoading
    {
      request := Begin(userTime, assistantTime);
      if request.Some? {
        ghost var history := messages;
        assert AwaitingReply();
        Complete(reply);
        var added := [Message(User, request.value.message, userTime), Message(Assistant, "", assistantTime)];
        UpdateLastOfAppended(history[..|history| - 2], added, FinalContent(reply));
        assert history == history[..|history| - 2] + added;
      }
    }
  }
}
