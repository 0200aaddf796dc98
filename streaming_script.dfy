/**
 * The command-line client (streaming.ts): it posts one prompt to the chat
 * service, reads the streamed reply chunk by chunk, and writes to standard
 * output the `delta` of every `data: ` line whose payload has a truthy `path`
 * and a truthy `delta`. Unlike the page it catches nothing: a line that is not
 * JSON, a `null` payload or a delta that is not a string ends the run with an
 * error.
 */
module StreamingScript {
  import opened Options
  import opened JsText
  import opened Json
  import opened EventStream

  const ChatUrl := "https://api.vapi.ai/chat"

  const AssistantId := "2abd3196-bfec-4f25-9131-8ec04328be95"

  /** The prompt the script sends when it is run. */
  const Prompt := "Can you write me a poem about Vapi"

  /** The request the script sends: its URL, and the fields of `JSON.stringify({assistantId, input, stream: true})`. */
  datatype ScriptRequest = ScriptRequest(url: string, assistantId: string, input: string, stream: bool)

  /** What the script does with one non-blank line. */
  datatype LineAction =
    | Skip                // not a `data: ` line, or `path` or `delta` is falsy
    | Write(text: string) // `process.stdout.write(data.delta)`
    | Throw               // JSON.parse, the property read or the write threw

  /** The body of the `for (const line of lines)` loop of `streamChat`. */
  function ScriptLine(line: string): LineAction {
    if !StartsWith(line, DataPrefix) then Skip
    else
      match Parse(line[|DataPrefix|..])
      case None => Throw
      case Some(data) =>
        var path := Get(data, "path");
        if path.NullAccess? then Throw
        else if !IsTruthy(path) then Skip
        else
          var delta := Get(data, "delta");
          if !IsTruthy(delta) then Skip
          // `stdout.write` accepts a string; any other value makes it throw
          else if delta.value.Str? then Write(delta.value.s)
          else Throw
  }

  /** What the script has written so far, and whether it has thrown. */
  datatype Progress = Progress(written: string, threw: bool)

  /** The progress after `lines`, for the per-line action `step`: nothing runs after a throw. */
  function Run(step: string -> LineAction, lines: seq<string>): Progress {
    if lines == [] then Progress("", false)
    else
      var before := Run(step, lines[..|lines| - 1]);
      if before.threw then before
      else
        match step(lines[|lines| - 1])
        case Skip => before
        case Write(text) => Progress(before.written + text, false)
        case Throw => Progress(before.written, true)
  }

  /** Running two runs of lines one after the other: the second runs only if the first did not throw. */
  lemma {:induction false} RunAppend(step: string -> LineAction, a: seq<string>, b: seq<string>)
    ensures Run(step, a + b) ==
      if Run(step, a).threw then Run(step, a)
      else Progress(Run(step, a).written + Run(step, b).written, Run(step, b).threw)
  {
    if b == [] {
      assert a + b == a;
    } else {
      var init, last := b[..|b| - 1], b[|b| - 1];
      assert a + b == (a + init) + [last];
      assert (a + b)[..|a + b| - 1] == a + init;
      RunAppend(step, a, init);
    }
  }

  /** Output only grows: what was written after some lines is a prefix of what is written after more. */
  lemma RunGrows(step: string -> LineAction, a: seq<string>, b: seq<string>)
    ensures Run(step, a).written <= Run(step, a + b).written
    ensures Run(step, a).threw ==> Run(step, a + b) == Run(step, a)
  {
    RunAppend(step, a, b);
  }

  /**
   * The inner loop over the lines of one chunk, for the per-line action `step`
   * (the script's is `ScriptLine`); it stops at the first line that throws.
   */
  method WriteLines(step: string -> LineAction, lines: seq<string>) returns (progress: Progress)
    ensures progress == Run(step, lines)
  {
    progress := Progress("", false);
    for j := 0 to |lines|
      invariant progress == Run(step, lines[..j])
      invariant !progress.threw
    {
      assert lines[..j + 1] == lines[..j] + [lines[j]];
      assert lines[..j + 1][..j] == lines[..j];
      var action := step(lines[j]);
      match action
      case Skip =>
      case Write(text) =>
        progress := Progress(progress.written + text, false);
      case Throw =>
        RunGrows(step, lines[..j + 1], lines[j + 1..]);
        assert lines[..j + 1] + lines[j + 1..] == lines;
        return Progress(progress.written, true);
    }
    assert lines[..|lines|] == lines;
  }

  /** What `fetch` gives the script. */
  datatype ScriptResponse =
    | Rejected                                       // `fetch` itself rejected
    | NoBody                                         // `response.body` is null: no reader
    | Streamed(chunks: seq<string>, readFails: bool)  // the decoded chunks, then `done` or a failed read

  /** How the run ends: `streamChat` resolves, or its rejection reaches the top-level `await`. */
  datatype Outcome = Finished | Crashed

  /** What the script writes and how it ends, for what `fetch` gives it. */
  function ScriptResult(response: ScriptResponse): (Progress, Outcome) {
    match response
    case Rejected => (Progress("", true), Crashed)
    case NoBody => (Progress("", false), Finished)
    case Streamed(chunks, readFails) =>
      var progress := Run(ScriptLine, AllLines(chunks));
      (progress, if progress.threw || readFails then Crashed else Finished)
  }

  /**
   * The `while (true)` loop of `streamChat` over the decoded chunks, for the
   * per-line action `step`: each chunk's non-blank lines in turn, until a line throws.
   */
  method WriteChunks(step: string -> LineAction, chunks: seq<string>) returns (progress: Progress)
    ensures progress == Run(step, AllLines(chunks))
  {
    progress := Progress("", false);
    var i := 0;
    while i < |chunks|
      invariant 0 <= i <= |chunks|
      invariant progress == Run(step, AllLines(chunks[..i]))
      invariant !progress.threw
    {
      assert chunks[..i + 1] == chunks[..i] + [chunks[i]];
      ConcatMapSnoc(SelectLines, chunks[..i], chunks[i]);
      RunAppend(step, AllLines(chunks[..i]), SelectLines(chunks[i]));
      var lines := WriteLines(step, SelectLines(chunks[i]));
      progress := Progress(progress.written + lines.written, lines.threw);
      if progress.threw {
        assert chunks[..i + 1] + chunks[i + 1..] == chunks;
        ConcatMapAppend(SelectLines, chunks[..i + 1], chunks[i + 1..]);
        RunGrows(step, AllLines(chunks[..i + 1]), AllLines(chunks[i + 1..]));
        return;
      }
      i := i + 1;
    }
    assert chunks[..|chunks|] == chunks;
  }

  /**
   * `streamChat(input)`: the request it sends, what it writes, and how it ends;
   * `response` stands for what `fetch` does with the request.
   */
  method StreamChat(input: string, response: ScriptResponse) returns (request: ScriptRequest, written: string, outcome: Outcome)
    ensures request == ScriptRequest(ChatUrl, AssistantId, input, true)
    ensures written == ScriptResult(response).0.written
    ensures outcome == ScriptResult(response).1
  {
    request := ScriptRequest(ChatUrl, AssistantId, input, true);
    match response
    case Rejected =>
      written, outcome := "", Crashed;
    case NoBody =>
      written, outcome := "", Finished;
    case Streamed(chunks, readFails) =>
      var progress := WriteChunks(ScriptLine, chunks);
      written := progress.written;
      outcome := if progress.threw || readFails then Crashed else Finished;
  }

  /** The script's top level, `await streamChat(...)` on the fixed prompt. */
  method RunScript(response: ScriptResponse) returns (request: ScriptRequest, written: string, outcome: Outcome)
    ensures request == ScriptRequest(ChatUrl, AssistantId, Prompt, true)
    ensures written == ScriptResult(response).0.written
    ensures outcome == ScriptResult(response).1
  {
    request, written, outcome := StreamChat(Prompt, response);
  }
}
