# Chat quickstart: the streamed-reply pipeline

This project models the text pipeline of a small chat demo, in Dafny.

- **The chat page** (`app/page.tsx`, `sendMessage`). It guards a submission and appends the user message and an empty assistant placeholder. It posts `{message, apiKey, assistantId}` to the relay. It then reads the streamed reply chunk by chunk: each chunk is split on `"\n"`, blank lines are dropped, and every `data: ` line is parsed as JSON. The page appends each truthy `delta` to an accumulator and shows the accumulator in the last message. A line whose payload is not JSON, is `null`, or whose `delta` cannot be converted to a string is logged and skipped. When the request or a read fails, the page shows a fixed error text instead. `isLoading` is reset on every path.
- **The relay** (`app/api/chat/route.ts`, `POST`). It reads `message` from the request body and refuses a falsy one with 400. Otherwise it opens a streamed response from the upstream chat service for a fixed model and assistant. It forwards each `response.output_text.delta` event as one `data: {"delta":...}\n\n` frame. An upstream iteration that ends normally closes the stream; one that throws errors it. A failure before the stream is returned gives a 500 JSON reply.
- **The command-line script** (`streaming.ts`, `streamChat`). It posts one prompt to the chat service and reads the reply with the same line selection as the page. It writes `delta` to standard output only when `path` and `delta` are both truthy. It catches nothing: a malformed line ends the run.

## Files

- `options.dfy`: the `Option` type.
- `js_text.dfy`: `trim`, `startsWith`, `split`, and the concatenation of a list of strings.
- `json.dfy`: `JSON.parse` of RFC 8259 text, and `JSON.stringify` of an object whose members are strings. It also covers how JavaScript reads parsed values: property access, truthiness, and the `String` conversion done by `+=`. `JSON.parse` undoes `JSON.stringify` (`ParseStringifiedObject`).
- `event_stream.dfy`: how both readers cut chunks into candidate lines. This is a simplified subset of the server-sent-events format (section 9.2 of the WHATWG HTML Living Standard): one `data: ` line per event.
- `chat_page.dfy`: the page's state as a class, `Chat`. It holds the submission guard, the update-last updater and the reading loops. The loops are proved against the fold `StreamText` over the chunks.
- `chat_route.dfy`: frame encoding, the `Pump` loop and `POST`.
- `streaming_script.dfy`: the script's loops, proved against the fold `Run`.
- `pipeline.dfy`: properties of the programs taken together.
  - The page reads back exactly the deltas the relay forwards.
  - End to end, the page shows the forwarded answer, or the error text.
  - A frame cut mid-line is lost.
  - The script ignores the relay's frames.
  - On a malformed line the page skips and the script stops.

The network, the stream reader, the upstream SDK and standard output are replaced by values passed in:
- the decoded chunks, and whether a read fails;
- the upstream events, and how their iteration ends;
- what `fetch` returns.

React state updates are applied one after another, in the order the page issues them.

Chunks are read independently: a line is never joined across two chunks, so a frame that arrives split between chunks is lost (`Pipeline.FrameCutMidLineLosesDelta`). The text shown therefore depends on where the transport cuts the stream. The model follows the code, and proves the chunking irrelevant only when chunks end at line ends (`Pipeline.RechunkedAtLineEnds`, `Pipeline.ReceivedText`).

## Model

| member | source | states |
|---|---|---|
| JsText.TrimEmptyIffBlank | app/page.tsx:19 | `s.trim()` is empty, so `!s.trim()` holds, exactly when every character of `s` is ECMAScript whitespace |
| JsText.SplitPiecesLackSeparator | app/page.tsx:70 | no piece of `chunk.split("\n")` contains a line break |
| JsText.JoinSplit | app/page.tsx:70 | joining the pieces of a split with the separator gives back the chunk: nothing is lost or reordered |
| JsText.SplitWithoutSeparator | app/page.tsx:70 | a text without a line break splits into itself alone |
| JsText.SplitAtSeparator | app/page.tsx:70 | splitting around one line break splits each side independently |
| Json.StringifyObject | app/api/chat/route.ts:34 | the JSON text of a string-valued object holds no control character, so in particular no raw line break |
| Json.Lookup | app/page.tsx:76 | a found value belongs to a member with that name after which no member has that name, so a repeated name gives its last value as `JSON.parse` keeps it; nothing is found exactly when no member has the name |
| Json.Get | app/page.tsx:76 | reading a property throws exactly on `null`; it is defined exactly on an object that has a member with the name, and then its value is that of a member with the name followed by no other member with it |
| Json.ZeroLiteralMantissa | app/page.tsx:76 | `Truthy` counts a number falsy exactly when no digit of its mantissa, before any exponent marker, is `1` to `9`, so `0`, `-0.00` and `0e5` are falsy |
| Json.ToJsStringFails | app/page.tsx:77 | the `String` conversion `+=` applies to a delta (`ToJsString`) throws exactly on an object with its own `toString` member, or an array holding one among its non-null elements, at any depth of arrays |
| Json.JoinItemsFail | app/page.tsx:77 | joining an array's elements throws exactly when the conversion of some non-null element throws |
| Json.ParseQuoted | app/api/chat/route.ts:34 | `JSON.parse` reads a `JSON.stringify`-ed string back as that string, whatever characters it holds, and leaves the text after it |
| Json.ParseMembersText | app/api/chat/route.ts:34 | the members of a stringified object are parsed back in order, each value as the string it was |
| Json.ParseStringifiedObject | app/api/chat/route.ts:34 | `Parse`, the model of `JSON.parse`, undoes `JSON.stringify`: `JSON.parse(JSON.stringify(o)) == o` for an object whose members are strings |
| EventStream.NonBlankKeeps | app/page.tsx:70 | the filter keeps exactly the lines whose trimmed form is not empty |
| EventStream.NonBlankAppend | app/page.tsx:70 | filtering distributes over appending lists of lines |
| EventStream.SelectLinesMembers | app/page.tsx:70 | a candidate line is a non-blank piece of the chunk between line breaks, and holds no line break |
| EventStream.OneLine | app/page.tsx:70 | a chunk that is one non-blank line is read as that line |
| EventStream.LineThenBlankLine | app/api/chat/route.ts:34 | a non-blank line followed by `\n\n`, as a frame is written, is read as that line alone |
| EventStream.SelectLinesAppend | app/page.tsx:69-70 | two texts joined right after a line break give the lines of each, in order |
| EventStream.ConcatEndsLine | app/page.tsx:69-70 | chunks that each end a line concatenate to a text that ends a line |
| EventStream.AlignedChunksLines | app/page.tsx:65-70 | when every chunk but the last ends a line, reading chunk by chunk finds the lines of the whole text read at once |
| ChatPage.UpdateLast | app/page.tsx:79-88 | the updater keeps the length and every entry but the last; the last keeps its role and timestamp and gets the new content; an empty list stays empty |
| ChatPage.UpdateLastTwice | app/page.tsx:99-108 | only the latest update of the last message is visible, so the error text replaces any streamed content |
| ChatPage.UpdateLastUnchanged | app/page.tsx:79-88 | writing back the content the last message already has changes nothing |
| ChatPage.UpdateLastOfAppended | app/page.tsx:28-38 | updating the last message after the two appends touches only what was appended |
| ChatPage.AccumulatedAppend | app/page.tsx:72-94 | reading two runs of lines one after the other concatenates what each contributes |
| ChatPage.SkippedLine | app/page.tsx:72-92 | a line that `ReadLine` does not read as a delta (not data, no truthy `delta`, or a payload or conversion that throws into the `catch`) leaves the accumulator unchanged, and reading goes on with the following lines |
| ChatPage.StreamTextSnoc | app/page.tsx:65-70 | one more chunk adds the deltas of its own lines, and nothing else |
| ChatPage.StreamTextAppend | app/page.tsx:65-95 | the text of two runs of chunks is the text of the first run, then of the second |
| ChatPage.StreamTextGrows | app/page.tsx:76-88 | while chunks arrive the assistant message only grows: each earlier content is a prefix of each later one |
| ChatPage.FinalContent | app/page.tsx:65-88 | when the reply is read to its end, every content the assistant message showed along the way, after any line of any chunk, is a prefix of the content it ends with |
| ChatPage.Chat.constructor | app/page.tsx:12-16 | the initial state: no messages, empty fields, not loading |
| ChatPage.Chat.SetApiKey | app/page.tsx:143 | the API key field changes and nothing else does |
| ChatPage.Chat.SetAssistantId | app/page.tsx:155 | the assistant id field changes and nothing else does |
| ChatPage.Chat.SetInput | app/page.tsx:337 | the message field changes and nothing else does |
| ChatPage.Chat.Begin | app/page.tsx:19-38 | a refused submission changes nothing and sends nothing. An accepted one appends the untrimmed input as a user message and an empty assistant placeholder, clears the input and sets `isLoading`. It sends the input and both credentials |
| ChatPage.Chat.ShowLine | app/page.tsx:73-89 | one line adds its delta to the accumulator, and the last message shows the accumulator |
| ChatPage.Chat.ShowLines | app/page.tsx:72-94 | after a chunk's lines, the accumulator has gained those lines' deltas in order, and the last message shows it |
| ChatPage.Chat.Complete | app/page.tsx:40-111 | after the reply is read, only the last message has changed, to `FinalContent` of the reply, and `isLoading` is false |
| ChatPage.Chat.SendMessage | app/page.tsx:18-112 | a refused submission changes nothing; an accepted one ends with the user message and an assistant message holding `FinalContent` of the reply, an empty input and `isLoading` false |
| ChatRoute.FrameLine | app/api/chat/route.ts:34 | a frame's line starts with `data: ` and holds no line break, whatever the delta holds |
| ChatRoute.DeltaEvents | app/api/chat/route.ts:33 | the kept events are exactly the given ones of type `response.output_text.delta`: every kept event is one of them, and every one of them is kept |
| ChatRoute.FramesFollowDeltaEvents | app/api/chat/route.ts:32-35 | there is exactly one frame per text-delta event, in upstream order, and each is that event's delta frame |
| ChatRoute.Pump | app/api/chat/route.ts:28-43 | the enqueued chunks are the frames of the events; the stream is closed when the events run out, and errored with what the iteration threw otherwise |
| ChatRoute.ReadMessage | app/api/chat/route.ts:11 | when the body parses to a value other than `null`, `message` is defined exactly when the body is an object with a `message` member; when reading throws, the thrown value is always an `Error`, so a 500 for a bad body carries the engine's message |
| ChatRoute.Respond | app/api/chat/route.ts:9-63 | 400 exactly when the body is non-null JSON whose `message` is missing or falsy, so a whitespace-only message passes, and then the error is `Message is required`. An upstream request goes out exactly when `message` is truthy; it carries `message` verbatim, `gpt-4o`, `stream: true` and the fixed assistant id. The reply streams exactly when the upstream opened, with status 200, the three event-stream headers and the frames of its events, and closes exactly when the events ran out. 500 exactly when reading the body threw or the upstream call failed, and then the error is the thrown error's message, or `Internal server error` when the thrown value is not an `Error`. Every other reply is an unsuccessful 400 or 500 |
| ChatRoute.Post | app/api/chat/route.ts:9-63 | `POST` replies, and calls upstream, as `Respond` states |
| StreamingScript.RunAppend | streaming.ts:31-39 | two runs of lines in a row: the second runs only if the first did not throw, and the outputs concatenate |
| StreamingScript.RunGrows | streaming.ts:31-35 | output only grows, and nothing changes once a line has thrown |
| StreamingScript.WriteLines | streaming.ts:31-38 | the loop over a chunk's lines writes, and throws, as `Run` states |
| StreamingScript.WriteChunks | streaming.ts:24-39 | the loop over the chunks writes the in-order concatenation of the deltas of all lines up to the first that throws, and stops there |
| StreamingScript.StreamChat | streaming.ts:5-40 | the request goes to the chat URL and carries the input verbatim with the fixed assistant id and `stream: true`. Without a body the script writes nothing and finishes. With one it writes what `Run` gives over `ScriptLine`, and fails if a line threw or a read failed |
| StreamingScript.RunScript | streaming.ts:42 | the script's top level sends the fixed prompt, and writes and ends as `StreamChat` does |
| Pipeline.FrameSelectsOneLine | app/api/chat/route.ts:34 | a frame is read as exactly one candidate line, its `data: ` line |
| Pipeline.FramePayload | app/api/chat/route.ts:34 | the payload after `data: ` parses back to the `{delta}` object |
| Pipeline.ReadDeltaLine | app/page.tsx:73-77 | `ReadLine` reads a `data: ` line whose payload has a string `delta`, or none, as that delta; an empty or missing one adds nothing |
| Pipeline.PageReadsFrameLine | app/page.tsx:73-77 | `ReadLine` reads a frame line as its delta: the payload parses back (`FramePayload`) and its `delta` is the relay's string, or is missing (`DeltaOfPayload`); a missing or empty delta adds nothing |
| Pipeline.EventFramesText | app/api/chat/route.ts:32-35 | the page's text for the frames of one event is the event's delta if it is a text-delta event, and nothing otherwise |
| Pipeline.PageReadsForwardedText | app/api/chat/route.ts:32-37 | reading the relay's frames, the page accumulates exactly the forwarded deltas, in order |
| Pipeline.RechunkedAtLineEnds | app/page.tsx:65-70 | when chunks are cut only at line ends, the page's text is that of the whole stream read as one chunk |
| Pipeline.MalformedLine | streaming.ts:32-33 | on any `data: ` line whose payload is not JSON or is `null`, `ReadLine` ends in the page's `catch` and `ScriptLine` throws |
| Pipeline.OpeningPartLine | app/page.tsx:73-77 | any non-empty part of the opening `data: {`, read as a line, yields no delta: it is not data, or its payload does not parse |
| Pipeline.OpeningPartText | app/page.tsx:69-77 | a chunk holding any non-empty part of the opening `data: {` yields nothing on the page |
| Pipeline.NonDataChunkText | app/page.tsx:70-73 | a chunk holding one line that does not start with `d`, and a blank line, yields nothing on the page |
| Pipeline.OpeningTailText | app/page.tsx:70-73 | the rest of a line that opens with `data: {"`, cut anywhere inside that opening, yields nothing on the page |
| Pipeline.FrameTailText | app/page.tsx:70-73 | the rest of a frame line cut inside its opening yields nothing on the page |
| Pipeline.CutInsideLine | app/page.tsx:65-70 | cutting a frame inside its line gives the line's head, then its tail with the blank line, and the page's text is that of each in turn |
| Pipeline.CutFrameText | app/page.tsx:65-77 | both parts of a frame cut anywhere inside its opening yield nothing |
| Pipeline.FrameCutMidLineLosesDelta | app/page.tsx:65-77 | a frame delivered whole yields its non-empty delta; the same frame cut into two chunks at any point inside its opening `data: {`, which every frame line starts with followed by a quote (`DeltaFrameLineStart`), yields nothing |
| Pipeline.FramesEndLines | app/api/chat/route.ts:34 | every frame the relay enqueues ends a line |
| Pipeline.ReceivedText | app/page.tsx:65-95 | however the transport re-cuts the relay's frames, as long as it cuts only at line ends, the page accumulates exactly the forwarded deltas, in order |
| Pipeline.RelayReadsPageMessage | app/page.tsx:46-50 | the relay parses the page's request body (`Parse`, then `Get` of `message`, as `ReadMessage` does) and reads back its `message` as the string the page sent |
| Pipeline.RelayAnswersPage | app/api/chat/route.ts:11-51 | for a body the page posts with a non-empty message, the relay asks the upstream for that message, and streams its frames or answers 500 with its error |
| Pipeline.EndToEnd | app/page.tsx:40-95 | for a submission the page accepts, the relay always asks the upstream, for the page's message as typed; the page's credentials are not used. Whenever the relay's bytes reach the page (`Delivered`) cut only at line ends, the assistant message ends as the forwarded answer when the upstream's events run out, and as the error text otherwise |
| Pipeline.ScriptWriteIsPageDelta | streaming.ts:32-35 | whatever `ScriptLine` writes for a line, `ReadLine` appends the same text for that line |
| Pipeline.ScriptSkipsFrameLine | streaming.ts:32-36 | a relay frame has no `path`, so `ScriptLine` skips it |
| Pipeline.ScriptIgnoresRelayFrames | streaming.ts:31-36 | reading the relay's frames, the script writes nothing and does not fail |
| Pipeline.PageSkipsWhereScriptStops | streaming.ts:31-36 | after any `data: ` line whose payload is not JSON or is `null`, the page reads on as if the line were absent, while the script, had it not already thrown, stops with what it had written |

## Left out

- Json.ToJsString: a number is converted to its literal text, not to JavaScript's shortest form of its value (`1.0` gives `1.0`, where JavaScript gives `1`). Floating point is not modelled.
- Json.Truthy: a number literal is falsy exactly when all its mantissa digits are zero. A non-zero literal that underflows to zero in double precision, such as `1e-400`, counts as truthy here.
- Json.Get: only a parsed object's own members are looked up. Inherited properties of other values are not modelled; none of them is named `delta`, `path` or `message`.
- Json.Parse: a `\u` escape of a lone UTF-16 surrogate is refused, while `JSON.parse` accepts it. Strings here are sequences of Unicode scalar values.
- ChatPage.Chat.Complete: it requires the assistant placeholder to be the last message, still empty, which is how `Begin` leaves it. Interleaving with other state updates while the reply is awaited is not modelled.
- `TextDecoder`/`TextEncoder`: chunks are taken as already-decoded strings. A multi-byte character split between network chunks, which `decode` without `stream: true` garbles, is not modelled.
- `fetch`, `reader.read()`, `ReadableStream`, `controller.enqueue`, the upstream SDK's async iterator and `process.stdout.write` are replaced by values passed in or returned.
- The wording of the engine's own `SyntaxError` and `TypeError` is a parameter.
- React's scheduling and batching of `setMessages` are not modelled. Updates are applied in the order they are issued.
- `console.error` logging, the `Authorization` header built from the environment's API key, the relay's SDK client configuration (key and base URL), and an I/O failure of `request.json()` other than a parse error are not modelled.
- The relay's `event.delta` is taken to be a string or missing. A non-string delta would be stringified differently.
- The page's JSX, `handleKeyPress`, the `disabled` conditions and styling are not modelled. `app/layout.tsx`, `openai-responses.ts` and `demo.ts` are not part of this model: they are markup, or one-shot SDK calls that print a result.
- The script's top-level `await streamChat(...)` is modelled as `RunScript`, which applies `StreamChat` to `Prompt`. An unhandled rejection is reported as the `Crashed` outcome.
- Pipeline.FrameCutMidLineLosesDelta: the loss is proved for every cut inside the opening `data: {` (the first seven characters). A cut later inside the line also loses the delta, because neither part is then valid JSON, but proving that needs `JSON.parse` to fail on every truncated or headless JSON text, which is not done here.
- Pipeline.EndToEnd: the transport is assumed to cut the relay's bytes only at line ends; a cut inside a line loses that frame, as `Pipeline.FrameCutMidLineLosesDelta` shows. A stream the relay errors is assumed to make the page's next read reject, after whatever chunks it delivered.
