# DeepSeek .NET client — a Dafny model

This project models the core of the DeepSeek .NET SDK's `DeepSeekClient`. That core is
the server-sent-events loop that turns a streamed chat or completion body into a sequence
of `Choice` deltas. Around it are the request methods with their "return null and
record `ErrorMsg`" discipline, the forcing of the request's `Stream` flag, the choice of
the legacy completion path, and the `Message` factories.

Modules:

- `Wrappers` (`wrappers.dfy`): `Option`, which stands for the source's nullable references.
- `Text` (`text.dfy`): `char.IsWhiteSpace`, `string.IsNullOrWhiteSpace` and a prefix test.
- `Models` (`models.dfy`): `Message` and its factories, `Choice`, `ChatResponse` (only its
  choices), the two request classes (only the fields the client reads or writes), and
  `Parsed<T>`. `Parsed<T>` is what the JSON deserialiser yields: a record, the JSON
  literal `null`, or an exception.
- `StreamDecoder` (`stream_decoder.dfy`): what one line contributes (`Step`), the fold over
  the lines read so far (`Decoded`), and the loop (`ReadEvents`). `ReadEvents` is proved to
  produce `Decoded` of exactly the lines it read before cancellation. The lemmas state
  ordering, prefix-under-cancellation, the transparency of skipped lines (`[DONE]`
  included), and an independent filtered-map description of the output.
- `Client` (`client.dfy`): the class `DeepSeekClient`, with fields `chatEndpoint`,
  `completionEndpoint` and `errorMsg`, plus the base address of its transport. Each
  request method takes the server's answer as a parameter. Each one returns its result and
  the request it put on the wire. Its `ensures` ties the result and the new `errorMsg` to
  the specification functions `Settle` (non-streaming calls) or `SettleStream` (streaming
  calls).

The JSON decoder is a parameter `decode: string -> Parsed<T>`. Cancellation is a
parameter `cancel: Option<nat>`: the number of lines read when the loop head first finds
cancellation requested (`None`: never). A decoder exception in the middle of a stream
ends it. The items already handed over stay, and `faulted` is set.

The decoder does not trim the payload and does not stop at `data: [DONE]`, although
the request's `Stream` documentation says the stream ends with that line
(`src/DeepSeek.Core/Models/ChatRequest.cs:46`). The code compares the untrimmed payload
with `[DONE]` exactly, skips it, and keeps reading until the end of the body or
cancellation (`src/DeepSeek.Core/DeepSeekClient.cs:152-158`). The model follows the code
(`DoneLineDoesNotStop`, `PaddedSentinelIsDecoded`). `ListModelsAsync` does not check for
an empty body, unlike the other calls, and hands it to the decoder. The model follows the
code here too (`Settle` with `checksEmpty == false`).

## Model

| member | source | states |
|---|---|---|
| `Models.DefaultMessage` | src/DeepSeek.Core/Models/Message.cs:4-5 | a message built without initialiser has empty content and role `user` |
| `Models.NewUserMessage` | src/DeepSeek.Core/Models/Message.cs:8-15 | the result carries the given content and role `user` |
| `Models.NewSystemMessage` | src/DeepSeek.Core/Models/Message.cs:17-24 | the result carries the given content and role `system` |
| `Models.NewAssistantMessage` | src/DeepSeek.Core/Models/Message.cs:26-33 | the result carries the given content and role `assistant` |
| `Models.DefaultIsEmptyUserMessage` | src/DeepSeek.Core/Models/Message.cs:4-15 | the default message equals the user message with empty content |
| `Models.FactoriesInvertedByFields` | src/DeepSeek.Core/Models/Message.cs:8-33 | every message of a factory role is that factory applied to its content; the three factories never build the same message |
| `Models.ChatRequest.constructor` | src/DeepSeek.Core/Models/ChatRequest.cs:8-49 | a new chat request holds the given messages and model, with `Stream` false |
| `Models.CompletionRequest.constructor` | src/DeepSeek.Core/Models/CompletionRequest.cs:10-51 | a new completion request holds the given prompt and model, with `Stream` false |
| `StreamDecoder.Step` | src/DeepSeek.Core/DeepSeekClient.cs:155-166 | a line emits iff it starts with `data: `, its payload after the 6-character prefix is not white space only and not exactly `[DONE]`, and the payload decodes to a response with at least one choice; the choice emitted is the first one; a line without the prefix emits nothing; the line raises an exception iff such a payload is rejected by the decoder |
| `StreamDecoder.LinesRead` | src/DeepSeek.Core/DeepSeekClient.cs:152 | the loop never reads more lines than the body has |
| `StreamDecoder.ReadEvents` | src/DeepSeek.Core/DeepSeekClient.cs:152-169 | the loop hands over exactly `Decoded` of the lines read before cancellation is seen, stopping at the first decoder exception |
| `StreamDecoder.RunAppend` | src/DeepSeek.Core/DeepSeekClient.cs:152-169 | reading one batch of lines after another is reading their concatenation |
| `StreamDecoder.RunExtends` | src/DeepSeek.Core/DeepSeekClient.cs:152-169 | more lines only append items; after an exception nothing changes |
| `StreamDecoder.DecodedPrefix` | src/DeepSeek.Core/DeepSeekClient.cs:152-169 | the output after the first k lines is a prefix of the output after all lines, and equals it once an exception was raised |
| `StreamDecoder.FaultIsFinal` | src/DeepSeek.Core/DeepSeekClient.cs:160 | lines read after a rejected payload change nothing |
| `StreamDecoder.CancelledRunIsPrefix` | src/DeepSeek.Core/DeepSeekClient.cs:152 | the items of a cancelled run are a prefix of the items of the uncancelled run over the same lines |
| `StreamDecoder.SkippedLineIsTransparent` | src/DeepSeek.Core/DeepSeekClient.cs:155-165 | a line that emits nothing (no `data: ` prefix, blank payload, `[DONE]`, `null` or zero choices) can be removed without changing the output; later lines are still processed |
| `StreamDecoder.DoneLineDoesNotStop` | src/DeepSeek.Core/DeepSeekClient.cs:157-158 | `data: [DONE]` emits nothing and the lines after it are decoded as if it were absent |
| `StreamDecoder.PaddedSentinelIsDecoded` | src/DeepSeek.Core/DeepSeekClient.cs:157-160 | the sentinel comparison is exact: `data:  [DONE]` hands ` [DONE]` to the decoder |
| `StreamDecoder.FirstFault` | src/DeepSeek.Core/DeepSeekClient.cs:160 | the index of the first line whose payload the decoder rejects: no earlier line is rejected and that line is |
| `StreamDecoder.EmittedSnoc` | src/DeepSeek.Core/DeepSeekClient.cs:166 | the filtered map over lines plus one more line is the old one followed by that line's emission |
| `StreamDecoder.FirstFaultSnoc` | src/DeepSeek.Core/DeepSeekClient.cs:160 | how the first rejected line moves when a line is appended |
| `StreamDecoder.DecodedIsFilteredMap` | src/DeepSeek.Core/DeepSeekClient.cs:152-169 | the output is the first choice of each emitting line, in line order, up to the first rejected payload; it is marked faulted iff there is one |
| `StreamDecoder.OneChunkThenDone` | src/DeepSeek.Core/DeepSeekClient.cs:152-169 | a chunk, a blank line and `data: [DONE]` yield exactly the chunk's choice and no fault |
| `StreamDecoder.KeepAliveLinesIgnored` | src/DeepSeek.Core/DeepSeekClient.cs:155 | blank and `: keep-alive` lines between two chunks are ignored; both choices come out in order |
| `Client.Deserialized` | src/DeepSeek.Core/DeepSeekClient.cs:126 | a record becomes the result, `null` becomes no result, a rejected body becomes an exception |
| `Client.Settle` | src/DeepSeek.Core/DeepSeekClient.cs:114-126 | a failed status gives null with error `status + body`; a white-space success body, where checked, gives null with `empty response`; any other successful body gives what the decoder makes of it (the record, null, or the decoder's exception) and leaves the error untouched; the error changes only when the result is null |
| `Client.SettleStream` | src/DeepSeek.Core/DeepSeekClient.cs:147-176 | a failed status gives no items and error `status + body`; a successful status leaves the error untouched; on success the items are exactly the decode of the lines read before cancellation is seen, hence always a prefix of the full decode and equal to it without cancellation |
| `Client.CancelAfterFirstChunk` | src/DeepSeek.Core/DeepSeekClient.cs:152-166 | a successful stream whose cancellation is seen after its first line, a chunk with one choice, hands over exactly that choice, whatever follows, and leaves the error untouched |
| `Client.CompletionPath` | src/DeepSeek.Core/DeepSeekClient.cs:190-194 | the path is `/beta` + endpoint iff the base address is exactly `https://api.deepseek.com`, otherwise the endpoint unchanged; it always ends with the endpoint |
| `Client.DeepSeekClient.constructor` | src/DeepSeek.Core/DeepSeekClient.cs:50-53 | the injected transport's base address is kept; endpoints are the defaults; no error |
| `Client.DeepSeekClient.WithTransport` | src/DeepSeek.Core/DeepSeekClient.cs:55-66 | a transport without base address gets the default one; endpoints are the defaults; no error |
| `Client.DeepSeekClient.WithApiKey` | src/DeepSeek.Core/DeepSeekClient.cs:68-76 | the new transport has the default base address; endpoints are the defaults; no error |
| `Client.DeepSeekClient.SetChatEndpoint` | src/DeepSeek.Core/DeepSeekClient.cs:82-85 | only the chat endpoint changes |
| `Client.DeepSeekClient.SetCompletionEndpoint` | src/DeepSeek.Core/DeepSeekClient.cs:87-90 | only the completion endpoint changes |
| `Client.DeepSeekClient.RecordFailure` | src/DeepSeek.Core/DeepSeekClient.cs:97-98 | after a failed status the error is the status name followed by the body; the endpoints are unchanged |
| `Client.DeepSeekClient.ListModelsAsync` | src/DeepSeek.Core/DeepSeekClient.cs:92-102 | sends `GET /models`; result and new error as `Settle` with no empty-body check |
| `Client.DeepSeekClient.ChatAsync` | src/DeepSeek.Core/DeepSeekClient.cs:108-127 | sets `Stream` false before serialising and posts to the chat endpoint with it false; result and new error as `Settle` |
| `Client.DeepSeekClient.ChatStreamAsync` | src/DeepSeek.Core/DeepSeekClient.cs:136-177 | sets `Stream` true and posts to the chat endpoint with it true; items and new error as `SettleStream` |
| `Client.DeepSeekClient.CompletionsAsync` | src/DeepSeek.Core/DeepSeekClient.cs:185-210 | sets `Stream` false and posts to `CompletionPath`; result and new error as `Settle` |
| `Client.DeepSeekClient.CompletionsStreamAsync` | src/DeepSeek.Core/DeepSeekClient.cs:218-264 | sets `Stream` true and posts to `CompletionPath`; items and new error as `SettleStream`, the same function as for the chat stream, so both streams decode a body identically |
| `Client.DeepSeekClient.GetUserBalanceAsync` | src/DeepSeek.Core/DeepSeekClient.cs:271-288 | sends `GET /user/balance`; result and new error as `Settle` with the empty-body check |

## Left out

- HTTP transport: sending, headers-only completion, authorisation headers, `SetTimeout`, and the 100 ms delay before a completion call. The server's answer is a parameter. The request on the wire is an out-parameter.
- The status text: `HttpStatusCode.ToString()` is given with the response (`statusName`). The runtime's table of status names is not modelled.
- Splitting the body into lines (`StreamReader.ReadLineAsync`): the streaming methods receive the lines directly.
- JSON serialisation and its naming options: the decoder is a parameter, and the request body is the record of serialised fields.
- Asynchrony and laziness: in the source nothing runs, not even the `Stream` assignment, until the consumer first pulls an item. The model runs each call to completion. Back-pressure and the release of the response and reader are not modelled. The completion stream does not dispose its response in the source.
- Cancellation before the loop: a token already cancelled makes `SendAsync` or `ReadAsStreamAsync` throw. The model observes cancellation only at the loop head.
- `StreamDecoder.Step`: the prefix test is ordinal. The source's `StartsWith(string)` is culture-sensitive. The two differ on lines whose leading characters include characters the culture ignores (soft hyphen, zero-width characters) or otherwise compare equal to `data: `. For such a line the source hands the text after its sixth character to the decoder, while the model skips the line.
- The transport's base address is a snapshot taken when the client is constructed (`httpBaseAddress` is a constant). The source reads the shared, mutable `HttpClient.BaseAddress` at each completion call, and the constructor taking a transport and a key writes the default address into the caller's transport. Two clients sharing one transport, or a base address changed after construction, are not modelled.
- Null choices: `ChatResponse` holds a sequence of non-null choices. A chunk whose `choices` is JSON `null` makes the source throw; the model folds this into the decoder answering `Malformed`. A chunk whose first choice is `null` is skipped by the source; the model folds this into the decoder answering an empty choice list or `JsonNull`.
- Floating-point sampling fields, stop sequences, tools, log-probabilities, usage, and the other response fields: no client logic reads them.
- `SetTimeout`, `JsonSerializerOptions` and `BetaBaseAddress` (declared, never used): configuration with no logic.
- `ModelResponse` and `UserResponse` are left as a type parameter of `ListModelsAsync` and `GetUserBalanceAsync`, as pure data shapes.
- The DI registration in `src/DeepSeek.AspNetCore/Extension.cs`, the sample programs, and `Constant.cs` (needed constants are inlined).
