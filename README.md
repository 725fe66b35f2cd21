# Chat completions console: a verified model

This project models a small command-line chat program that talks to a chat-completions
service. The program has two interchangeable clients:

- a hand-rolled client, `task/clients/custom_client.py`, which posts JSON itself and reads
  the reply event stream frame by frame;
- a client built on the vendor SDK, `task/clients/client.py`, which loops over typed chunks.

A driver, `task/app.py`, asks three start-up questions. It then sends the system prompt once,
on its own, and runs a read–reply loop that grows the conversation until the user types
`exit`.

The model is split into modules:

- `Wrappers` holds `Option` and `Result`.
- `Text` holds the Python string operations the code relies on: `strip`, `removeprefix`,
  substring `in` and `''.join`.
- `Chat` holds roles, messages and `to_dict`.
- `Wire` holds decoded JSON shapes, with Python truthiness written out, plus request bodies
  and the raised errors.
- `Stream` is the shared shape of both streaming loops. Each item stops the loop, appends a
  piece, or raises. `Collect` is what the loop ends with.
- `CustomClient`, `SdkClient` and `App` model the three source files.
- `StreamExamples` holds worked streams for the custom client.

Each loop of the source is a `method` with a `while` loop. It is proved equal to a
specification function: `CustomClient.StreamResult`, `SdkClient.StreamResult`, or
`App.Session` for the chat loop. Lemmas then characterise those functions outright: what
content is collected, which frame stops the loop, which error wins, and what the
conversation looks like after k turns.

Two points where the code is followed literally:

- As written, `use_custom_client` holds for every answer. A non-empty answer is truthy, and
  `"" in "Yy"` is true. So the driver always builds the hand-rolled client
  (`App.CustomClientAlwaysChosen`).
- The default system prompt replaces only the empty answer. A whitespace-only answer is
  truthy in Python, so it is sent verbatim, although the prompt text speaks of leaving it
  "blank" (`App.SystemPrompt`).

## Model

| member | source | states |
|---|---|---|
| Text.StripShape | task/clients/custom_client.py:107 | `strip` never lengthens its argument and leaves no whitespace character (Python's `isspace` set) at either end |
| Text.StripUnique | task/clients/custom_client.py:107 | `strip` keeps exactly the part between a whitespace-only head and a whitespace-only tail whose own ends are not whitespace; this pins down every result |
| Text.StripIdempotent | task/clients/custom_client.py:107 | stripping twice is stripping once |
| Text.RemovePrefix | task/clients/custom_client.py:107 | with the prefix present, the prefix followed by the result is the input; otherwise the input is returned unchanged |
| Text.ContainsIffOccurs | task/app.py:18 | Python's substring `in` holds exactly when the needle occurs at some position of the haystack |
| Text.JoinAppend | task/clients/custom_client.py:92 | `''.join` of a list with one more piece is the old join followed by that piece |
| Chat.RoleOf | task/clients/custom_client.py:38-39 | a raw role is accepted only when it is the wire value of the role it yields; a missing role is never accepted |
| Chat.RoleOfValue | task/clients/custom_client.py:43 | every role is recognised from its own wire value |
| Chat.RoleMembership | task/clients/custom_client.py:38 | exactly "system", "user" and "assistant" pass the membership test |
| Chat.ToDict | task/clients/custom_client.py:96 | the serialised message has exactly the keys `role` and `content`, holding the role's wire value and the text |
| Chat.DictRoundTrip | task/clients/custom_client.py:96 | reading a serialised message back gives the message |
| Chat.DictFaithful | task/clients/custom_client.py:96 | any mapping that reads back as a message is exactly that message's serialisation |
| Wire.Get | task/clients/custom_client.py:36-40 | `.get` yields a value exactly when the member is present and not null, and that value is the member's own |
| Wire.PrepareRequestMessages | task/clients/custom_client.py:95-96 | same length as the conversation, and element i reads back as message i |
| Wire.RequestMessagesRoundTrip | task/clients/client.py:57-59 | the serialised conversation reads back as the same messages in the same order |
| Stream.StopIndex | task/clients/custom_client.py:72-89 | the loop leaves at the first item that does not append; every item before it appends |
| Stream.StopIndexAt | task/clients/client.py:40-50 | the first non-appending item is where the loop leaves |
| Stream.CollectUpToStop | task/clients/custom_client.py:72-89 | the loop succeeds exactly when it leaves on a stop or at the end, holding the pieces before that point in order; otherwise it raises the error of the item where it left, keeping nothing |
| Stream.CollectIgnoresRest | task/clients/client.py:40-47 | items after the one where the loop leaves are never looked at |
| CustomClient.EndpointNamesDeployment | task/clients/custom_client.py:19 | the endpoint URL is the base URL, the deployments path, the deployment name and the completions path, and names exactly that deployment |
| CustomClient.NewDialClient | task/clients/custom_client.py:17-19 | the client keeps its deployment name and posts to a URL under the base URL that names that deployment |
| CustomClient.RequestFor | task/clients/custom_client.py:22-25 | the body goes to the client's endpoint with its deployment as `model`, carries the stream flag, and its `messages` read back as the conversation |
| CustomClient.ValidateReply | task/clients/custom_client.py:33-43 | success iff choices, a truthy first message, a known role and a truthy content, in that order of checks; on success the role and content of `choices[0].message`; on failure the error of the first check that fails |
| CustomClient.GetCompletion | task/clients/custom_client.py:21-46 | one non-streamed request with the serialised conversation, whose decoded reply is validated as above |
| CustomClient.ParseStreamChunk | task/clients/custom_client.py:106-107 | the result is the stripped frame with one leading `data: ` removed when present, and otherwise the stripped frame |
| CustomClient.ParseFramedPayload | task/clients/custom_client.py:106-107 | a frame `data: <payload>` plus the blank-line delimiter reads back as its payload when the payload does not end in whitespace; only one prefix is removed |
| CustomClient.ParseDoneFrame | task/clients/custom_client.py:106-107 | `"data: [DONE]\n\n"` reads as `[DONE]` |
| CustomClient.ParseEmptyPayload | task/clients/custom_client.py:106-107 | a frame with an empty payload loses the space of its prefix to `strip` and reads as `data:` |
| CustomClient.FirstRole | task/clients/custom_client.py:64-70 | the first frame gives a role only when its first choice's `delta.role` holds that role's wire value, and always does then; otherwise the error of the first failing check: malformed JSON, no choices, a `null` delta, or the wrong role with the raw value (none when the delta is missing) |
| CustomClient.StreamCompletion | task/clients/custom_client.py:48-92 | the method returns what the stream specification gives for the frames the service sends for the streamed request |
| CustomClient.ReadContents | task/clients/custom_client.py:72-89 | the `while` loop over the frames after the first returns what `Collect` gives for their classification |
| CustomClient.ReadFrame | task/clients/custom_client.py:73-89 | one non-empty read inside the loop: `[DONE]` or a non-null `finish_reason` stops, a malformed frame, a missing choice, delta or content raises, and otherwise its content is appended, as `ClassifyFrame` says |
| CustomClient.FrameKinds | task/clients/custom_client.py:72-89 | a frame stops the loop iff it is an empty read, `[DONE]` or has a non-null `finish_reason`; it appends iff it does not stop and carries non-empty delta content, which is the piece appended |
| CustomClient.StreamOutcome | task/clients/custom_client.py:64-92 | the frames before the stop are all content frames; success iff the first frame names a role and the loop leaves on a stopping frame or at the end; the role is the first frame's, the content the in-order join of those frames' contents; otherwise the first frame's error or the first malformed frame's |
| CustomClient.StreamIgnoresLaterFrames | task/clients/custom_client.py:74-81 | frames after the stopping frame never change the result |
| CustomClient.FirstFrameGivesOnlyRole | task/clients/custom_client.py:64-70 | the first frame contributes only its role: first frames naming the same role give the same message |
| CustomClient.EmptyContentFails | task/clients/custom_client.py:85-86 | a non-stopping frame whose delta has a present but empty `content`, whatever else it holds, after content frames only, fails the call with "no content" and no partial message |
| CustomClient.EmptyStreamFails | task/clients/custom_client.py:64-65 | a stream that ends before its first frame fails with malformed JSON, because `json.loads` rejects the empty text |
| CustomClient.LoadJson | task/clients/custom_client.py:65-76 | the empty text and `[DONE]` never decode to an object |
| StreamExamples.ExampleFrames | task/clients/custom_client.py:106-107 | the example frames as sent on the wire read back as their JSON payloads and `[DONE]` |
| StreamExamples.ContentStep | task/clients/custom_client.py:85-89 | a frame whose delta has non-empty content appends that content |
| StreamExamples.FinishStep | task/clients/custom_client.py:80-81 | a frame with `finish_reason` "stop" stops the loop |
| StreamExamples.DoneStep | task/clients/custom_client.py:74-75 | the `[DONE]` frame stops the loop |
| StreamExamples.CollectHello | task/clients/custom_client.py:72-89 | content frames "Hel" and "lo" before a stopping frame collect both pieces in order |
| StreamExamples.HelloFromSteps | task/clients/custom_client.py:64-92 | an assistant role frame, then "Hel", "lo" and a stop, gives the assistant message "Hello" |
| StreamExamples.HelloByFinishReason | task/clients/custom_client.py:64-92 | the role frame, "Hel", "lo" and a `finish_reason` frame give "Hello", whatever frames follow the stop frame |
| StreamExamples.HelloByDoneSentinel | task/clients/custom_client.py:72-75 | the same stream ended by `[DONE]` also gives "Hello" |
| StreamExamples.WizardRoleFails | task/clients/custom_client.py:68-69 | a first frame with the role "wizard" fails with the wrong-role error before any later frame is read |
| SdkClient.RequestFor | task/clients/client.py:20-23 | the SDK request carries the deployment name and the conversation, which reads back unchanged |
| SdkClient.GetCompletion | task/clients/client.py:19-30 | fails with "no choices" exactly when there are none; otherwise the first choice's content under the assistant role |
| SdkClient.JoinPieces | task/clients/client.py:54 | `''.join` succeeds iff no piece is `None`, giving the pieces' texts concatenated in order; otherwise it is a type error |
| SdkClient.StreamCompletion | task/clients/client.py:32-54 | the method returns what the SDK stream specification gives for the chunks of the streamed request |
| SdkClient.StreamOutcome | task/clients/client.py:40-54 | the loop leaves at the first chunk with no choices or a truthy `finish_reason`; success iff it left on a stop or at the end and every earlier chunk has content; the result is the assistant role with those contents joined in order; a chunk with no choices there fails with the chunk error |
| SdkClient.StreamIgnoresLaterChunks | task/clients/client.py:45-47 | chunks after the stopping chunk never change the result |
| SdkClient.EmptyFinishReasonDoesNotStop | task/clients/client.py:45-50 | an empty `finish_reason` is falsy here: the chunk is not a stop and its content is appended |
| App.CustomClientAlwaysChosen | task/app.py:18 | as written, every answer, including "" and "n", selects the custom client |
| App.StreamingOffAnswers | task/app.py:46 | streaming is off exactly for the answers "N", "n" and "Nn"; any other answer, "no" included, leaves it on |
| App.NewClient | task/app.py:18-19 | the custom client is built iff the answer selects it, for the fixed model, posting under the configured base URL; otherwise the SDK client for the same model and base URL |
| App.SystemPrompt | task/app.py:23-24 | only the empty answer falls back to the default prompt; any other answer is used verbatim |
| App.ExitIndex | task/app.py:29-31 | the first line exactly equal to "exit", or the number of lines; no earlier line is "exit" |
| App.SessionAppendOnly | task/app.py:33-42 | the loop only appends: the starting conversation is a prefix of the final one |
| App.SessionCompleted | task/app.py:28-42 | a session that does not fail has one exchange per line before the first exact "exit": 2k entries after k turns, the typed lines at even positions, each reply computed from everything up to and including that line; it ends by "exit" exactly when that command occurs |
| App.SessionFailed | task/app.py:33-42 | a failed session has run, before some line n ahead of the first "exit", exactly the session of the earlier lines, then appended line n's user message, on which the client raised; the error is the client's |
| App.SessionFailedTranscript | task/app.py:33-42 | the same failure spelled out: 2n + 1 entries, the exchanges of the first n lines, then the user message of line n |
| App.SessionIgnoresAfterExit | task/app.py:29-31 | lines after the first "exit" are never read |
| App.Conversation.constructor | task/app.py:21 | the conversation starts empty |
| App.Start | task/app.py:16-42 | if the one-message priming call with the system prompt fails, the run fails with no conversation; otherwise the outcome is exactly the chat loop's over the input lines from an empty conversation, each call going to the chosen client, streamed or not as the flag says, and the system prompt is never stored |

## Left out

- HTTP transport: the POST calls, the aiohttp session and `raise_for_status` with its status-error wrapping. The service is a `Backend` value giving, for each request, the decoded reply, the successive frames or the SDK objects.
- Reading bytes with `readuntil` and UTF-8 decoding. Frames are given as text, and an empty read stands for the end of the stream.
- `json.loads` is modelled as `LoadJson`: the empty text and `[DONE]` always fail to decode, and any other text goes to a parameter `decode` giving a decoded object, or `None` for text that is not JSON. Decoded values that are not objects, or that have a `choices` member that is not a list, are not represented.
- A `choices[0]` that is not an object, `null` included (for example `{"choices": [null]}`), is not represented: the first choice is always an object in the model, although `.get` on it raises `AttributeError` (task/clients/custom_client.py lines 36, 68 and 80). A `message` or `delta` that is truthy but not an object, where `.get` also raises (lines 38, 68 and 85), is not represented either: these members are objects or are absent or `null`.
- A `role` or `content` that is not a string is not represented. For example, a numeric streamed content would be appended and `''.join` would then raise `TypeError` (task/clients/custom_client.py:89-92).
- Request headers and the API key; the base class and its fields beyond the deployment name.
- `print`, `input` and the module-level prompt code. The answers and the input lines are parameters; running out of input ends the session.
- `async`/`await` and `asyncio.run`: the code is treated as sequential.
- The SDK's `Dial`/`AsyncDial` objects and `cast`. The SDK is modelled only through the objects it returns.
- `DIAL_ENDPOINT` and `DEFAULT_SYSTEM_PROMPT` are fields of `Config`, not fixed strings.
- `Role`, `Message`, `Conversation` and `to_dict` are modelled from their use, because their defining modules are not part of this model.
- Chat.RoleOf: the membership test `raw in Role` is taken to accept exactly the three wire values. This is the value-membership behaviour of recent Python `Enum`s.
- SdkClient.GetCompletion: the first choice's message content is always a string; a `None` content, which the SDK can return, is not represented.
- The backend is deterministic: the same request always gets the same reply. Retries or varying replies are not represented.
