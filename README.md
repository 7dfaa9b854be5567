# Conversation API client: response filter and aggregator

A Dafny model of a small Python client for a streaming conversational HTTP
endpoint. The client posts a JSON prompt payload to
`<base_url>/backend-api/v2/conversation` and reads the streamed body line by
line. It keeps the lines that begin with the literal text
`{"type": "content", "content":`, takes the `content` value out of each, and
either concatenates the values (aggregate mode) or hands them out one at a
time through a generator (chunked mode).

The same logic exists twice. `conversation/client.py` has both modes: a
generator, with `"".join` over it for aggregate mode. `app.py` is an older
copy with aggregate mode only, written as a `+=` loop.

Modules:

- `Wrappers` (wrappers.dfy): `Option` and `Result`.
- `Events` (events.dfy): the content-line test, the result of extracting
  `content` from a line, the two exceptions parsing can raise, and the
  reference meaning of a stream. The reference meaning is the content of every
  content line (`Fragments`) and the concatenated text of every content line
  (`Transcript`), stated without any parser's control flow.
- `Wire` (wire.dfy): the request payload, the request URL, the streamed
  response and its `close()`, and `ConversationAPIClient`. The network and the
  server are a function parameter of that client. Both files build the same
  payload and URL (app.py:48 and app.py:108-115 repeat conversation/client.py:52
  and conversation/client.py:134-141), so the model defines them once.
- `Client` (client.dfy): the generator as a function (`Generate`) and as a
  stream object with a cursor (`ChunkStream`), aggregate mode (`Aggregate`,
  `JoinChunks`), `ParseResponse`, and `ConversationAPI.EnterPrompt`.
- `App` (app.dfy): the `+=` loop (`ParseResponse`, specified by `Accumulate`),
  its agreement with the client's aggregate mode, and
  `ConversationAPI.EnterPrompt`.

`json.loads(line)['content']` is the parameter `decode: string -> Extraction`.
For a line that starts with the prefix it gives one of three things:

- `Extracted(Text(s))`: the content is a JSON string.
- `Extracted(NotText)`: the content is a number, boolean, null, array or object.
- `Malformed`: the line is not valid JSON.

Every result holds for every decoder. Lines are already-decoded strings.

Behaviour worth noting:

- The match is a literal prefix test, spaces included. A compact line such as
  `{"type":"content","content":"Hi"}` is skipped even though it is a
  well-formed content event (`Client.CompactEventsAreSkipped`).
- A content line that is not valid JSON is not skipped. The decoding error
  propagates: aggregate mode fails, and the generator raises after yielding the
  earlier fragments.
- A content value that is not a string is yielded as it is in chunked mode.
  In aggregate mode it makes `"".join` (client.py) or `+=` (app.py) raise
  `TypeError`.
- `"".join` drains the generator before it checks item types. So when a
  non-string content comes before a malformed line, client.py raises the
  decoding error and app.py raises `TypeError` (`App.ErrorKindsDiffer`). The
  two parsers fail on exactly the same streams, and agree wherever they
  succeed.
- When parsing raises in aggregate mode, `enter_prompt` never reaches
  `close()`.
- In chunked mode, `enter_prompt` never closes the response.

## Model

| member | source | states |
|---|---|---|
| `Events.IsContentLine` | conversation/client.py:77-81 | The line filter: non-empty and starting with the literal prefix; specified by `Client.SkipNonContentLine`, `Client.EmptyRunIff` and `Client.CompactEventsAreSkipped` |
| `Client.Generate` | conversation/client.py:75-83 | The `parse_chunks` generator run to the end; specified by `Client.GenerateMeaning`, `Client.GenerateAppend` and `Client.GenerateStopsAtMalformed` |
| `Client.JoinTexts` | conversation/client.py:88 | `"".join` over a drained list, with its type check; specified by `Client.JoinFragments` |
| `Client.Aggregate` | conversation/client.py:88 | Aggregate mode, `"".join(parse_chunks())`; specified by `Client.AggregateMeaning` and implemented by `Client.JoinChunks` |
| `Client.GenerateAppend` | conversation/client.py:75-83 | Running the generator over `a + b` is running it over `a` and then, unless that raised, over `b`: order is preserved and nothing follows an error |
| `Client.GenerateMeaning` | conversation/client.py:75-83 | The generator finishes exactly when every content line decodes; it then yields exactly the content of each content line, one per line, in stream order |
| `Client.GenerateStopsAtMalformed` | conversation/client.py:82-83 | A content line that does not decode makes the generator raise right after the fragments of the earlier lines; the error is not caught and the line is not skipped |
| `Client.SkipNonContentLine` | conversation/client.py:77-81 | An empty line, another event type or compact JSON contributes nothing in either mode, wherever it stands in the stream |
| `Client.DecoderOnlySeesContentLines` | conversation/client.py:79-82 | The result depends on the decoder only through its values on content lines |
| `Client.JoinFragments` | conversation/client.py:88 | `"".join` of the fragments is the transcript when every fragment is a string, and `TypeError` otherwise |
| `Client.AggregateMeaning` | conversation/client.py:75-88 | Aggregate mode returns the in-order concatenation of the text of every content line; it raises the decoding error if any content line is malformed, and `TypeError` if all decode but one is not a string |
| `Client.NoContentLines` | conversation/client.py:85-88 | With no content line, aggregate mode returns "" and the generator yields nothing and finishes at once |
| `Client.EmptyRunIff` | conversation/client.py:75-83 | The generator yields nothing and finishes if and only if the stream has no content line |
| `Client.CompactEventsAreSkipped` | conversation/client.py:79-81 | Content events written without spaces are skipped, whatever the decoder says: the result is "" and nothing is yielded |
| `Client.SpacedEventsAreJoined` | conversation/client.py:75-88 | For spaced "Hi", status, " there" lines, chunked mode yields "Hi" then " there" and aggregate mode returns "Hi there" |
| `Client.ChunkStream.constructor` | conversation/client.py:86 | A new generator has read no line and yielded nothing |
| `Client.ChunkStream.HasNext` | conversation/client.py:75-83 | True exactly when the next call will yield or raise rather than stop |
| `Client.ChunkStream.Next` | conversation/client.py:75-83 | Yields the next fragment of the run over the unread lines, or raises its error, or stops; an exhausted stream only ever stops, so it never restarts; the yielded history grows by exactly the yielded value |
| `Client.JoinChunks` | conversation/client.py:88 | Draining a fresh stream and joining the list gives exactly `Aggregate` of its lines, and leaves the stream exhausted |
| `Client.ParseResponse` | conversation/client.py:60-88 | Aggregate mode returns `Aggregate` of the body; chunked mode returns an unstarted stream over the body |
| `Client.ConversationAPI.EnterPrompt` | conversation/client.py:109-154 | Posts the built payload to the conversation URL and returns the parser's result unchanged; closes the response once, only in aggregate mode and only after parsing returned, whether or not the close raises |
| `Client.EnterPromptWithDefaults` | conversation/client.py:109-118 | A call that passes only the prompt posts `BuildPayload(prompt, "", false, "", true, None)` and runs in aggregate mode |
| `Wire.BuildPayload` | conversation/client.py:134-141 | The payload has exactly one message, with role "user" and the prompt; all other fields are the arguments unchanged |
| `Wire.PayloadKeepsArguments` | conversation/client.py:134-141 | The prompt can be read back from the payload, and two calls build the same payload exactly when all their arguments agree |
| `Wire.UrlKeepsBase` | conversation/client.py:52 | The request URL is the base URL followed by the conversation path: the base can be read back, and distinct bases give distinct URLs |
| `Wire.ConversationUrl` | conversation/client.py:52 | The request URL; specified by `Wire.UrlKeepsBase` |
| `Wire.ConversationAPIClient.constructor` | conversation/client.py:32-39 | The base URL is the argument, `http://127.0.0.1:8080` when none is given; no request has been sent |
| `Wire.ConversationAPIClient.SendRequest` | conversation/client.py:41-53 | Records one POST of the payload to the conversation URL and returns a fresh, unclosed response carrying the server's body |
| `Wire.Response.Close` | conversation/client.py:146-152 | One more close call; reports whether the transport raised |
| `App.AddLine` | app.py:68-72 | One iteration of the loop; specified by `App.NonContentLineKeepsAnswer` and `App.AccumulateStopsAtFirstProblem` |
| `App.Accumulate` | app.py:66-73 | `full_response` after the loop, or the exception that stopped it; specified by `App.AccumulateMeaning` and implemented by `App.ParseResponse` |
| `App.ErrorStops` | app.py:67-72 | Once the loop has raised, the lines after it do not change the outcome |
| `App.ParseResponse` | app.py:56-73 | The `+=` loop returns `Accumulate` of the body; its invariant is that after k lines `full_response` is `Accumulate` of the first k lines |
| `App.AccumulateMeaning` | app.py:66-73 | The loop succeeds exactly when every content line decodes to a string, and then returns the in-order concatenation of their texts |
| `App.AccumulateStopsAtFirstProblem` | app.py:70-72 | The first content line that does not decode to a string decides the exception: the decoding error, or `TypeError` |
| `App.NonContentLineKeepsAnswer` | app.py:68-70 | An empty line or a line without the prefix leaves `full_response` unchanged |
| `App.NoContentLinesGiveEmpty` | app.py:66-73 | With no content line the answer is "" |
| `App.AgreesWithClientAggregate` | app.py:66-73 | On the same lines, the loop succeeds exactly when the client's aggregate mode does, and then both return the same string |
| `App.ErrorKindsDiffer` | app.py:71-72 | A non-string content followed by a malformed line makes the loop raise `TypeError` and the client's join raise the decoding error |
| `App.EnterPromptWithDefaults` | app.py:141 | `api.enter_prompt(prompt)` posts `BuildPayload(prompt, "", false, "", true, None)` and returns the loop's result |
| `App.ConversationAPI.EnterPrompt` | app.py:90-127 | Posts the built payload to the conversation URL; returns the loop's result unchanged; closes the response exactly once when parsing succeeded, whether or not the close raises |

## Left out

- Network transport: `requests.post` with `stream=True`, the timeout (30 seconds by default) and TLS. The server is a function from payload to body lines and close behaviour.
- Transport failures. A refused connection or a timeout while connecting raises from `requests.post` and propagates unchanged.
- Read errors while the body streams in. The body is read inside `iter_lines()`, so a read timeout or a dropped connection can raise partway through the stream: the generator raises after its earlier fragments, and aggregate mode raises before `close()`. The model's body is a fixed, complete sequence of lines.
- UTF-8 decoding of lines. Lines are already strings. Both parsers decode every non-empty line before the prefix test, so invalid UTF-8 on any non-empty line raises, whether or not it is a content line. That failure is not modelled, so `Client.SkipNonContentLine` and `Client.DecoderOnlySeesContentLines` hold only for lines that decode.
- The internals of `json.loads`. They are the `decode` parameter.
- Which exception class `close()` raises. `StreamConsumedError` and `RequestException` are one flag, and both are swallowed.
- The loop of `ask_question` in app.py and the whole of example.py. Both are interactive or demo I/O; the one call they make is `App.EnterPromptWithDefaults` and `Client.EnterPromptWithDefaults`.
- The `APIClient` abstract base class and the default construction of client and parser. The model takes the client as an argument.
- Client.ChunkStream: copies the body lines when created. The generator reads them lazily from the response, and nothing observable depends on the difference, since the body is fixed.
- Client.ConversationAPI.EnterPrompt: does not model releasing the connection when a chunked stream is dropped early. The source never closes it in chunked mode.
