# zhipuai_chat handler: a Dafny model

This project models the request logic of a serverless chat function (`main.py`).
The function forwards a chat request to an OpenAI-compatible provider and answers
in one of two ways: as a Server-Sent Events (SSE) stream of JSON frames, or as a
single JSON object. The model covers three parts:

- **Request decision (`main`).** The body is parsed, with a missing or empty body
  read as `{}`. Then the provider key is checked, the defaults for `model`,
  `temperature`, `max_tokens` and `stream` are applied, and a request without
  truthy `messages` is rejected. Otherwise the request goes to exactly one of the
  two paths. This is `Handler.Decide` (a function) and `Handler.HandleRequest` (a method
  that runs the chosen path).
- **Stream relay (`handle_stream_chat`).** A loop over the provider's chunks. It
  collects `full_response` and one `content` event per non-None delta, then
  appends a final `done` event. Every event is `data: <json>\n\n`. If anything
  raises, all of that is dropped and a single `error` event goes out with status
  500. This is `Relay.StreamChat`, a method with a loop, proved against the
  specification function `Relay.StreamReply`.
- **One-shot composer (`handle_normal_chat`).** Builds
  `{success, response, usage}` or, on failure, `{error}` with status 500. This is
  `Composer.NormalReply`.

The parser (`json.loads`), the encoder (`json.dumps`) and the provider are
parameters. The stream lemmas assume two things about the encoder. First, `loads`
gives back each frame object that `dumps` encoded; frame objects hold only strings
and booleans, which Python's `json` writes exactly. Second, the encoder's output
contains no raw line break, because Python's default `json.dumps` escapes control
characters. The module `Sse` also models the
client's side of the stream: it splits the text into events and decodes each one
back to a frame. `Sse.DecodeRender` proves that decoding the rendered text gives
back exactly the frames that were sent. `Relay.ClientView` uses it to state what a
client receives.

Modules: `Wrappers` (Option), `Json` (parsed values, Python truthiness),
`Responses` (status and body), `Sse` (frames and events), `Relay`, `Composer`,
`Handler`.

Behaviour of the code worth stating outright:

- A failure after some chunks were read sends only the error frame. The text
  collected so far is discarded, because the whole reply is buffered until the
  stream ends (main.py:84-115).
- There is no conversation identifier and no persistence. The final frame and the
  one-shot reply carry no `convId` field (main.py:99-104, main.py:130-138), and no
  storage is written anywhere in the code.
- A payload that parses to something other than an object (a list, say) makes
  `payload.get` raise. That gives a 500 reply with
  `Internal server error: '<type>' object has no attribute 'get'` (main.py:33,
  main.py:54-58). This happens only after the key check passes.

## Model

| member | source | states |
|---|---|---|
| `Handler.EffectiveBody` | main.py:13 | a missing or empty body reads as `{}`; any other body is used unchanged |
| `Handler.Decide` | main.py:13-48 | the checks run in source order, each stated as an if-and-only-if: unparsable body first, then an empty key, then a non-object payload, then absent or falsy `messages`; a dispatched request has truthy `messages` taken from the payload, and goes to streaming exactly when `stream` (default true) is truthy |
| `Handler.Rejection` | main.py:24-58 | the early replies: 400 with `Invalid JSON in request body`, `OPENAI_API_KEY environment variable is required` or `Messages array is required`; 500 with `Internal server error: ` and the exception text for a non-object payload |
| `Handler.HandleRequest` | main.py:7-58 | exactly one outcome: a stream call with the decided parameters and the relay's reply, a one-shot call and the composer's reply, or no provider call and the rejection reply |
| `Handler.EmptyBodyRejected` | main.py:13-42 | a missing or empty body, with a key configured, is rejected with 400 as having no messages |
| `Handler.ParamsFromPayload` | main.py:33-48 | for any object payload with truthy `messages`, whichever keys are present: each supplied `model`, `temperature`, `max_tokens` reaches the provider unchanged, each absent one takes `glm-4-air`, 0.7 or 1240; a supplied `stream` selects streaming exactly when truthy, an absent one selects streaming |
| `Handler.OneShotWithDefaults` | main.py:33-48 | `messages` with `stream: false` goes to the one-shot path with model, temperature and max_tokens defaulted |
| `Responses.ErrorObject` | main.py:141-143 | the `{error: message}` object reads back as exactly that message |
| `Json.Truthy` | main.py:39-45 | a value is false exactly when it is null, false, zero, the empty string, the empty list or the empty object, as `not messages` and `if stream` test it |
| `Json.Get` | main.py:33-37 | `dict.get`: the stored value when the key is present, else the default |
| `Json.TypeName` | main.py:54-57 | the Python type name that appears in the message of the `payload.get` failure |
| `Sse.FrameObject` | main.py:91-114 | the three frame dictionaries; each has `type` and `done`, and `done` is false exactly for a content frame |
| `Sse.Event` | main.py:96-115 | an event is `data: `, the payload unchanged, then two line breaks |
| `Sse.Emit` | main.py:96-105 | the events one after another; empty exactly when there are no payloads |
| `Sse.Render` | main.py:91-115 | the stream text for a frame list; empty exactly when there are no frames |
| `Sse.FrameOf` | main.py:91-114 | decoding is the inverse of the three frame dictionaries (`content`, `done`, `error`) |
| `Sse.EmitAppend` | main.py:96 | the events of two payload lists concatenated are the two event texts concatenated |
| `Sse.PayloadsAppend` | main.py:91-105 | encoding frames distributes over concatenation |
| `Sse.RenderSnoc` | main.py:96-105 | appending one frame appends exactly its `data: <json>\n\n` event, as the relay does |
| `Sse.SplitEvent` | main.py:96 | a client reads one `data: <json>\n\n` event off the front of a stream when the payload has no line break |
| `Sse.SplitEmit` | main.py:96-105 | splitting the emitted events gives back their payloads, in order |
| `Sse.PayloadsOneLine` | main.py:91-95 | no encoded frame contains a line break when the encoder emits none |
| `Sse.DecodePayloadsInverse` | main.py:91-114 | decoding the encoded payloads gives back the frames |
| `Sse.DecodeRender` | main.py:91-115 | decoding the rendered stream text gives back exactly the frames rendered, in order |
| `Relay.Fragments` | main.py:85-88 | the non-None delta contents in chunk order: no more than there are chunks, each one a chunk's content, none when every chunk is None |
| `Relay.Join` | main.py:88 | the in-order concatenation that `full_response +=` builds; its properties are `JoinAppend` and `TranscriptOfContent` |
| `Relay.StreamFrames` | main.py:85-115 | the frames sent: on failure exactly the one error frame; otherwise content frames followed by exactly one `done` frame at the end |
| `Relay.ContentFrames` | main.py:86-96 | one content frame per fragment, same count, same order, carrying the fragment's text |
| `Relay.StreamReply` | main.py:105-115 | the streamed reply is a text body, status 200 exactly when the provider did not raise, 500 exactly when it did |
| `Relay.StreamChat` | main.py:64-115 | the loop's result equals `StreamReply`: on success the content events for the non-None deltas in order, then the `done` event with the accumulated text; on failure the single error event |
| `Relay.FragmentsAppend` | main.py:85-88 | the collected fragments of concatenated chunk runs are the concatenation of each run's fragments |
| `Relay.FragmentsOfOne` | main.py:86-88 | a chunk with content contributes exactly its text; a None chunk contributes nothing |
| `Relay.JoinAppend` | main.py:88 | accumulating text distributes over concatenation |
| `Relay.TranscriptOfContent` | main.py:88-96 | the text carried by the content frames is the accumulated `full_response` |
| `Relay.SuccessfulStream` | main.py:85-107 | a stream that ends normally gives one content frame per non-None chunk, in chunk order, then exactly one `done` frame whose `full_response` is the concatenation of all content frames before it |
| `Relay.ClientView` | main.py:91-115 | what a client decodes: on success the content frames and the `done` frame with the joined fragments; on failure only the error frame with the exception text, whatever chunks came before |
| `Relay.HelloStream` | main.py:85-107 | chunks `he`, None, `llo` give content `he`, content `llo`, then `done` with `hello` |
| `Relay.FailureAfterFragment` | main.py:109-115 | a failure after one fragment was read sends only the error frame |
| `Composer.UsageObject` | main.py:133-137 | the usage object has exactly the three count keys and reads back as the provider's counts |
| `Composer.NormalReply` | main.py:117-143 | on an answer, status 200 and a body with exactly the keys `success`, `response` and `usage` that reads back as `success` true, the message text or null, and the three usage counts unchanged; on an exception, status 500 and a body whose only key is `error`, carrying the exception text, that does not read as an answer |
| `Composer.HelloAnswer` | main.py:130-138 | text `hello` with usage 5, 1, 6 gives the expected object |

## Left out

- Provider client construction and the network calls (main.py:30, main.py:72-78, main.py:122-128). The provider is a function from parameters to a chunk stream (`Relay.ChunkStream`) or to a one-shot result (`Composer.Completion`). A chunk without a first choice raises in the source. Here that, and every other exception, is the stream's `failure`.
- Environment reading and the hard-coded fallback credentials (main.py:16-19). The key is a string parameter, and only its emptiness matters (main.py:24). The base URL and the document-store settings are unused by the logic.
- The document-store imports (main.py:4-5). They are unused, and there is no persistence or conversation identifier in this code.
- Response headers (main.py:66-69), `context.log` (main.py:55) and the transport of `context.res.json` / `context.res.send`. A reply is a status with a JSON value or a text.
- The internals of `json.loads` and `json.dumps`, including key order in the encoded objects. They are parameters, and `Json.Value` maps carry no order.
- Float semantics. `temperature` and other floats are exact reals passed through unchanged. `NaN` and `Infinity`, which Python's parser accepts, are not representable.
- Exceptions other than a parse error or the non-object payload while `main` runs its own code, such as a body of bytes that do not decode (main.py:54-58). Only the non-object payload path is modelled.
- Laziness. The provider stream is a finite sequence that is fully read before the reply is sent, as the code does; cancellation and timing are not modelled.
