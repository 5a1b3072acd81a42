# Realtime voice-chat session, modelled in Dafny

The front end of this repository is a React component that opens a WebRTC
session with a realtime speech model. It keeps a small session record: the
connected flag, the status line, the chat list, the text box, and refs to the
peer connection, the microphone stream, the "oai-events" data channel, the
ephemeral key and the conversation id. The component exists in four variants:
`App.jsx`, `App2.jsx`, `App3.jsx` and `Applatest.jsx`. Each variant drives the
record with the same four handlers:

- `initWebRTC` connects;
- `endSession` hangs up;
- `dc.onmessage` dispatches realtime server events;
- `sendTextMessage` sends typed text.

The three later variants also retrieve PDF chunks for a question
(`fetchPdfChunks`). They then ask the model for a spoken answer with a
`response.create` request (`createResponseEvent`).

The model has one module per variant, and each module holds a `class Session`:

- the class fields are the component's state and refs;
- the class methods are the handlers;
- `sent` logs every payload handed to `dc.send`.

Each handler is one atomic step. The outcome of every awaited network or
browser call is a parameter:

- `InitOutcome` is what the session request, the microphone, the SDP exchange
  and `setRemoteDescription` return;
- `Retrieval` is the chunk list, or a failure;
- `Inbound` is a parsed event, or data that fails to parse.

The `onmessage` switch of each variant is specified by a pure function
`React`. It says which status the event sets, which chat lines it adds, which
question it hands on and which conversation id it records. `OnMessage` is
proved to change the record exactly as `React` says.

Shared modules:

- `Text`: JavaScript's `String.prototype.trim`, over the full ECMAScript
  whitespace set, with its characterisation. It also has
  `Array.prototype.join` and a splitter that reads a blank-line join back.
- `Realtime`: the event, payload and outcome datatypes, the status labels,
  the chunk join `ContextOf` and the stages of `initWebRTC`.

`Session.ChannelOpens` in each class is the browser's step that moves a new
data channel from "connecting" to "open". It can happen only on a connected
session, because the channel opens only after the remote description is
applied. No handler in the source does this, so it has no row below.

## Model

| member | source | states |
|---|---|---|
| Text.TrimSlice | frontend/src/App3.jsx:218 | `trim` returns the slice of its input that starts right after the leading whitespace |
| Text.TrimCutsBlanks | frontend/src/App3.jsx:218 | the text that `trim` cuts off on either side is all whitespace |
| Text.TrimUnpadded | frontend/src/App3.jsx:218 | what `trim` returns neither starts nor ends with whitespace |
| Text.TrimBlankIff | frontend/src/App.jsx:107 | `s.trim()` is empty if and only if `s` is all whitespace, in both directions |
| Text.TrimIdempotent | frontend/src/App2.jsx:72-73 | trimming an already trimmed transcript changes nothing |
| Text.TrimPadding | frontend/src/App2.jsx:179 | whitespace added on either side of a text is exactly what `trim` removes |
| Text.Join | frontend/src/App3.jsx:180 | joining no chunks gives "", and joining one chunk gives that chunk |
| Text.JoinLength | frontend/src/App3.jsx:180 | the join holds every chunk's characters plus one separator between neighbours |
| Text.JoinSnoc | frontend/src/App3.jsx:180 | one more chunk adds one separator followed by that chunk at the end |
| Text.SplitJoin | frontend/src/App3.jsx:180 | single-line chunks are read back from their "\n\n" join, complete and in order |
| Realtime.ContextOf | frontend/src/App3.jsx:175-188 | a failed retrieval gives ""; a successful one keeps every single-line chunk in order |
| Realtime.PeerClosed | frontend/src/App3.jsx:165 | closing the peer connection leaves no data channel open, and a missing channel stays missing |
| App3.InstructionsEmbed | frontend/src/App3.jsx:201 | the instructions are the opening line, then the context verbatim, then the question line, then the query verbatim at the end |
| App3.Request | frontend/src/App3.jsx:197-206 | every request asks for audio and text, voice "alloy", pcm16, temperature 0.8 and 800 output tokens, and its instructions are the template filled with that context and query |
| App3.React | frontend/src/App3.jsx:72-131 | a question is handed on if and only if a user item has a truthy transcript; it is then that transcript and the one "You" line, and any other item changes nothing; transcript.done adds exactly the AI line with its transcript; a status is set if and only if the event is speech_started ("Listening..."), response.created ("AI is speaking...") or response.audio.done ("Connected"), and then no line is added; conversation.created records its id; deltas, speech_stopped, completed transcriptions and other types change nothing |
| App3.Session.constructor | frontend/src/App3.jsx:5-19 | disconnected, "Disconnected", no chat, no refs, nothing sent |
| App3.Session.SetInput | frontend/src/App3.jsx:260 | the text box holds the typed text |
| App3.Session.Init | frontend/src/App3.jsx:33-160 | connected and "Connected" only once the remote answer is applied; otherwise the error status with connected unchanged; the refs set before a failing step stay set |
| App3.Session.OnMessage | frontend/src/App3.jsx:72-131 | status, chat and conversation id change as `React` says; one request with the question and its context is sent exactly when a question is handed on and a data channel exists |
| App3.Session.FetchChunks | frontend/src/App3.jsx:175-188 | returns the joined context, or "" on failure, and shows it in the debug pane only on success |
| App3.Session.CreateResponse | frontend/src/App3.jsx:191-210 | no data channel means nothing is sent; otherwise exactly one request is sent, whatever the readyState |
| App3.Session.SendText | frontend/src/App3.jsx:213-228 | nothing changes unless the channel is open and the trimmed input is non-empty; then one trimmed "You" line is added, the input is cleared and one request for the trimmed question is sent |
| App3.Session.EndSession | frontend/src/App3.jsx:163-172 | always ends disconnected, "Disconnected", with no chat and no peer connection; a channel the peer connection owned is closed, and no data channel is left open; a second call changes nothing |
| App2.InstructionsEmbed | frontend/src/App2.jsx:166 | the instructions are the opening line, the context verbatim, "\nUser: ", the query verbatim and the closing sentence, in that order |
| App2.Request | frontend/src/App2.jsx:162-171 | every request asks for audio and text, voice "ash", pcm16, no temperature and 400 output tokens, and its instructions are the template filled with that context and query |
| App2.React | frontend/src/App2.jsx:62-94 | a question is handed on if and only if a completed transcription is not blank; it is the trimmed transcript, already trimmed, and the one "You" line, and a blank one changes nothing; transcript.done adds exactly the AI line with its transcript; a status is set if and only if the event is response.created ("AI is responding...") or response.audio.done ("Connected"), and then no line is added; conversation.created records its id; item.created, deltas, speech events and other types change nothing |
| App2.Session.constructor | frontend/src/App2.jsx:5-16 | disconnected, "Disconnected", no chat, no refs, nothing sent |
| App2.Session.SetInput | frontend/src/App2.jsx:211 | the text box holds the typed text |
| App2.Session.Init | frontend/src/App2.jsx:28-123 | when already connected, nothing changes; a missing or empty client secret, a failing step or a blank SDP answer gives the error status and leaves the session disconnected; success gives connected and "Connected" |
| App2.Session.OnMessage | frontend/src/App2.jsx:62-94 | status, chat and conversation id change as `React` says; one request is sent exactly when a question is handed on and the channel is open |
| App2.Session.HandleUserInput | frontend/src/App2.jsx:138-142 | the question goes out with its retrieved context, once, exactly when the channel is open |
| App2.Session.CreateResponse | frontend/src/App2.jsx:158-174 | a missing channel, or one that is not open, gets nothing; an open one gets exactly one request |
| App2.Session.SendText | frontend/src/App2.jsx:177-185 | connects first when disconnected; a blank input then changes nothing more; otherwise one trimmed "You" line is added, the input is cleared, and one request is sent exactly when the channel is open |
| App2.Session.EndSession | frontend/src/App2.jsx:126-135 | always ends disconnected, "Disconnected", with no chat and no peer connection; a channel the peer connection owned is closed, and no data channel is left open; a second call changes nothing |
| AppLatest.InstructionsEmbed | frontend/src/Applatest.jsx:162 | the instructions are the opening line, the context verbatim, "\nUser: " and the query verbatim at the end, in that order |
| AppLatest.Request | frontend/src/Applatest.jsx:158-167 | every request asks for audio and text, voice "ash", pcm16, no temperature and 800 output tokens, and its instructions are the template filled with that context and query |
| AppLatest.React | frontend/src/Applatest.jsx:55-91 | a question is handed on if and only if a completed transcription is not blank; it is the trimmed transcript and the one "You" line, and a blank one changes nothing; transcript.done adds exactly the AI line with its transcript and sets "Connected"; speech_stopped sets "Processing..." and response.audio.done sets "Connected", adding no line; no other event sets a status; conversation.created records its id; item.created, deltas, speech_started, response.created and other types change nothing |
| AppLatest.Session.constructor | frontend/src/Applatest.jsx:5-16 | disconnected, "Disconnected", no chat, no refs, nothing sent |
| AppLatest.Session.SetInput | frontend/src/Applatest.jsx:209 | the text box holds the typed text |
| AppLatest.Session.Init | frontend/src/Applatest.jsx:28-115 | connected and "Connected" only once the remote answer is applied; otherwise the error status with connected unchanged |
| AppLatest.Session.OnMessage | frontend/src/Applatest.jsx:55-91 | status, chat and conversation id change as `React` says; one request is sent exactly when a question is handed on and the channel is open |
| AppLatest.Session.HandleUserInput | frontend/src/Applatest.jsx:130-134 | the question goes out with its retrieved context, once, exactly when the channel is open |
| AppLatest.Session.CreateResponse | frontend/src/Applatest.jsx:151-170 | a missing channel, or one that is not open, gets nothing; an open one gets exactly one request |
| AppLatest.Session.SendText | frontend/src/Applatest.jsx:173-181 | connects first when disconnected; a blank input then sends and adds nothing; otherwise one trimmed "You" line is added, the input is cleared, and one request is sent exactly when the channel is open |
| AppLatest.Session.EndSession | frontend/src/Applatest.jsx:118-127 | always ends disconnected, "Disconnected", with no chat and no peer connection; a channel the peer connection owned is closed, and no data channel is left open; a second call changes nothing |
| App.React | frontend/src/App.jsx:47-55 | a parsed event adds exactly one AI line, its `text` field when truthy and its serialised form otherwise; unparseable data adds nothing; no event sets a status |
| App.Session.constructor | frontend/src/App.jsx:7-14 | disconnected, "Disconnected", no chat, no refs, nothing sent |
| App.Session.SetInput | frontend/src/App.jsx:136 | the text box holds the typed text |
| App.Session.Init | frontend/src/App.jsx:17-86 | connected and "Connected" only once the remote answer is applied; otherwise the error status with connected unchanged |
| App.Session.OnMessage | frontend/src/App.jsx:47-55 | the chat grows by exactly the line `React` gives, and nothing else changes |
| App.Session.EndSession | frontend/src/App.jsx:88-103 | without a peer connection nothing changes; with one, it ends disconnected, "Disconnected", with no chat, no peer connection and no local stream, and the channel is closed; in either case no data channel is left open |
| App.Session.SendText | frontend/src/App.jsx:106-113 | nothing changes unless the channel is open and the input is not blank; then exactly one `{type: "message"}` payload carries the untrimmed input, one "You" line with that input is added, and the input is cleared; every payload ever sent is non-blank |

## Left out

- backend/main.py is not part of this model. It only forwards a request to the speech API and returns the JSON.
- WebRTC negotiation is not modelled. The peer connection, the offer and answer, `getUserMedia` and the tracks are the browser's; each awaited step is a success or failure in `InitOutcome`.
- `fetch`, `JSON.parse`, `JSON.stringify` and `encodeURIComponent` are not modelled. Their results are the parameters `Inbound`, `Retrieval` and `InitOutcome`.
- Chat-history persistence in localStorage is not modelled; it is storage I/O. Every session therefore starts with an empty chat.
- Rendering, audio playback, stopping local tracks and the console logs are not modelled.
- Interleavings of async handlers are not modelled. Each handler is one atomic step.
- Because handlers are atomic, a data channel cannot open during the awaited chunk fetch. The auto-connect in App2 and Applatest therefore never sends the first request in the model, because the new channel is still "connecting".
- In the source, `sendTextMessage` reads `isConnected` from a possibly stale render. The model reads the current flag.
- ChannelOpens requires a connected session, not the newest peer connection's own answer. In App, App3 and Applatest a second `initWebRTC` can fail after creating a new channel while the flag stays connected; the model lets that new channel open, the browser would not.
- The readyState changes of the data channel are not modelled, apart from opening (`ChannelOpens`) and closing with the peer connection. A remote close is one of these.
- App3.Session.CreateResponse logs a send on a channel that exists but is not open. The browser would raise an error there instead; the model does not capture that.
- Init does not close the peer connection or the stream a repeated `initWebRTC` replaces. The model keeps only whether a peer connection and a stream exist.
- Event fields that the handlers read as strings are modelled as strings. A number or an object in those places is not modelled.
- A `conversation.created` event without `conversation`, and a `response.audio_transcript.done` event without `transcript`, are not modelled. Such events make the source throw or store `undefined`.
- The `temperature` of App3's request is the real number 0.8. Its IEEE double encoding is not modelled.
