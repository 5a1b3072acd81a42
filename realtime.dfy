/** What the four voice-chat front ends share: the chat line, the realtime
    events that arrive on the "oai-events" data channel, the payloads sent
    back on it, the outcomes of the network calls a handler awaits, and the
    record of how a handler reacts to one inbound message. */
module Realtime {
  import opened Text

  datatype Option<+T> = None | Some(value: T) {
    function GetOr(default: T): T {
      match this
      case Some(v) => v
      case None => default
    }
  }

  /** A JavaScript value used as a condition: a present, non-empty string is truthy. */
  predicate Truthy(s: Option<string>) {
    s.Some? && s.value != ""
  }

  /** The `sender` of a chat line: "You" or "AI". */
  datatype Sender = You | AI

  /** One entry of the `messages` list shown in the chat. */
  datatype Msg = Msg(sender: Sender, text: string)

  /** A realtime server event, by its `type` field; each constructor keeps the
      fields the handlers read. */
  datatype Event =
    | ConversationCreated(id: string)                         // conversation.created: conversation.id
    | ItemCreated(role: string, transcript: Option<string>)   // conversation.item.created: item.role, item.content[0]?.transcript
    | TranscriptionCompleted(transcript: Option<string>)      // conversation.item.input_audio_transcription.completed
    | TranscriptDelta(delta: string)                          // response.audio_transcript.delta
    | TranscriptDone(final: string)                           // response.audio_transcript.done
    | SpeechStarted                                           // input_audio_buffer.speech_started
    | SpeechStopped                                           // input_audio_buffer.speech_stopped
    | ResponseCreated                                         // response.created
    | AudioDone                                               // response.audio.done
    | Other(kind: string)                                     // any other type

  /** The data of one `message` event of the data channel after JSON.parse.
      `Unparseable` is data whose parse throws or yields null, so that reading
      a field of it throws too. `Parsed` keeps the event, its optional top-level
      `text` field and its JSON.stringify form. */
  datatype Inbound =
    | Unparseable
    | Parsed(event: Event, text: Option<string>, serialized: string)

  /** RTCDataChannel.readyState. */
  datatype ReadyState = Connecting | Open | Closing | Closed

  /** The `dcRef` slot: no data channel yet, or one in some ready state. */
  datatype Channel = NoChannel | DataChannel(readyState: ReadyState)

  /** `dcRef.current && dcRef.current.readyState === "open"`. */
  predicate IsOpen(ch: Channel) {
    ch == DataChannel(Open)
  }

  /** RTCPeerConnection.close() closes every data channel the connection owns. */
  function PeerClosed(ch: Channel): (r: Channel)
    ensures ch.NoChannel? <==> r.NoChannel?
    ensures !IsOpen(r)
  {
    if ch.NoChannel? then NoChannel else DataChannel(Closed)
  }

  /** The `response` object of a `response.create` request. */
  datatype ResponseParams = ResponseParams(
    modalities: seq<string>,
    instructions: string,
    voice: string,
    outputAudioFormat: string,
    temperature: Option<real>,
    maxOutputTokens: nat)

  /** What a handler passes to `dc.send`, before JSON.stringify. */
  datatype Payload =
    | ResponseCreate(response: ResponseParams)   // {type: "response.create", response}
    | TextMessage(text: string)                  // {type: "message", text}

  /** The modalities and audio format every `response.create` asks for. */
  const AudioAndText: seq<string> := ["audio", "text"]
  const Pcm16: string := "pcm16"

  /** The awaited `GET /chunks?q=<query>` and its JSON body: the `chunks`
      array, or a failure of the request, of the parse or of `j.chunks.join`. */
  datatype Retrieval = Chunks(chunks: seq<string>) | RetrievalFailed

  /** fetchPdfChunks: the chunks joined with a blank line, or "" on any
      failure, so a request is built either way. Single-line chunks can be read
      back from the context, so the join keeps every chunk and their order. */
  function ContextOf(r: Retrieval): (ctx: string)
    ensures r.RetrievalFailed? ==> ctx == ""
    ensures r.Chunks? && r.chunks != [] && (forall i :: 0 <= i < |r.chunks| ==> '\n' !in r.chunks[i])
      ==> SplitBlankLines(ctx) == r.chunks
  {
    match r
    case RetrievalFailed => ""
    case Chunks(cs) =>
      var ctx := Join(cs, BlankLine);
      assert cs != [] && (forall i :: 0 <= i < |cs| ==> '\n' !in cs[i]) ==> SplitBlankLines(ctx) == cs by {
        if cs != [] && (forall i :: 0 <= i < |cs| ==> '\n' !in cs[i]) { SplitJoin(cs); }
      }
      ctx
  }

  /** The awaited `GET /session` and its JSON body. `clientSecret` is None when
      the `client_secret` object is missing (reading `.value` of it throws) and
      Some("") when its `value` is missing or empty. */
  datatype SessionData = SessionData(clientSecret: Option<string>)

  /** How the awaited steps of initWebRTC turn out, in the order the source
      awaits them: the session request, the microphone (getUserMedia), the
      offer/answer exchange (createOffer, setLocalDescription, the POST of the
      offer and the answer's text) and setRemoteDescription. */
  datatype InitOutcome = InitOutcome(
    session: Option<SessionData>,
    micGranted: bool,
    answer: Option<string>,
    remoteAccepted: bool)

  /** initWebRTC gets past reading `client_secret.value`. With `strict`, an
      empty value is rejected as well (`!sessionData.client_secret?.value`). */
  predicate SecretObtained(o: InitOutcome, strict: bool) {
    o.session.Some? && o.session.value.clientSecret.Some?
    && (strict ==> o.session.value.clientSecret.value != "")
  }

  function SecretOf(o: InitOutcome): string
    requires o.session.Some? && o.session.value.clientSecret.Some?
  {
    o.session.value.clientSecret.value
  }

  /** initWebRTC gets the microphone, and so creates the data channel. */
  predicate MicAcquired(o: InitOutcome, strict: bool) {
    SecretObtained(o, strict) && o.micGranted
  }

  /** initWebRTC reaches `setIsConnected(true)`. With `strict`, a blank SDP
      answer is rejected before it is applied (`!answerSdp.trim()`). */
  predicate Negotiated(o: InitOutcome, strict: bool) {
    MicAcquired(o, strict) && o.answer.Some?
    && (strict ==> !IsBlank(o.answer.value)) && o.remoteAccepted
  }

  /** The status line (`statusMessage`). The variants set it only to these
      texts, each given by Label. */
  datatype Status =
    | Disconnected
    | Connected
    | InitFailed
    | Listening
    | Speaking
    | Responding
    | Processing
  {
    function Label(): string {
      match this
      case Disconnected => "Disconnected"
      case Connected => "Connected"
      case InitFailed => "Error initializing WebRTC"
      case Listening => "Listening..."
      case Speaking => "AI is speaking..."
      case Responding => "AI is responding..."
      case Processing => "Processing..."
    }
  }

  /** How one inbound message changes the session record: the status it sets,
      the chat lines it appends, the question it hands on for an answer, and
      the conversation id it records. */
  datatype Reaction = Reaction(
    status: Option<Status>,
    said: seq<Msg>,
    query: Option<string>,
    conversation: Option<string>)

  /** The reaction of a `break` that changes nothing. */
  const Ignored: Reaction := Reaction(None, [], None, None)
}
