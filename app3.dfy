/** frontend/src/App3.jsx: the variant that detects a spoken question by a
    `conversation.item.created` event with role "user", shows the retrieved
    context in a debug pane, and checks only that a data channel exists
    before it sends a `response.create`. */
module App3 {
  import opened Text
  import opened Realtime

  const Voice: string := "alloy"
  const Temperature: real := 0.8
  const MaxOutputTokens: nat := 800

  const ContextIntro: string := "You have context from this PDF:\n"
  const QueryIntro: string := "\nAnswer the user's question using only that info.\nUser said: "

  /** The `instructions` text of a request. */
  function Instructions(context: string, query: string): string {
    ContextIntro + context + QueryIntro + query
  }

  /** The instructions hold the retrieved context right after the opening
      line and then the user's words, both verbatim, the words closing the text. */
  lemma InstructionsEmbed(context: string, query: string)
    ensures var s := Instructions(context, query);
      |s| == |ContextIntro| + |context| + |QueryIntro| + |query|
      && s[..|ContextIntro|] == ContextIntro
      && s[|ContextIntro|..|ContextIntro| + |context|] == context
      && s[|ContextIntro| + |context|..|s| - |query|] == QueryIntro
      && s[|s| - |query|..] == query
  {
  }

  /** What every `response.create` of this variant asks for. */
  predicate Configured(p: Payload) {
    p.ResponseCreate? && p.response.modalities == AudioAndText && p.response.voice == Voice
    && p.response.outputAudioFormat == Pcm16 && p.response.temperature == Some(Temperature)
    && p.response.maxOutputTokens == MaxOutputTokens
  }

  /** The request createResponseEvent builds for a question and its context. */
  function Request(query: string, context: string): (p: Payload)
    ensures Configured(p)
    ensures p.response.instructions == Instructions(context, query)
  {
    ResponseCreate(ResponseParams(AudioAndText, Instructions(context, query), Voice, Pcm16,
                                  Some(Temperature), MaxOutputTokens))
  }

  /** The `dc.onmessage` switch. A question is handed on exactly when a user
      item carries a non-empty transcript, and then that same transcript is the
      one chat line added; status changes add no line; a finished assistant
      transcript adds one AI line; everything else is ignored. */
  function React(m: Inbound): (r: Reaction)
    ensures |r.said| <= 1
    ensures r.query.Some? <==>
      m.Parsed? && m.event.ItemCreated? && m.event.role == "user" && Truthy(m.event.transcript)
    ensures r.query.Some? ==> r.query == m.event.transcript && r.said == [Msg(You, r.query.value)]
    ensures r.status.Some? <==>
      m.Parsed? && (m.event.SpeechStarted? || m.event.ResponseCreated? || m.event.AudioDone?)
    ensures r.status.Some? ==> r.said == []
    ensures m.Parsed? && m.event.SpeechStarted? ==> r.status == Some(Listening)
    ensures m.Parsed? && m.event.ResponseCreated? ==> r.status == Some(Speaking)
    ensures m.Parsed? && m.event.AudioDone? ==> r.status == Some(Connected)
    ensures m.Parsed? && m.event.TranscriptDone? ==> r.said == [Msg(AI, m.event.final)]
    ensures m.Parsed? && m.event.ConversationCreated? ==> r.conversation == Some(m.event.id)
    ensures m.Parsed? && m.event.ItemCreated? && !(m.event.role == "user" && Truthy(m.event.transcript))
      ==> r == Ignored
    ensures r.said != [] && r.query.None? ==>
      m.Parsed? && m.event.TranscriptDone? && r.said == [Msg(AI, m.event.final)]
    ensures r.conversation.Some? <==> m.Parsed? && m.event.ConversationCreated?
    ensures (m.Unparseable? || m.event.TranscriptDelta? || m.event.SpeechStopped?
             || m.event.TranscriptionCompleted? || m.event.Other?) ==> r == Ignored
  {
    match m
    case Unparseable => Ignored
    case Parsed(e, _, _) =>
      match e
      case ConversationCreated(id) => Reaction(None, [], None, Some(id))
      case ItemCreated(role, transcript) =>
        if role == "user" && Truthy(transcript) then
          Reaction(None, [Msg(You, transcript.value)], Some(transcript.value), None)
        else
          Ignored
      case TranscriptDone(t) => Reaction(None, [Msg(AI, t)], None, None)
      case SpeechStarted => Reaction(Some(Listening), [], None, None)
      case ResponseCreated => Reaction(Some(Speaking), [], None, None)
      case AudioDone => Reaction(Some(Connected), [], None, None)
      case _ => Ignored
  }

  /** The component's state: its React state and its refs. */
  class Session {
    var connected: bool          // isConnected
    var status: Status           // statusMessage
    var messages: seq<Msg>       // messages
    var inputText: string        // inputText
    var contextDebug: string     // pdfContextDebug
    var hasPeer: bool            // pcRef.current is a peer connection
    var hasLocalStream: bool     // localStreamRef.current is a stream
    var channel: Channel         // dcRef.current
    var ephemeralKey: string     // ephemeralKeyRef.current
    var conversationId: string   // conversationIdRef.current
    var sent: seq<Payload>       // every payload passed to dc.send, oldest first

    /** A connected session has a peer connection and a data channel, a live
        data channel belongs to a live peer connection, and every payload ever
        sent is a request with this variant's settings. */
    ghost predicate Valid()
      reads this
    {
      (connected ==> hasPeer && !channel.NoChannel?)
      && (channel == DataChannel(Connecting) || IsOpen(channel) ==> hasPeer)
      && forall p :: p in sent ==> Configured(p)
    }

    /** What endSession leaves behind. */
    ghost predicate Ended()
      reads this
    {
      !connected && status == Disconnected && messages == [] && !hasPeer
    }

    constructor ()
      ensures Valid() && Ended()
      ensures inputText == "" && contextDebug == "" && !hasLocalStream && channel == NoChannel
      ensures ephemeralKey == "" && conversationId == "" && sent == []
    {
      connected, status, messages, inputText, contextDebug := false, Disconnected, [], "", "";
      hasPeer, hasLocalStream, channel := false, false, NoChannel;
      ephemeralKey, conversationId, sent := "", "", [];
    }

    /** The text area's onChange. */
    method SetInput(text: string)
      modifies this`inputText
      ensures inputText == text
    {
      inputText := text;
    }

    /** initWebRTC, with the outcome of each awaited step given. A failing
        step sets the error status and leaves `connected` as it was; the refs
        assigned before it stay assigned. There is no guard against a second
        connection. */
    method Init(o: InitOutcome)
      requires Valid()
      modifies this
      ensures Valid()
      ensures connected == (old(connected) || Negotiated(o, false))
      ensures status == if Negotiated(o, false) then Connected else InitFailed
      ensures hasPeer == (old(hasPeer) || SecretObtained(o, false))
      ensures hasLocalStream == (old(hasLocalStream) || MicAcquired(o, false))
      ensures channel == if MicAcquired(o, false) then DataChannel(Connecting) else old(channel)
      ensures ephemeralKey == if SecretObtained(o, false) then SecretOf(o) else old(ephemeralKey)
      ensures conversationId == if SecretObtained(o, false) then "" else old(conversationId)
      ensures messages == old(messages) && inputText == old(inputText)
      ensures contextDebug == old(contextDebug) && sent == old(sent)
    {
      if o.session.None? || o.session.value.clientSecret.None? {
        status := InitFailed;
        return;
      }
      ephemeralKey := o.session.value.clientSecret.value;
      conversationId := "";
      hasPeer := true;
      if !o.micGranted {
        status := InitFailed;
        return;
      }
      hasLocalStream := true;
      channel := DataChannel(Connecting);
      if o.answer.None? || !o.remoteAccepted {
        status := InitFailed;
        return;
      }
      connected := true;
      status := Connected;
    }

    /** The browser finishing the data channel's setup once the remote
        description is applied; the source has no handler for it, it only
        reads readyState. */
    method ChannelOpens()
      requires Valid() && connected
      modifies this`channel
      ensures Valid()
      ensures channel == if old(channel) == DataChannel(Connecting) then DataChannel(Open) else old(channel)
    {
      if channel == DataChannel(Connecting) {
        channel := DataChannel(Open);
      }
    }

    /** `dc.onmessage`, with the awaited chunk retrieval's outcome given. */
    method OnMessage(m: Inbound, retrieval: Retrieval)
      requires Valid()
      modifies this
      ensures Valid()
      ensures var r := React(m);
        status == r.status.GetOr(old(status))
        && messages == old(messages) + r.said
        && conversationId == r.conversation.GetOr(old(conversationId))
        && sent == old(sent) + (if r.query.Some? && !channel.NoChannel?
                                then [Request(r.query.value, ContextOf(retrieval))] else [])
        && contextDebug == if r.query.Some? && retrieval.Chunks? then ContextOf(retrieval) else old(contextDebug)
      ensures connected == old(connected) && channel == old(channel) && hasPeer == old(hasPeer)
      ensures hasLocalStream == old(hasLocalStream) && ephemeralKey == old(ephemeralKey)
      ensures inputText == old(inputText)
    {
      if m.Unparseable? {
        return;
      }
      match m.event
      case ConversationCreated(id) =>
        conversationId := id;
      case ItemCreated(role, transcript) =>
        if role == "user" && Truthy(transcript) {
          var userTranscript := transcript.value;
          messages := messages + [Msg(You, userTranscript)];
          var context := FetchChunks(retrieval);
          CreateResponse(userTranscript, context);
        }
      case TranscriptDone(t) =>
        messages := messages + [Msg(AI, t)];
      case SpeechStarted =>
        status := Listening;
      case ResponseCreated =>
        status := Speaking;
      case AudioDone =>
        status := Connected;
      case _ =>
    }

    /** fetchPdfChunks: the context for a question, shown in the debug pane
        when the retrieval succeeds. */
    method FetchChunks(retrieval: Retrieval) returns (context: string)
      modifies this`contextDebug
      ensures context == ContextOf(retrieval)
      ensures contextDebug == if retrieval.Chunks? then context else old(contextDebug)
    {
      context := ContextOf(retrieval);
      if retrieval.Chunks? {
        contextDebug := context;
      }
    }

    /** createResponseEvent: one request when a data channel exists, whatever
        its readyState; nothing otherwise. */
    method CreateResponse(query: string, context: string)
      requires Valid()
      modifies this`sent
      ensures Valid()
      ensures sent == old(sent) + if channel.NoChannel? then [] else [Request(query, context)]
    {
      if channel.NoChannel? {
        return;
      }
      sent := sent + [Request(query, context)];
    }

    /** sendTextMessage: nothing unless the channel is open and the trimmed
        input is non-empty; then the trimmed question is shown, the input is
        cleared and one request with that question is sent. */
    method SendText(retrieval: Retrieval)
      requires Valid()
      modifies this`messages, this`inputText, this`contextDebug, this`sent
      ensures Valid()
      ensures var question := Trim(old(inputText));
        var asked := IsOpen(old(channel)) && question != "";
        messages == old(messages) + (if asked then [Msg(You, question)] else [])
        && inputText == (if asked then "" else old(inputText))
        && sent == old(sent) + (if asked then [Request(question, ContextOf(retrieval))] else [])
        && contextDebug == if asked && retrieval.Chunks? then ContextOf(retrieval) else old(contextDebug)
    {
      if !IsOpen(channel) {
        return;
      }
      var question := Trim(inputText);
      if question == "" {
        return;
      }
      messages := messages + [Msg(You, question)];
      inputText := "";
      var context := FetchChunks(retrieval);
      CreateResponse(question, context);
    }

    /** endSession: closes the peer connection if there is one (which closes
        its data channel), forgets it, and resets the connection flag, the
        status and the chat. A second call changes nothing. */
    method EndSession()
      requires Valid()
      modifies this
      ensures Valid() && Ended()
      ensures !IsOpen(channel)
      ensures channel == if old(hasPeer) then PeerClosed(old(channel)) else old(channel)
      ensures inputText == old(inputText) && contextDebug == old(contextDebug) && sent == old(sent)
      ensures hasLocalStream == old(hasLocalStream)
      ensures ephemeralKey == old(ephemeralKey) && conversationId == old(conversationId)
      ensures old(Ended()) ==> unchanged(this)
    {
      if hasPeer {
        channel := PeerClosed(channel);
      }
      hasPeer := false;
      connected := false;
      status := Disconnected;
      messages := [];
    }
  }
}
